# The Refuge — leaderboard logic in Dafny

The Refuge is a website for a Minecraft server. It shows the server's Discord and in-game
leaderboards. This project models, and proves properties of, the parts of its code that make
decisions, none of which touch a browser:

- **Display helpers** (`lib/utils.ts`): playtime text, number abbreviation, and the rank label and rank colour lookups. They live in module `Utils` (`Utils.dfy`).
- **The Discord leaderboard route** (`app/api/discord-leaderboard/route.ts`). It lives in module `DiscordLeaderboard` (`DiscordRoute.dfy`) and covers:
  - the per-IP fixed-window rate limiter;
  - the five-minute payload cache (a class `LeaderboardRoute` whose two map fields the methods update);
  - the MEE6-to-site transform applied over a JSON value model;
  - client-IP selection.
- **The PLAN statistics sync** (`scripts/sync-plan-data.js`). It lives in module `PlanSync` (`PlanSync.dfy`) and covers:
  - the four leaderboard queries, each as WHERE / ORDER BY … DESC / LIMIT over LEFT-JOINed tables;
  - the mapping from result row to `PlayerStats` record;
  - the callback-and-counter bookkeeping of `extractPlayerStats` (class `Extraction`, driven by method `ExtractPlayerStats`).
- **The two diagnostic scripts** (`scripts/check-hostname.js`, `scripts/test-connection.js`). They live in modules `CheckHostname` and `TestConnection`, which share `Hostnames`, and cover:
  - the alternative hostnames they try;
  - the configured and alternative ports;
  - the hint chosen for an FTP error.

Supporting modules: `Wrappers` holds `Option`. `JsText` models the JavaScript built-ins the code
relies on:
- `Number.prototype.toString` on integers;
- `parseInt` without a radix: leading white space, a sign, and a `0x` prefix;
- `indexOf` / `includes` / `replace` with a string pattern;
- ASCII `toLowerCase`;
- `split(sep)[0]`.

Modelling conventions:
- Time is a parameter: `now` stands for `Date.now()`, and an ISO string stands for `new Date().toISOString()`.
- `Option.None` stands for JavaScript `undefined` / `null` / `NaN`, and for SQL NULL.
- Numbers are mathematical integers (`int`).
- SQL NULL sorts below every number, as in SQLite.
- SQLite's integer `/` truncates toward zero and gives NULL when the divisor is 0.
- The code never reads a playtime text back. `Utils.ParsePlaytime` is a reader written for the model: it splits at the first `d ` and applies `parseInt` to each part. The contracts of `FormatPlaytime` and `FormatHours` state the round trip against it, which shows that the text keeps every whole hour.

The code contains no ban list, table-scheme detection, cross-leaderboard merge, activity score or
`mostDeaths` query, so none is modelled. `lib/types.ts` declares a `mostDeaths` list, but the
object `extractPlayerStats` builds has only the four lists modelled here.

## Model

| member | source | states |
|---|---|---|
| Utils.PlaytimeUnderADay | lib/utils.ts:7-15 | below one day the text is the whole hours followed by `h`, and those hours are fewer than 24 |
| Utils.PlaytimeFromADay | lib/utils.ts:8-13 | from one day up the text is `<d>d <r>h` with `d > 0`, `0 <= r < 24` and `24d + r` the floor of the hours |
| Utils.FormatPlaytime | lib/utils.ts:7-15 | reading the text back gives exactly `floor(ms / 3600000)` hours, on both branches, so the text loses nothing but the sub-hour remainder |
| Utils.FormatHours | lib/utils.ts:9-15 | the text for any whole number of hours, with or without a day part, reads back to exactly that number |
| Utils.FormatDaysOf | lib/utils.ts:9-13 | for `24d + r` hours with `d > 0` and `0 <= r < 24`, the text is `<d>d <r>h` |
| Utils.FormatNumber | lib/utils.ts:17-28 | a missing or NaN number gives `"0"`; the text ends in `M` exactly when `num >= 1000000` and in `K` exactly when `1000 <= num < 1000000` |
| Utils.FormatNumberPlain | lib/utils.ts:18-20 | a missing or NaN number gives `"0"`; any integer below 1000 is printed so that `parseInt` reads back that same number |
| Utils.StripBrackets | lib/utils.ts:54 | the result contains no `[` or `]`, is no longer than the input, and keeps every other character as often as the input has it |
| Utils.NormalizeRank | lib/utils.ts:53-59 | the cleaned key is never `default` and contains no brackets |
| Utils.StripBracketsAppend | lib/utils.ts:54 | the global bracket removal works piece by piece: stripping `a + b` is stripping `a`, then `b` |
| Utils.LowerKeepsBrackets | lib/utils.ts:54 | lower-casing and bracket removal commute, as far as the cleaned key is concerned |
| Utils.NormalizeRankInvariance | lib/utils.ts:53-59 | the cleaned key ignores case and brackets and is never `default` |
| Utils.StripBracketsEmpty | lib/utils.ts:54-59 | a rank made only of brackets cleans to the empty key |
| Utils.CleanedKeyInvariance | lib/utils.ts:51-54 | lower-casing never turns a present rank into an absent one; bracket removal can give the empty key, which then matches no entry |
| Utils.RankLabelOf | lib/utils.ts:61-72 | the label is one of the eight map values, and it is `[Member]` exactly when the key is unknown or `member` |
| Utils.RankColorOf | lib/utils.ts:86-97 | the colour is one of the eight map values, and it is `#55FFFF` exactly when the key is unknown or `member` |
| Utils.FormatRank | lib/utils.ts:50-73 | every result is one of the eight labels; an undefined or empty rank gives `[Member]` |
| Utils.GetRankColor | lib/utils.ts:75-98 | every result is one of the colour-map values; an undefined or empty rank gives `#55FFFF` |
| Utils.FormatRankInvariance | lib/utils.ts:53-59 | `formatRank` gives the same label for a rank, its lower-case form and its bracket-free form |
| Utils.GetRankColorInvariance | lib/utils.ts:78-84 | `getRankColor` gives the same colour for a rank, its lower-case form and its bracket-free form |
| Utils.MemberLabelIffMemberColor | lib/utils.ts:50-98 | the label is `[Member]` exactly when the colour is `#55FFFF` |
| Utils.FormatRankByKey | lib/utils.ts:50-73 | for a present rank, the label depends only on its cleaned key |
| Utils.GetRankColorByKey | lib/utils.ts:75-98 | for a present rank, the colour depends only on its cleaned key |
| Utils.PlainRankText | lib/utils.ts:54-59 | a rank already in lower case without brackets is its own key, except that `default` becomes `member` |
| Utils.StripBracketsPlain | lib/utils.ts:54 | text without brackets is left unchanged |
| Utils.LowerBracketedAdmin | lib/utils.ts:54 | `[ADMIN]` lower-cases to `[admin]` |
| Utils.StripBracketedAdmin | lib/utils.ts:54 | `[admin]` loses its brackets |
| Utils.BracketedAdminKey | lib/utils.ts:53-54 | `[ADMIN]` cleans to the key `admin` |
| Utils.AdminExample | lib/utils.ts:54-72 | `[ADMIN]` and `admin` both give `[Admin]` |
| Utils.DefaultExample | lib/utils.ts:57-72 | `default` gives the same label as `member` |
| Utils.DonatorExample | lib/utils.ts:91-97 | `donator` and `donatorplus` share the colour `#55FF55` |
| Utils.ConstructorRankLeaks | lib/utils.ts:72 | as written, the rank `constructor` makes both lookups return the inherited `Object` constructor instead of a string |
| Utils.AsWrittenInherited | lib/utils.ts:72-97 | as written, a cleaned key that neither table has but every object inherits makes both lookups return that inherited member, which is truthy and so beats the fallback |
| Utils.ProtoRankLeaks | lib/utils.ts:72-97 | as written, the rank `__proto__` makes both lookups return the inherited prototype object |
| Utils.AsWrittenAgreesOffPrototype | lib/utils.ts:50-98 | whenever the cleaned key is not an `Object.prototype` member, the code as written returns exactly the corrected label and colour |
| Utils.FormatRankAsWritten | lib/utils.ts:50-73 | as written, an undefined or empty rank gives `[Member]`; the result is never `undefined`; a string result is one of the labels; any other result is an inherited `Object.prototype` member that the map lacks |
| Utils.GetRankColorAsWritten | lib/utils.ts:75-98 | as written, an undefined or empty rank gives `#55FFFF`; the result is never `undefined`; a string result is one of the colours; any other result is an inherited `Object.prototype` member that the map lacks |
| DiscordLeaderboard.TransformMee6 | app/api/discord-leaderboard/route.ts:92-103 | a `null` body makes the transform throw, so the code takes the fallback path; any other body gives a payload stamped with the current time, whose players, guild id and guild name are truthy |
| DiscordLeaderboard.TransformOfEmptyBody | app/api/discord-leaderboard/route.ts:95-103 | an empty body gives the fallback payload |
| DiscordLeaderboard.TransformKeepsCompleteBody | app/api/discord-leaderboard/route.ts:95-103 | a body with players and a complete guild is copied unchanged |
| DiscordLeaderboard.TransformDefaults | app/api/discord-leaderboard/route.ts:95-103 | each field is decided on its own: a present truthy value is kept, and a missing or falsy one gives way to its default (players `[]`, id the guild id, name `The Refuge`, icon `''`) |
| DiscordLeaderboard.Length | app/api/discord-leaderboard/route.ts:147 | `.length` of an array or a string is its length; `null`, a boolean or a number has none |
| DiscordLeaderboard.DataSource | app/api/discord-leaderboard/route.ts:147 | `X-Data-Source` is `mee6` exactly when the players array is non-empty, and otherwise `fallback` |
| DiscordLeaderboard.FallbackIsLabelledFallback | app/api/discord-leaderboard/route.ts:9-17 | the fallback payload is served as `fallback` |
| DiscordLeaderboard.ClientIp | app/api/discord-leaderboard/route.ts:121 | the client IP is never empty |
| DiscordLeaderboard.ClientIpRule | app/api/discord-leaderboard/route.ts:119-121 | the IP is the `x-forwarded-for` text before its first comma when that text is non-empty; otherwise it is a non-empty `x-real-ip`; otherwise it is `unknown` |
| DiscordLeaderboard.RateStep | app/api/discord-leaderboard/route.ts:27-48 | the call is refused exactly when a live record (`now <= resetTime`) already counts 30, and the record is then kept; an absent or expired record restarts with count 1 and reset 60000 ms later; a live record otherwise counts one more in the same window |
| DiscordLeaderboard.RateStepOpensWindow | app/api/discord-leaderboard/route.ts:31-39 | with no record, or once `now > resetTime`, the call is allowed and starts a record with count 1 that resets 60000 ms later |
| DiscordLeaderboard.RateStepRefusesFullWindow | app/api/discord-leaderboard/route.ts:42-44 | a live record at 30 refuses the call and stays as it is |
| DiscordLeaderboard.RateStepCounts | app/api/discord-leaderboard/route.ts:46-47 | otherwise the call is allowed and the count rises by exactly one |
| DiscordLeaderboard.RateStepKeepsBounds | app/api/discord-leaderboard/route.ts:23-48 | a stored count stays between 1 and 30 |
| DiscordLeaderboard.WindowAllowsAtMostRemaining | app/api/discord-leaderboard/route.ts:42-47 | within a live window at most `30 - count` further calls are allowed |
| DiscordLeaderboard.AtMostThirtyPerWindow | app/api/discord-leaderboard/route.ts:23-48 | from the call that opens a window to its reset time, at most 30 calls from one IP are allowed |
| DiscordLeaderboard.CacheRead | app/api/discord-leaderboard/route.ts:50-61 | an entry is served exactly when it exists and is at most 300000 ms old, and then its data is served |
| DiscordLeaderboard.CacheSetThenRead | app/api/discord-leaderboard/route.ts:50-68 | data stored at `t` is read back at any `t2` with `t2 - t <= 300000`, and not later; other keys are unaffected |
| DiscordLeaderboard.LeaderboardRoute.constructor | app/api/discord-leaderboard/route.ts:9-21 | both stores start empty and the fallback payload is fixed at module load |
| DiscordLeaderboard.LeaderboardRoute.CheckRateLimit | app/api/discord-leaderboard/route.ts:27-48 | the answer and the new record are those of the rate step for this IP; no other IP's record and no cache entry changes; counts stay within 1..30 |
| DiscordLeaderboard.LeaderboardRoute.GetFromCache | app/api/discord-leaderboard/route.ts:50-61 | it returns the stored data exactly when the entry exists and is at most 300000 ms old; a stale entry is deleted; nothing else changes |
| DiscordLeaderboard.LeaderboardRoute.SetCache | app/api/discord-leaderboard/route.ts:63-68 | the entry for the key becomes the data stamped with the current time; nothing else changes |
| DiscordLeaderboard.LeaderboardRoute.FetchMee6Data | app/api/discord-leaderboard/route.ts:70-113 | a fresh cached payload is returned and the cache is kept; otherwise the stale entry is dropped and a usable response is transformed, cached at the fetch time and returned; otherwise the fallback payload is returned and nothing is cached |
| DiscordLeaderboard.LeaderboardRoute.Get | app/api/discord-leaderboard/route.ts:115-147 | the client's rate record takes its rate step; the route answers 429 exactly when that step refuses, without touching the cache; otherwise it serves what `fetchMee6Data` serves (cached, transformed or fallback payload) with the matching cache update, labelled by its data source |
| PlanSync.JoinAll | scripts/sync-plan-data.js:111-115 | the LEFT JOIN has one row per player row, in order; each carries the player's columns, each table's columns from its row for that uuid, and NULLs where the uuid has no row |
| PlanSync.LeftJoinedUnique | scripts/sync-plan-data.js:111-115 | those columns determine the joined row: a player has exactly one LEFT JOIN row |
| PlanSync.TruncDiv | scripts/sync-plan-data.js:195 | integer division truncated toward zero agrees with floor division on non-negative operands |
| PlanSync.Filter | scripts/sync-plan-data.js:116 | the WHERE clause keeps exactly the qualifying rows, each as often as it appears in the table |
| PlanSync.Insert | scripts/sync-plan-data.js:117 | inserting adds exactly one row to the rows |
| PlanSync.InsertKeepsOrder | scripts/sync-plan-data.js:117 | inserting into a list ordered largest key first keeps it ordered |
| PlanSync.SortDesc | scripts/sync-plan-data.js:117 | ORDER BY … DESC returns a permutation of its rows, ordered by key with the largest first and NULL last |
| PlanSync.TakeOfSorted | scripts/sync-plan-data.js:117-118 | the first rows of an ordered list stay ordered, and none of the rows left out ranks above them |
| PlanSync.Query | scripts/sync-plan-data.js:111-118 | a query returns `limit` rows, or every row the WHERE clause keeps when there are fewer, ordered by key with the largest first |
| PlanSync.QueryRows | scripts/sync-plan-data.js:97-121 | a query returns `limit` rows, or every qualifying row when there are fewer; every returned row qualifies and comes from the table |
| PlanSync.QueryRanks | scripts/sync-plan-data.js:116-118 | a query's rows are ordered by key with the largest first, and no qualifying row that LIMIT cuts off ranks above a returned row |
| PlanSync.QueryFromTable | scripts/sync-plan-data.js:111-118 | every returned row is a row of the joined table |
| PlanSync.RecordOfPlayer | scripts/sync-plan-data.js:99-110 | a record carries the player's uuid, name and registration; each table's columns are copied from the player's row in it, with a NULL count read as 0; a missing kills, deaths or actions row gives 0, and a missing sessions row gives no playtime, no sessions and last seen 0 |
| PlanSync.ToPlayerStats | scripts/sync-plan-data.js:99-139 | the record keeps the row's uuid, name, playtime and session count; a NULL mob-kill, death or blocks-placed count reads as 0 and any other is kept |
| PlanSync.RecordKeepsKey | scripts/sync-plan-data.js:125-139 | on a qualifying row, the finished record still qualifies and has the row's ranking key |
| PlanSync.Records | scripts/sync-plan-data.js:125-139 | `rows.map` gives one record per row, in the same order |
| PlanSync.Leaderboard | scripts/sync-plan-data.js:97-142 | a board has one record per row of its query: `limit` of them, or one per qualifying player when there are fewer |
| PlanSync.LeaderboardSize | scripts/sync-plan-data.js:23-28 | every leaderboard has at most its limit of entries, and every qualifying player when there are fewer |
| PlanSync.LeaderboardRanked | scripts/sync-plan-data.js:144-266 | every entry of each of the four boards qualifies; entries are ordered by the board's key, largest first (playtime, mob kills, playtime / sessions, blocks placed) |
| PlanSync.LeaderboardFromPlayers | scripts/sync-plan-data.js:111-139 | every entry is the record of a player in `plan_players` |
| PlanSync.Extraction.constructor | scripts/sync-plan-data.js:78-87 | the four lists start empty and the counter at 0, with nothing delivered |
| PlanSync.Extraction.OnQueryDone | scripts/sync-plan-data.js:89-95 | a successful query replaces only its own list (an error leaves it alone); the counter rises by one, and the data is delivered when the counter reaches 4 |
| PlanSync.DistinctElements | scripts/sync-plan-data.js:86-87 | a sequence of distinct callbacks has as many distinct boards as it has entries |
| PlanSync.DistinctCallbacks | scripts/sync-plan-data.js:86-95 | callbacks that fire once each number at most four, and four means that every query has answered |
| PlanSync.Collect | scripts/sync-plan-data.js:69-95 | an open error rejects with its message; otherwise, for callbacks firing once each in any order, the promise resolves exactly when four have fired, and then each list holds its query's answer, or `[]` when that query failed |
| PlanSync.ExtractPlayerStats | scripts/sync-plan-data.js:67-268 | a database that fails to open rejects with its message; otherwise the result is delivered exactly when all four callbacks have run, in any order; each list then holds its query's records, or `[]` when that query failed |
| Hostnames.StripScheme | scripts/check-hostname.js:26 | the result is a suffix of the input, and it equals the input exactly when the input starts with neither `http://` nor `https://` |
| Hostnames.StripHttp | scripts/check-hostname.js:26 | `http://x` becomes `x` |
| Hostnames.StripHttps | scripts/check-hostname.js:26 | `https://x` becomes `x` |
| Hostnames.StripMcPrefix | scripts/check-hostname.js:29 | one leading `mc-` is removed, and a name without one is unchanged |
| Hostnames.StripMcOfPrefixed | scripts/check-hostname.js:29 | `mc-x` becomes `x` |
| CheckHostname.WithDomain | scripts/check-hostname.js:27 | the second alternative ends with `.ggservers.com`: the first occurrence of the domain is cut out and the domain appended, and a name without it just gets it appended |
| CheckHostname.McWithDomain | scripts/check-hostname.js:29 | the fourth alternative starts with `mc-` and ends with `.ggservers.com`; without a domain in the name it is `mc-`, the name without its `mc-`, and the domain |
| CheckHostname.Alternatives | scripts/check-hostname.js:25-30 | there are exactly four alternatives, in order: without scheme, with the domain moved to the end, with the domain appended, and with `mc-` and the domain |
| CheckHostname.McPrefixNotDoubled | scripts/check-hostname.js:29 | a name that already has one `mc-` gets the same fourth alternative as the bare name, so the prefix is not doubled |
| CheckHostname.Probed | scripts/check-hostname.js:34-35 | exactly the alternatives that differ from the input are probed |
| CheckHostname.ProbeCandidates | scripts/check-hostname.js:25-35 | the names probed are exactly the alternatives that differ from the input, at most four |
| CheckHostname.ProbesWhatDiffers | scripts/check-hostname.js:25-35 | at most four names are probed; the name with the domain appended always is; the name without scheme is probed whenever the input has a scheme |
| CheckHostname.SecondAlternativeSkipped | scripts/check-hostname.js:27-35 | for a one-label name `x`, the second alternative of `x.ggservers.com` is the input itself and is skipped |
| CheckHostname.SecondAlternativeSkippedExample | scripts/check-hostname.js:27-35 | the second alternative of `x.ggservers.com` is not probed |
| TestConnection.ResolvePort | scripts/test-connection.js:15 | with no environment variable and no argument set, and `''` counting as not set, the port is 21 |
| TestConnection.WrittenPortIsUsed | scripts/test-connection.js:15 | a port written in decimal in the environment, or as an argument when the environment gives none, is read back exactly |
| JsText.ParseIntToString | scripts/test-connection.js:15 | `parseInt` reads back the decimal text of any integer |
| TestConnection.Suggestions | scripts/test-connection.js:46-50 | there are three suggestions: without scheme, with the domain appended, and with a doubled domain repaired; the third is the input when no doubled domain occurs, and otherwise the input with its first doubled domain replaced by a single one |
| TestConnection.DoubledDomainRepaired | scripts/test-connection.js:49 | `x.ggservers.com.ggservers.com` is repaired to `x.ggservers.com` |
| TestConnection.AltPorts | scripts/test-connection.js:98 | three ports, always including 2121 and 8021; the configured port is among them only when it is 2121 or 8021; 22 is tried exactly when the port is 21, and 21 otherwise |
| TestConnection.DefaultPortAlternatives | scripts/test-connection.js:15-98 | with the defaults, the alternatives are 22, 2121 and 8021 |
| TestConnection.ClassifyFtpError | scripts/test-connection.js:177-181 | a message containing `530` gets the authentication hint; otherwise a message containing `timeout` gets the timeout hint; otherwise there is no hint |
| TestConnection.AuthenticationFirst | scripts/test-connection.js:177-179 | a message with `530` anywhere gets the authentication hint, even when it also mentions a timeout |

## Left out

- The digits before `K` and `M`: `toFixed(1)` is modelled as exact half-up rounding of the integer to one decimal. Double precision can round a tie the other way. `toFixed` also switches to exponent form from 1e21 up, and `Infinity` is not modelled.
- Non-integer inputs to `formatPlaytime` and `formatNumber` are not modelled: every number is an integer.
- `toLowerCase` is modelled on ASCII letters; other letters are kept as they are. `parseInt`'s white space covers the ASCII, no-break, byte-order-mark and line/paragraph separator characters, but not the other Unicode space separators.
- `formatDate` and `formatDateTime` depend on the locale and the clock; `cn` calls the external `clsx` library.
- `fetch`, its timeout, the `response.ok` test, JSON parsing and the response headers other than `X-Data-Source` are I/O. `FetchMee6Data` takes the outcome as `Option<Json>`, where `None` means any thrown error.
- The `fallback-error` answer of `GET` comes from its outer `catch`. It is reached only when the headers API or the response construction throws, which the model's I/O parameters cannot express.
- DiscordLeaderboard.Length: reading `.length` of a JSON object reads the object's own keys. A `length` key with a string value is not coerced by `> 0`; such a value counts as no players.
- `Date.now()` and `new Date().toISOString()` are parameters. The ISO rendering of `last_seen` and `registered` is left out, including the `RangeError` that `toISOString` throws for instants beyond ±8.64e15 ms. The record keeps the instant itself.
- The download stub, the SQLite library calls, closing the database and writing the JSON file are I/O. The query callbacks' order and outcomes are parameters of `ExtractPlayerStats`.
- DiscordLeaderboard.LeaderboardRoute.FetchMee6Data: each request runs to completion in one step. The route awaits `fetch` and `response.json()`, so two requests can interleave there: both can miss the cache, both fetch, and the later `setCache` wins. The model does not interleave requests; the same holds for `DiscordLeaderboard.LeaderboardRoute.Get`.
- PlanSync: each joined table holds at most one row per uuid, so a LEFT JOIN never duplicates a player. Ties in ORDER BY are broken in one fixed way, and every property is stated up to ties.
- DNS lookups, socket connections, the FTP client, `setTimeout` scheduling and the loops that stop at the first success are I/O. The usage messages and the exits on a missing hostname are not modelled.

## Findings

| source | as written | input that shows it | evidently intended | confidence | as-written member | corrected member |
|---|---|---|---|---|---|---|
| lib/utils.ts:72 | `rankMap[cleanRank] \|\| '[Member]'` reads inherited `Object.prototype` properties of the literal | rank `constructor` (also `__proto__`) returns a function (or object), not a label | unknown keys give `[Member]`; only the map's own entries count | not executed | Utils.ConstructorRankLeaks | Utils.FormatRank |
| lib/utils.ts:97 | `colorMap[cleanRank] \|\| '#55FFFF'` reads inherited `Object.prototype` properties of the literal | rank `constructor` returns the `Object` constructor, not a colour | unknown keys give `#55FFFF`; only the map's own entries count | not executed | Utils.ConstructorRankLeaks | Utils.GetRankColor |
