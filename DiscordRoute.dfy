/**
 * The Discord leaderboard API route (app/api/discord-leaderboard/route.ts): a
 * per-IP fixed-window rate limiter and a time-to-live cache, both process-wide
 * maps, plus the transform of the MEE6 response and the client-IP rule.
 * Clock readings are parameters instead of `Date.now()`.
 */
module DiscordLeaderboard {
  import opened Wrappers
  import opened JsText

  const GuildId: string := "598640040544829440"
  const RateLimitRequests: int := 30
  const RateLimitWindow: int := 60 * 1000
  const CacheDuration: int := 5 * 60 * 1000

  // ---------------------------------------------------------------------------
  // JSON values and the JavaScript operators the transform applies to them
  // ---------------------------------------------------------------------------

  datatype Json =
    | JNull
    | JBool(b: bool)
    | JNum(n: int)
    | JStr(s: string)
    | JArr(items: seq<Json>)
    | JObj(fields: map<string, Json>)

  predicate Truthy(v: Json)
  {
    match v
    case JNull => false
    case JBool(b) => b
    case JNum(n) => n != 0
    case JStr(s) => s != ""
    case JArr(_) => true
    case JObj(_) => true
  }

  /** `v || fallback`, where `None` is `undefined`: one of the two, and truthy when the fallback is. */
  function Or(v: Option<Json>, fallback: Json): (r: Json)
    ensures r == fallback || (v.Some? && r == v.value)
    ensures Truthy(fallback) ==> Truthy(r)
  {
    if v.Some? && Truthy(v.value) then v.value else fallback
  }

  /** `v.key` on a value that is not null: only an object has the keys read here. */
  function Property(v: Json, key: string): Option<Json>
  {
    match v
    case JObj(m) => if key in m then Some(m[key]) else None
    case _ => None
  }

  /** `v?.key`: `undefined` when `v` is `null` or `undefined`. */
  function OptionalProperty(v: Option<Json>, key: string): Option<Json>
  {
    if v.None? || v.value.JNull? then None else Property(v.value, key)
  }

  // ---------------------------------------------------------------------------
  // The leaderboard payload and the MEE6 transform
  // ---------------------------------------------------------------------------

  datatype Guild = Guild(id: Json, name: Json, icon: Json)

  datatype LeaderboardPayload = LeaderboardPayload(players: Json, guild: Guild, lastUpdated: string)

  /** `FALLBACK_DATA`; its time stamp is taken once, when the module is loaded. */
  function FallbackData(loadedAt: string): LeaderboardPayload
  {
    LeaderboardPayload(JArr([]), Guild(JStr(GuildId), JStr("The Refuge"), JStr("")), loadedAt)
  }

  /**
   * The transform of a MEE6 body into the payload. `None` when the body is
   * `null`: reading `mee6Data.players` then throws and the caller falls back.
   */
  function TransformMee6(body: Json, now: string): (r: Option<LeaderboardPayload>)
    ensures r.None? <==> body.JNull?
    ensures r.Some? ==> r.value.lastUpdated == now
    ensures r.Some? ==> Truthy(r.value.players) && Truthy(r.value.guild.id) && Truthy(r.value.guild.name)
  {
    if body.JNull? then None
    else
      var guild := Property(body, "guild");
      Some(LeaderboardPayload(
        Or(Property(body, "players"), JArr([])),
        Guild(
          Or(OptionalProperty(guild, "id"), JStr(GuildId)),
          Or(OptionalProperty(guild, "name"), JStr("The Refuge")),
          Or(OptionalProperty(guild, "icon"), JStr(""))),
        now))
  }

  /** A body without players or guild gets exactly the fallback's players and guild. */
  lemma TransformOfEmptyBody(now: string)
    ensures TransformMee6(JObj(map[]), now) == Some(FallbackData(now))
  {
  }

  /** A complete MEE6 body keeps its players and its guild's id, name and icon. */
  lemma TransformKeepsCompleteBody(players: seq<Json>, id: string, name: string, icon: string, now: string)
    requires id != "" && name != "" && icon != ""
    ensures var guild := JObj(map["id" := JStr(id), "name" := JStr(name), "icon" := JStr(icon)]);
      TransformMee6(JObj(map["players" := JArr(players), "guild" := guild]), now)
        == Some(LeaderboardPayload(JArr(players), Guild(JStr(id), JStr(name), JStr(icon)), now))
  {
    var guild := JObj(map["id" := JStr(id), "name" := JStr(name), "icon" := JStr(icon)]);
    var body := JObj(map["players" := JArr(players), "guild" := guild]);
    assert Property(body, "players") == Some(JArr(players));
    assert Property(body, "guild") == Some(guild);
    CompleteGuild(id, name, icon);
  }

  /** A field that is present and truthy is kept; a missing or falsy one gives way to its default. */
  predicate KeptOrDefault(field: Option<Json>, default: Json, r: Json)
  {
    if field.Some? && Truthy(field.value) then r == field.value else r == default
  }

  /** A guild object whose id, name and icon are non-empty keeps all three. */
  lemma CompleteGuild(id: string, name: string, icon: string)
    requires id != "" && name != "" && icon != ""
    ensures var guild := Some(JObj(map["id" := JStr(id), "name" := JStr(name), "icon" := JStr(icon)]));
      && Or(OptionalProperty(guild, "id"), JStr(GuildId)) == JStr(id)
      && Or(OptionalProperty(guild, "name"), JStr("The Refuge")) == JStr(name)
      && Or(OptionalProperty(guild, "icon"), JStr("")) == JStr(icon)
  {
    var guild := JObj(map["id" := JStr(id), "name" := JStr(name), "icon" := JStr(icon)]);
    assert OptionalProperty(Some(guild), "id") == Some(JStr(id));
    assert OptionalProperty(Some(guild), "name") == Some(JStr(name));
    assert OptionalProperty(Some(guild), "icon") == Some(JStr(icon));
  }

  /** Missing or falsy fields fall back one by one: `[]`, the guild id, `The Refuge`, `''`; the others are kept. */
  lemma TransformDefaults(body: Json, now: string)
    requires !body.JNull?
    ensures var r := TransformMee6(body, now).value;
      var guild := Property(body, "guild");
      && KeptOrDefault(Property(body, "players"), JArr([]), r.players)
      && KeptOrDefault(OptionalProperty(guild, "id"), JStr(GuildId), r.guild.id)
      && KeptOrDefault(OptionalProperty(guild, "name"), JStr("The Refuge"), r.guild.name)
      && KeptOrDefault(OptionalProperty(guild, "icon"), JStr(""), r.guild.icon)
  {
  }

  /** `players.length` as JavaScript reads it; `None` is `undefined`. */
  function Length(v: Json): (n: Option<int>)
    ensures v.JArr? ==> n == Some(|v.items|)
    ensures v.JStr? ==> n == Some(|v.s|)
    ensures (v.JNull? || v.JBool? || v.JNum?) ==> n.None?
  {
    match v
    case JArr(items) => Some(|items|)
    case JStr(s) => Some(|s|)
    case JObj(m) => if "length" in m && m["length"].JNum? then Some(m["length"].n) else None
    case _ => None
  }

  /** The `X-Data-Source` header: `mee6` when there are players, `fallback` otherwise. */
  function DataSource(players: Json): (source: string)
    ensures players.JArr? ==> (source == "mee6" <==> |players.items| > 0)
    ensures source == "mee6" || source == "fallback"
  {
    var n := Length(players);
    if n.Some? && n.value > 0 then "mee6" else "fallback"
  }

  lemma FallbackIsLabelledFallback(loadedAt: string)
    ensures DataSource(FallbackData(loadedAt).players) == "fallback"
  {
  }

  // ---------------------------------------------------------------------------
  // Client IP
  // ---------------------------------------------------------------------------

  /** The two request headers the route reads; `None` is an absent header. */
  datatype Headers = Headers(forwardedFor: Option<string>, realIp: Option<string>)

  /** `forwardedFor?.split(',')[0] || realIp || 'unknown'`. */
  function ClientIp(h: Headers): (ip: string)
    ensures ip != ""
  {
    var forwarded := if h.forwardedFor.Some? then FirstSegment(h.forwardedFor.value, ',') else "";
    if forwarded != "" then forwarded
    else if h.realIp.Some? && h.realIp.value != "" then h.realIp.value
    else "unknown"
  }

  /**
   * The client IP is the text of `x-forwarded-for` before its first comma when
   * that is not empty, else a non-empty `x-real-ip`, else `unknown`.
   */
  lemma ClientIpRule(h: Headers)
    ensures h.forwardedFor.Some? && |h.forwardedFor.value| > 0 && h.forwardedFor.value[0] != ',' ==>
      var f, ip := h.forwardedFor.value, ClientIp(h);
      && 0 < |ip| <= |f| && ip == f[..|ip|]
      && (forall i :: 0 <= i < |ip| ==> ip[i] != ',')
      && (|ip| == |f| || f[|ip|] == ',')
    ensures (h.forwardedFor.None? || h.forwardedFor.value == "" || h.forwardedFor.value[0] == ',') ==>
      ClientIp(h) == (if h.realIp.Some? && h.realIp.value != "" then h.realIp.value else "unknown")
  {
    if h.forwardedFor.Some? && |h.forwardedFor.value| > 0 && h.forwardedFor.value[0] != ',' {
      var f := h.forwardedFor.value;
      assert FirstSegment(f, ',') == [f[0]] + FirstSegment(f[1..], ',');
    }
  }

  // ---------------------------------------------------------------------------
  // Rate limiting: one record per IP
  // ---------------------------------------------------------------------------

  datatype RateRecord = RateRecord(count: int, resetTime: int)

  datatype RateDecision = RateDecision(allowed: bool, record: RateRecord)

  /**
   * What `checkRateLimit` does to one IP's record at time `now`: an absent or
   * expired record (`now > resetTime`) opens a new window; a full window refuses;
   * otherwise the count rises by one.
   */
  function RateStep(record: Option<RateRecord>, now: int): (d: RateDecision)
    ensures !d.allowed <==> record.Some? && now <= record.value.resetTime && record.value.count >= 30
    ensures !d.allowed ==> d.record == record.value
    ensures d.allowed && (record.None? || now > record.value.resetTime) ==> d.record == RateRecord(1, now + 60000)
    ensures d.allowed && record.Some? && now <= record.value.resetTime ==>
      d.record == RateRecord(record.value.count + 1, record.value.resetTime)
  {
    var live := if record.Some? && now > record.value.resetTime then None else record;
    match live
    case None => RateDecision(true, RateRecord(1, now + RateLimitWindow))
    case Some(r) =>
      if r.count >= RateLimitRequests then RateDecision(false, r)
      else RateDecision(true, r.(count := r.count + 1))
  }

  /** No record, or an expired one: allowed, and the window restarts with one request. */
  lemma RateStepOpensWindow(record: Option<RateRecord>, now: int)
    requires record.None? || now > record.value.resetTime
    ensures RateStep(record, now) == RateDecision(true, RateRecord(1, now + 60000))
  {
  }

  /** A live record with 30 requests: refused, and the record is left as it was. */
  lemma RateStepRefusesFullWindow(r: RateRecord, now: int)
    requires now <= r.resetTime && r.count >= 30
    ensures RateStep(Some(r), now) == RateDecision(false, r)
  {
  }

  /** A live record below 30: allowed, one more request, same window. */
  lemma RateStepCounts(r: RateRecord, now: int)
    requires now <= r.resetTime && r.count < 30
    ensures RateStep(Some(r), now) == RateDecision(true, RateRecord(r.count + 1, r.resetTime))
  {
  }

  predicate InBounds(r: RateRecord) { 1 <= r.count <= RateLimitRequests }

  /** A stored count stays between 1 and 30. */
  lemma RateStepKeepsBounds(record: Option<RateRecord>, now: int)
    requires record.Some? ==> InBounds(record.value)
    ensures InBounds(RateStep(record, now).record)
  {
  }

  /** How many of a sequence of calls from one IP, at the given times, are allowed. */
  function AllowedCalls(record: Option<RateRecord>, times: seq<int>): nat
    decreases |times|
  {
    if |times| == 0 then 0
    else
      var d := RateStep(record, times[0]);
      (if d.allowed then 1 else 0) + AllowedCalls(Some(d.record), times[1..])
  }

  /** Calls before a live record's reset time are allowed only while its count is below 30. */
  lemma {:induction false} WindowAllowsAtMostRemaining(r: RateRecord, times: seq<int>)
    requires forall i :: 0 <= i < |times| ==> times[i] <= r.resetTime
    ensures AllowedCalls(Some(r), times) <= if r.count >= 30 then 0 else 30 - r.count
    decreases |times|
  {
    if |times| > 0 {
      var d := RateStep(Some(r), times[0]);
      assert d.record.resetTime == r.resetTime;
      WindowAllowsAtMostRemaining(d.record, times[1..]);
    }
  }

  /** Within one window, opened by the first call, at most 30 calls from one IP are allowed. */
  lemma AtMostThirtyPerWindow(record: Option<RateRecord>, start: int, later: seq<int>)
    requires record.None? || start > record.value.resetTime
    requires forall i :: 0 <= i < |later| ==> later[i] <= start + RateLimitWindow
    ensures AllowedCalls(record, [start] + later) <= 30
  {
    var times := [start] + later;
    assert times[1..] == later;
    WindowAllowsAtMostRemaining(RateRecord(1, start + RateLimitWindow), later);
  }

  // ---------------------------------------------------------------------------
  // The cache
  // ---------------------------------------------------------------------------

  datatype CacheEntry = CacheEntry(data: LeaderboardPayload, timestamp: int)

  /** What `getFromCache` returns for an entry read at time `now`: its data unless more than five minutes old. */
  function CacheRead(entry: Option<CacheEntry>, now: int): (data: Option<LeaderboardPayload>)
    ensures data.Some? <==> entry.Some? && now - entry.value.timestamp <= 300000
    ensures data.Some? ==> data.value == entry.value.data
  {
    match entry
    case None => None
    case Some(e) => if now - e.timestamp > CacheDuration then None else Some(e.data)
  }

  function Lookup<K, V>(m: map<K, V>, k: K): Option<V>
  {
    if k in m then Some(m[k]) else None
  }

  /** After storing `data` under `key` at time `t`, reading `key` within five minutes gives `data`; other keys are untouched. */
  lemma CacheSetThenRead(store: map<string, CacheEntry>, key: string, data: LeaderboardPayload, t: int, t2: int, other: string)
    requires other != key
    ensures CacheRead(Lookup(store[key := CacheEntry(data, t)], key), t2)
      == if t2 - t <= 300000 then Some(data) else None
    ensures Lookup(store[key := CacheEntry(data, t)], other) == Lookup(store, other)
  {
  }

  const CacheKey: string := "mee6_" + GuildId

  /**
   * What `fetchMee6Data()` serves and leaves in the cache, from the cache as it
   * was: a fresh cached payload as it is; otherwise the stale entry is dropped
   * and the transformed response is served and stored at `fetchedAt`, or, with
   * no usable response, the fallback is served and nothing is stored.
   */
  predicate Fetched(before: map<string, CacheEntry>, after: map<string, CacheEntry>, data: LeaderboardPayload,
                    now: int, fetchedAt: int, nowIso: string, response: Option<Json>, fallback: LeaderboardPayload)
  {
    var cached := CacheRead(Lookup(before, CacheKey), now);
    var incoming := if response.Some? then TransformMee6(response.value, nowIso) else None;
    && (cached.Some? ==> data == cached.value && after == before)
    && (cached.None? && incoming.Some? ==>
          data == incoming.value && after == (before - {CacheKey})[CacheKey := CacheEntry(incoming.value, fetchedAt)])
    && (cached.None? && incoming.None? ==> data == fallback && after == before - {CacheKey})
  }

  /** The route's process-wide state: the two maps and the fallback payload. */
  class LeaderboardRoute {
    var rateLimitStore: map<string, RateRecord>
    var cacheStore: map<string, CacheEntry>
    const fallback: LeaderboardPayload

    /** Every stored request count is between 1 and 30. */
    ghost predicate Valid()
      reads this
    {
      forall ip :: ip in rateLimitStore ==> InBounds(rateLimitStore[ip])
    }

    constructor (loadedAt: string)
      ensures Valid()
      ensures rateLimitStore == map[] && cacheStore == map[]
      ensures fallback == FallbackData(loadedAt)
    {
      rateLimitStore := map[];
      cacheStore := map[];
      fallback := FallbackData(loadedAt);
    }

    /** `checkRateLimit(ip)` at time `now`. */
    method CheckRateLimit(ip: string, now: int) returns (allowed: bool)
      requires Valid()
      modifies this
      ensures Valid()
      ensures var d := RateStep(Lookup(old(rateLimitStore), ip), now);
        allowed == d.allowed && rateLimitStore == old(rateLimitStore)[ip := d.record]
      ensures cacheStore == old(cacheStore)
    {
      ghost var before := Lookup(rateLimitStore, ip);
      RateStepKeepsBounds(before, now);
      if ip in rateLimitStore && now > rateLimitStore[ip].resetTime {
        rateLimitStore := rateLimitStore - {ip};
      }
      if ip !in rateLimitStore {
        rateLimitStore := rateLimitStore[ip := RateRecord(1, now + RateLimitWindow)];
        return true;
      }
      var current := rateLimitStore[ip];
      if current.count >= RateLimitRequests {
        assert rateLimitStore == old(rateLimitStore)[ip := current];
        return false;
      }
      rateLimitStore := rateLimitStore[ip := current.(count := current.count + 1)];
      return true;
    }

    /** `getFromCache(key)` at time `now`; a stale entry is deleted. */
    method GetFromCache(key: string, now: int) returns (data: Option<LeaderboardPayload>)
      modifies this
      ensures data == CacheRead(Lookup(old(cacheStore), key), now)
      ensures cacheStore == if key in old(cacheStore) && data.None? then old(cacheStore) - {key} else old(cacheStore)
      ensures rateLimitStore == old(rateLimitStore)
    {
      if key !in cacheStore {
        return None;
      }
      var cached := cacheStore[key];
      if now - cached.timestamp > CacheDuration {
        cacheStore := cacheStore - {key};
        return None;
      }
      return Some(cached.data);
    }

    /** `setCache(key, data)` at time `now`. */
    method SetCache(key: string, data: LeaderboardPayload, now: int)
      modifies this
      ensures cacheStore == old(cacheStore)[key := CacheEntry(data, now)]
      ensures rateLimitStore == old(rateLimitStore)
    {
      cacheStore := cacheStore[key := CacheEntry(data, now)];
    }

    /**
     * `fetchMee6Data()`: a fresh cached payload if there is one (read at
     * `now`), otherwise the transformed `response` body, cached at `fetchedAt`.
     * `response` is `None` when the request failed, was not OK or did not parse.
     */
    method FetchMee6Data(now: int, fetchedAt: int, nowIso: string, response: Option<Json>)
      returns (data: LeaderboardPayload)
      requires Valid()
      modifies this
      ensures Valid()
      ensures rateLimitStore == old(rateLimitStore)
      ensures Fetched(old(cacheStore), cacheStore, data, now, fetchedAt, nowIso, response, fallback)
    {
      var cacheKey := CacheKey;
      var cached := GetFromCache(cacheKey, now);
      if cached.Some? {
        return cached.value;
      }
      if response.None? {
        return fallback;
      }
      var transformed := TransformMee6(response.value, nowIso);
      if transformed.None? {
        return fallback;
      }
      SetCache(cacheKey, transformed.value, fetchedAt);
      return transformed.value;
    }

    /** `GET`: rate-limit the client, then serve the payload and where it came from. */
    method Get(h: Headers, now: int, fetchedAt: int, nowIso: string, response: Option<Json>)
      returns (r: RouteResponse)
      requires Valid()
      modifies this
      ensures Valid()
      ensures var d := RateStep(Lookup(old(rateLimitStore), ClientIp(h)), now);
        && rateLimitStore == old(rateLimitStore)[ClientIp(h) := d.record]
        && (r.RateLimited? <==> !d.allowed)
        && (!d.allowed ==> cacheStore == old(cacheStore))
        && (d.allowed ==> r.Served? && Fetched(old(cacheStore), cacheStore, r.data, now, fetchedAt, nowIso, response, fallback))
      ensures r.Served? ==> r.dataSource == DataSource(r.data.players)
    {
      var clientIp := ClientIp(h);
      var allowed := CheckRateLimit(clientIp, now);
      if !allowed {
        return RateLimited;
      }
      var data := FetchMee6Data(now, fetchedAt, nowIso, response);
      return Served(data, DataSource(data.players));
    }
  }

  /** The route's answer: 429 when rate-limited, else 200 with the payload and its `X-Data-Source`. */
  datatype RouteResponse = RateLimited | Served(data: LeaderboardPayload, dataSource: string)
}
