/**
 * The extraction step of scripts/sync-plan-data.js: four leaderboard queries
 * over the PLAN plugin's tables, the mapping of result rows into player
 * records, and the callback bookkeeping that delivers the result once all four
 * queries have answered.
 *
 * Each joined table is a map from uuid to its one row; a missing row and a NULL
 * column both read as `None`, as they do through a LEFT JOIN.
 */
module PlanSync {
  import opened Wrappers

  // ---------------------------------------------------------------------------
  // Tables
  // ---------------------------------------------------------------------------

  /** A row of `plan_players`. */
  datatype PlayerRow = PlayerRow(uuid: string, name: string, registered: Option<int>)

  /** A row of `plan_sessions_summary`. */
  datatype SessionsRow = SessionsRow(playtime: Option<int>, sessionCount: Option<int>, lastSeen: Option<int>)

  /** A row of `plan_kills`. */
  datatype KillsRow = KillsRow(mobKills: Option<int>, playerKills: Option<int>)

  /** A row of `plan_deaths`. */
  datatype DeathsRow = DeathsRow(deaths: Option<int>)

  /** A row of `plan_actions`. */
  datatype ActionsRow = ActionsRow(blocksPlaced: Option<int>, blocksBroken: Option<int>)

  datatype Database = Database(
    players: seq<PlayerRow>,
    sessions: map<string, SessionsRow>,
    kills: map<string, KillsRow>,
    deaths: map<string, DeathsRow>,
    actions: map<string, ActionsRow>)

  /** One row of `plan_players p LEFT JOIN` the four other tables `ON p.uuid`. */
  datatype JoinedRow = JoinedRow(
    uuid: string, name: string, registered: Option<int>,
    playtime: Option<int>, sessionCount: Option<int>, lastSeen: Option<int>,
    mobKills: Option<int>, playerKills: Option<int>,
    deaths: Option<int>,
    blocksPlaced: Option<int>, blocksBroken: Option<int>)

  function Join(db: Database, p: PlayerRow): JoinedRow
  {
    var s := if p.uuid in db.sessions then db.sessions[p.uuid] else SessionsRow(None, None, None);
    var k := if p.uuid in db.kills then db.kills[p.uuid] else KillsRow(None, None);
    var d := if p.uuid in db.deaths then db.deaths[p.uuid] else DeathsRow(None);
    var a := if p.uuid in db.actions then db.actions[p.uuid] else ActionsRow(None, None);
    JoinedRow(p.uuid, p.name, p.registered, s.playtime, s.sessionCount, s.lastSeen,
      k.mobKills, k.playerKills, d.deaths, a.blocksPlaced, a.blocksBroken)
  }

  /**
   * `r` is the LEFT JOIN row of player `p`: the player's own columns, each
   * table's columns from its row for `p.uuid`, and NULLs where there is none.
   */
  predicate LeftJoined(db: Database, p: PlayerRow, r: JoinedRow)
  {
    && r.uuid == p.uuid && r.name == p.name && r.registered == p.registered
    && (if p.uuid in db.sessions
        then r.playtime == db.sessions[p.uuid].playtime && r.sessionCount == db.sessions[p.uuid].sessionCount
             && r.lastSeen == db.sessions[p.uuid].lastSeen
        else r.playtime.None? && r.sessionCount.None? && r.lastSeen.None?)
    && (if p.uuid in db.kills
        then r.mobKills == db.kills[p.uuid].mobKills && r.playerKills == db.kills[p.uuid].playerKills
        else r.mobKills.None? && r.playerKills.None?)
    && (if p.uuid in db.deaths then r.deaths == db.deaths[p.uuid].deaths else r.deaths.None?)
    && (if p.uuid in db.actions
        then r.blocksPlaced == db.actions[p.uuid].blocksPlaced && r.blocksBroken == db.actions[p.uuid].blocksBroken
        else r.blocksPlaced.None? && r.blocksBroken.None?)
  }

  /** The columns fix the row: there is exactly one LEFT JOIN row per player. */
  lemma LeftJoinedUnique(db: Database, p: PlayerRow, r1: JoinedRow, r2: JoinedRow)
    requires LeftJoined(db, p, r1) && LeftJoined(db, p, r2)
    ensures r1 == r2
  {
  }

  /** The joined table: one LEFT JOIN row per player row, in the same order. */
  function JoinAll(db: Database): (rows: seq<JoinedRow>)
    ensures |rows| == |db.players|
    ensures forall k :: 0 <= k < |rows| ==> LeftJoined(db, db.players[k], rows[k])
    ensures forall k :: 0 <= k < |rows| ==> rows[k] == Join(db, db.players[k])
  {
    seq(|db.players|, k requires 0 <= k < |db.players| => Join(db, db.players[k]))
  }

  // ---------------------------------------------------------------------------
  // SQL values
  // ---------------------------------------------------------------------------

  /** `WHERE v > 0`: a NULL comparison is unknown and drops the row. */
  predicate PositiveSql(v: Option<int>) { v.Some? && v.value > 0 }

  /** `COALESCE(v, fallback)`. */
  function Coalesce(v: Option<int>, fallback: int): int { v.GetOr(fallback) }

  /** Integer division truncating toward zero. */
  function TruncDiv(a: int, b: int): (q: int)
    requires b != 0
    ensures a >= 0 && b > 0 ==> q == a / b
  {
    var m := (if a < 0 then -a else a) / (if b < 0 then -b else b);
    if (a < 0) != (b < 0) then -m else m
  }

  /** SQLite's `a / b` on integers: NULL when either side is NULL or `b` is 0. */
  function SqlDivide(a: Option<int>, b: Option<int>): Option<int>
  {
    if a.None? || b.None? || b.value == 0 then None else Some(TruncDiv(a.value, b.value))
  }

  /** SQLite's order of sort keys: NULL sorts below every number. */
  predicate KeyLe(a: Option<int>, b: Option<int>) { a.None? || (b.Some? && a.value <= b.value) }

  // ---------------------------------------------------------------------------
  // The four queries
  // ---------------------------------------------------------------------------

  datatype Board = MostActive | TopKillers | LongestSessions | TopBuilders

  /** The WHERE clause of each query. */
  predicate Where(b: Board, r: JoinedRow)
  {
    match b
    case MostActive => PositiveSql(r.playtime)
    case TopKillers => PositiveSql(r.mobKills)
    case LongestSessions => PositiveSql(r.sessionCount)
    case TopBuilders => PositiveSql(r.blocksPlaced)
  }

  /** The ORDER BY key of each query (descending). */
  function SortKey(b: Board, r: JoinedRow): Option<int>
  {
    match b
    case MostActive => r.playtime
    case TopKillers => r.mobKills
    case LongestSessions => SqlDivide(r.playtime, r.sessionCount)
    case TopBuilders => r.blocksPlaced
  }

  /** Ordered by the board's key, largest first (ties in any order). */
  predicate NonIncreasing(b: Board, rows: seq<JoinedRow>)
  {
    forall i, j :: 0 <= i < j < |rows| ==> KeyLe(SortKey(b, rows[j]), SortKey(b, rows[i]))
  }

  /** The rows the WHERE clause keeps, each as often as in the table. */
  function Filter(b: Board, rows: seq<JoinedRow>): (kept: seq<JoinedRow>)
    ensures forall i :: 0 <= i < |kept| ==> Where(b, kept[i])
    ensures forall x :: multiset(kept)[x] == if Where(b, x) then multiset(rows)[x] else 0
  {
    if |rows| == 0 then []
    else
      assert rows == [rows[0]] + rows[1..];
      (if Where(b, rows[0]) then [rows[0]] else []) + Filter(b, rows[1..])
  }

  function Insert(b: Board, x: JoinedRow, sorted: seq<JoinedRow>): (r: seq<JoinedRow>)
    ensures multiset(r) == multiset(sorted) + multiset{x}
  {
    if |sorted| == 0 then [x]
    else if KeyLe(SortKey(b, sorted[0]), SortKey(b, x)) then [x] + sorted
    else
      assert sorted == [sorted[0]] + sorted[1..];
      [sorted[0]] + Insert(b, x, sorted[1..])
  }

  /** A bound on every key survives insertion of a row within the bound. */
  lemma {:induction false} InsertBounded(b: Board, x: JoinedRow, sorted: seq<JoinedRow>, top: Option<int>)
    requires KeyLe(SortKey(b, x), top)
    requires forall m :: 0 <= m < |sorted| ==> KeyLe(SortKey(b, sorted[m]), top)
    ensures forall j :: 0 <= j < |Insert(b, x, sorted)| ==> KeyLe(SortKey(b, Insert(b, x, sorted)[j]), top)
    decreases |sorted|
  {
    if |sorted| > 0 && !KeyLe(SortKey(b, sorted[0]), SortKey(b, x)) {
      InsertBounded(b, x, sorted[1..], top);
    }
  }

  lemma {:induction false} InsertKeepsOrder(b: Board, x: JoinedRow, sorted: seq<JoinedRow>)
    requires NonIncreasing(b, sorted)
    ensures NonIncreasing(b, Insert(b, x, sorted))
    decreases |sorted|
  {
    if |sorted| > 0 && !KeyLe(SortKey(b, sorted[0]), SortKey(b, x)) {
      InsertKeepsOrder(b, x, sorted[1..]);
      InsertBounded(b, x, sorted[1..], SortKey(b, sorted[0]));
    }
  }

  /** ORDER BY key DESC: the same rows, largest key first. */
  function SortDesc(b: Board, rows: seq<JoinedRow>): (sorted: seq<JoinedRow>)
    ensures multiset(sorted) == multiset(rows)
    ensures NonIncreasing(b, sorted)
  {
    if |rows| == 0 then []
    else
      var rest := SortDesc(b, rows[1..]);
      assert rows == [rows[0]] + rows[1..];
      InsertKeepsOrder(b, rows[0], rest);
      Insert(b, rows[0], rest)
  }

  function Min(a: nat, b: nat): nat { if a <= b then a else b }

  /** `LIMIT limit`: the first `limit` rows, or all of them when there are fewer. */
  function Take(s: seq<JoinedRow>, limit: nat): (t: seq<JoinedRow>)
    ensures |t| == Min(limit, |s|)
    ensures t == s[..|t|]
  {
    s[..Min(limit, |s|)]
  }

  /**
   * `WHERE … ORDER BY key DESC LIMIT limit` over the joined table: `limit` rows,
   * or every row the WHERE clause keeps when there are fewer, largest key first.
   */
  function Query(b: Board, rows: seq<JoinedRow>, limit: nat): (q: seq<JoinedRow>)
    ensures |q| == Min(limit, |Filter(b, rows)|)
    ensures NonIncreasing(b, q)
  {
    TakeOfSorted(b, SortDesc(b, Filter(b, rows)), limit);
    Take(SortDesc(b, Filter(b, rows)), limit)
  }

  /**
   * The first `limit` entries of a list ordered largest first are ordered, and
   * no entry after them ranks above one of them.
   */
  lemma TakeOfSorted(b: Board, s: seq<JoinedRow>, limit: nat)
    requires NonIncreasing(b, s)
    ensures NonIncreasing(b, Take(s, limit))
    ensures multiset(Take(s, limit)) <= multiset(s)
    ensures forall x, i :: x in multiset(s) - multiset(Take(s, limit)) && 0 <= i < |Take(s, limit)| ==>
              KeyLe(SortKey(b, x), SortKey(b, Take(s, limit)[i]))
  {
    var t := Take(s, limit);
    var k := |t|;
    assert s == t + s[k..];
    assert multiset(s) == multiset(t) + multiset(s[k..]);
    forall x, i | x in multiset(s) - multiset(t) && 0 <= i < k
      ensures KeyLe(SortKey(b, x), SortKey(b, t[i]))
    {
      assert x in multiset(s[k..]);
      var j :| 0 <= j < |s| - k && s[k..][j] == x;
      assert s[k + j] == x;
    }
  }

  /**
   * A query result holds `limit` rows, or every row the WHERE clause keeps when
   * there are fewer; each is kept by the WHERE clause and comes from the table.
   */
  lemma QueryRows(b: Board, rows: seq<JoinedRow>, limit: nat)
    ensures |Query(b, rows, limit)| == Min(limit, |Filter(b, rows)|)
    ensures forall i :: 0 <= i < |Query(b, rows, limit)| ==> Where(b, Query(b, rows, limit)[i])
    ensures multiset(Query(b, rows, limit)) <= multiset(rows)
  {
    var kept := Filter(b, rows);
    var sorted := SortDesc(b, kept);
    TakeOfSorted(b, sorted, limit);
    var r := Query(b, rows, limit);
    forall x
      ensures multiset(r)[x] <= multiset(rows)[x]
      ensures multiset(r)[x] > 0 ==> Where(b, x)
    {
      assert multiset(r)[x] <= multiset(kept)[x];
    }
    forall i | 0 <= i < |r|
      ensures Where(b, r[i])
    {
      assert multiset(r)[r[i]] > 0;
    }
  }

  /**
   * A query result is ordered by the key, largest first, and no row the WHERE
   * clause keeps but the LIMIT cuts off ranks above a row in the result.
   */
  lemma QueryRanks(b: Board, rows: seq<JoinedRow>, limit: nat)
    ensures NonIncreasing(b, Query(b, rows, limit))
    ensures forall x, i ::
              x in multiset(Filter(b, rows)) - multiset(Query(b, rows, limit)) && 0 <= i < |Query(b, rows, limit)| ==>
              KeyLe(SortKey(b, x), SortKey(b, Query(b, rows, limit)[i]))
  {
    TakeOfSorted(b, SortDesc(b, Filter(b, rows)), limit);
  }

  // ---------------------------------------------------------------------------
  // Result rows and player records
  // ---------------------------------------------------------------------------

  datatype Kills = Kills(mob: int, player: int)

  /**
   * The `PlayerStats` record built from a result row. `playtime` and
   * `sessions` stay nullable: three of the queries do not require a sessions
   * row. The two time stamps are the instants (milliseconds since the epoch)
   * that `new Date(…)` builds before `toISOString()` renders them; a NULL
   * column gives `new Date(null)`, the epoch itself.
   */
  datatype PlayerStats = PlayerStats(
    uuid: string, name: string,
    playtime: Option<int>, sessions: Option<int>,
    kills: Kills, deaths: int,
    blocksPlaced: int, blocksBroken: int,
    lastSeen: int, joinDate: int)

  /** The SELECT list (with its COALESCEs) followed by the `rows.map` record construction. */
  function ToPlayerStats(r: JoinedRow): (s: PlayerStats)
    ensures s.uuid == r.uuid && s.name == r.name && s.playtime == r.playtime && s.sessions == r.sessionCount
    ensures r.mobKills.None? ==> s.kills.mob == 0
    ensures r.mobKills.Some? ==> s.kills.mob == r.mobKills.value
    ensures r.deaths.None? ==> s.deaths == 0
    ensures r.deaths.Some? ==> s.deaths == r.deaths.value
    ensures r.blocksPlaced.None? ==> s.blocksPlaced == 0
    ensures r.blocksPlaced.Some? ==> s.blocksPlaced == r.blocksPlaced.value
  {
    PlayerStats(r.uuid, r.name, r.playtime, r.sessionCount,
      Kills(Coalesce(r.mobKills, 0), Coalesce(r.playerKills, 0)),
      Coalesce(r.deaths, 0),
      Coalesce(r.blocksPlaced, 0), Coalesce(r.blocksBroken, 0),
      Coalesce(r.lastSeen, 0), Coalesce(r.registered, 0))
  }

  /** The record of a player carries the player's own identity, sessions and counts. */
  lemma RecordOfPlayer(db: Database, p: PlayerRow)
    ensures var s := ToPlayerStats(Join(db, p));
      && s.uuid == p.uuid && s.name == p.name && s.joinDate == Coalesce(p.registered, 0)
      && (p.uuid in db.sessions ==>
            s.playtime == db.sessions[p.uuid].playtime && s.sessions == db.sessions[p.uuid].sessionCount
            && s.lastSeen == Coalesce(db.sessions[p.uuid].lastSeen, 0))
      && (p.uuid in db.kills ==>
            s.kills == Kills(Coalesce(db.kills[p.uuid].mobKills, 0), Coalesce(db.kills[p.uuid].playerKills, 0)))
      && (p.uuid !in db.kills ==> s.kills == Kills(0, 0))
      && (p.uuid in db.deaths ==> s.deaths == Coalesce(db.deaths[p.uuid].deaths, 0))
      && (p.uuid in db.actions ==>
            s.blocksPlaced == Coalesce(db.actions[p.uuid].blocksPlaced, 0)
            && s.blocksBroken == Coalesce(db.actions[p.uuid].blocksBroken, 0))
      && (p.uuid !in db.deaths ==> s.deaths == 0)
      && (p.uuid !in db.actions ==> s.blocksPlaced == 0 && s.blocksBroken == 0)
      && (p.uuid !in db.sessions ==> s.playtime.None? && s.sessions.None? && s.lastSeen == 0)
  {
  }

  /** The qualifying condition, read off a finished record. */
  predicate StatQualifies(b: Board, s: PlayerStats)
  {
    match b
    case MostActive => PositiveSql(s.playtime)
    case TopKillers => s.kills.mob > 0
    case LongestSessions => PositiveSql(s.sessions)
    case TopBuilders => s.blocksPlaced > 0
  }

  /** The ranking key, read off a finished record. */
  function StatKey(b: Board, s: PlayerStats): Option<int>
  {
    match b
    case MostActive => s.playtime
    case TopKillers => Some(s.kills.mob)
    case LongestSessions => SqlDivide(s.playtime, s.sessions)
    case TopBuilders => Some(s.blocksPlaced)
  }

  /** On the rows a query keeps, the record has the row's ranking key. */
  lemma RecordKeepsKey(b: Board, r: JoinedRow)
    requires Where(b, r)
    ensures StatQualifies(b, ToPlayerStats(r))
    ensures StatKey(b, ToPlayerStats(r)) == SortKey(b, r)
  {
  }

  /** `rows.map(row => ({ … }))`. */
  function Records(rows: seq<JoinedRow>): (records: seq<PlayerStats>)
    ensures |records| == |rows|
    ensures forall i :: 0 <= i < |rows| ==> records[i] == ToPlayerStats(rows[i])
  {
    if |rows| == 0 then [] else [ToPlayerStats(rows[0])] + Records(rows[1..])
  }

  /** One leaderboard: the query's rows mapped to records, as many as the query returns. */
  function Leaderboard(db: Database, b: Board, limit: nat): (board: seq<PlayerStats>)
    ensures |board| == Min(limit, |Filter(b, JoinAll(db))|)
  {
    Records(Query(b, JoinAll(db), limit))
  }

  /** A leaderboard has `limit` entries, or one per qualifying player when there are fewer. */
  lemma LeaderboardSize(db: Database, b: Board, limit: nat)
    ensures |Leaderboard(db, b, limit)| <= limit
    ensures |Leaderboard(db, b, limit)| < limit ==>
              |Leaderboard(db, b, limit)| == |Filter(b, JoinAll(db))|
  {
    QueryRows(b, JoinAll(db), limit);
  }

  /** Every entry of a leaderboard qualifies, and the entries are ordered by their key, largest first. */
  lemma LeaderboardRanked(db: Database, b: Board, limit: nat)
    ensures var board := Leaderboard(db, b, limit);
      && (forall i :: 0 <= i < |board| ==> StatQualifies(b, board[i]))
      && (forall i, j :: 0 <= i < j < |board| ==> KeyLe(StatKey(b, board[j]), StatKey(b, board[i])))
  {
    var q := Query(b, JoinAll(db), limit);
    var board := Leaderboard(db, b, limit);
    QueryRows(b, JoinAll(db), limit);
    QueryRanks(b, JoinAll(db), limit);
    forall i | 0 <= i < |board|
      ensures StatQualifies(b, board[i]) && StatKey(b, board[i]) == SortKey(b, q[i])
    {
      RecordKeepsKey(b, q[i]);
    }
  }

  /** Every row of a query result is a row of the table. */
  lemma QueryFromTable(b: Board, rows: seq<JoinedRow>, limit: nat, i: nat)
    requires i < |Query(b, rows, limit)|
    ensures exists k :: 0 <= k < |rows| && rows[k] == Query(b, rows, limit)[i]
  {
    var q := Query(b, rows, limit);
    QueryRows(b, rows, limit);
    assert q[i] in multiset(q);
    assert q[i] in multiset(rows);
    assert q[i] in rows;
  }

  /** The entry at `i` of a leaderboard is the record of a player in `plan_players`. */
  lemma EntryFromPlayer(db: Database, b: Board, limit: nat, i: nat)
    requires i < |Leaderboard(db, b, limit)|
    ensures exists k :: 0 <= k < |db.players| && Leaderboard(db, b, limit)[i] == ToPlayerStats(Join(db, db.players[k]))
  {
    var rows := JoinAll(db);
    var q := Query(b, rows, limit);
    QueryFromTable(b, rows, limit, i);
    var k :| 0 <= k < |rows| && rows[k] == q[i];
    RecordAt(q, i, Join(db, db.players[k]));
  }

  lemma RecordAt(rows: seq<JoinedRow>, i: nat, r: JoinedRow)
    requires i < |rows| && rows[i] == r
    ensures i < |Records(rows)| && Records(rows)[i] == ToPlayerStats(r)
  {
  }

  /** Every entry of a leaderboard is the record of a player in `plan_players`. */
  lemma LeaderboardFromPlayers(db: Database, b: Board, limit: nat)
    ensures var board := Leaderboard(db, b, limit);
      forall i :: 0 <= i < |board| ==>
        exists k :: 0 <= k < |db.players| && board[i] == ToPlayerStats(Join(db, db.players[k]))
  {
    forall i | 0 <= i < |Leaderboard(db, b, limit)|
      ensures exists k :: 0 <= k < |db.players| && Leaderboard(db, b, limit)[i] == ToPlayerStats(Join(db, db.players[k]))
    {
      EntryFromPlayer(db, b, limit, i);
    }
  }

  // ---------------------------------------------------------------------------
  // extractPlayerStats: four callbacks and a completion counter
  // ---------------------------------------------------------------------------

  /** `CONFIG.limits`. */
  datatype Limits = Limits(mostActive: nat, topKillers: nat, longestSessions: nat, topBuilders: nat)

  const ConfiguredLimits: Limits := Limits(10, 10, 10, 10)

  function LimitOf(limits: Limits, b: Board): nat
  {
    match b
    case MostActive => limits.mostActive
    case TopKillers => limits.topKillers
    case LongestSessions => limits.longestSessions
    case TopBuilders => limits.topBuilders
  }

  /** The object the script resolves with. */
  datatype LeaderboardData = LeaderboardData(
    mostActive: seq<PlayerStats>, topKillers: seq<PlayerStats>,
    longestSessions: seq<PlayerStats>, topBuilders: seq<PlayerStats>,
    lastUpdated: string)

  function BoardOf(d: LeaderboardData, b: Board): seq<PlayerStats>
  {
    match b
    case MostActive => d.mostActive
    case TopKillers => d.topKillers
    case LongestSessions => d.longestSessions
    case TopBuilders => d.topBuilders
  }

  /** What a run delivers for one board: its query's records, or `[]` when the query failed. */
  function BoardResult(db: Database, limits: Limits, failed: set<Board>, b: Board): seq<PlayerStats>
  {
    if b in failed then [] else Leaderboard(db, b, LimitOf(limits, b))
  }

  const QueryCount: nat := 4

  /** The state shared by the four query callbacks: `leaderboardData`, `completed` and the promise. */
  class Extraction {
    var mostActive: seq<PlayerStats>
    var topKillers: seq<PlayerStats>
    var longestSessions: seq<PlayerStats>
    var topBuilders: seq<PlayerStats>
    const lastUpdated: string
    var completed: nat
    var resolved: Option<LeaderboardData>

    function Snapshot(): LeaderboardData
      reads this
    {
      LeaderboardData(mostActive, topKillers, longestSessions, topBuilders, lastUpdated)
    }

    constructor (lastUpdated: string)
      ensures Snapshot() == LeaderboardData([], [], [], [], lastUpdated)
      ensures completed == 0 && resolved == None
    {
      mostActive, topKillers, longestSessions, topBuilders := [], [], [], [];
      this.lastUpdated := lastUpdated;
      completed := 0;
      resolved := None;
    }

    /**
     * One query's callback: on success its list is replaced by the rows (an
     * error leaves the list alone), then `checkComplete()` counts the callback
     * and resolves with the data when it is the fourth.
     */
    method OnQueryDone(b: Board, rows: Option<seq<PlayerStats>>)
      modifies this
      ensures forall c :: BoardOf(Snapshot(), c) ==
                          if c == b && rows.Some? then rows.value else BoardOf(old(Snapshot()), c)
      ensures Snapshot().lastUpdated == old(Snapshot()).lastUpdated
      ensures completed == old(completed) + 1
      ensures resolved == if completed == QueryCount then Some(Snapshot()) else old(resolved)
    {
      if rows.Some? {
        match b
        case MostActive => mostActive := rows.value;
        case TopKillers => topKillers := rows.value;
        case LongestSessions => longestSessions := rows.value;
        case TopBuilders => topBuilders := rows.value;
      }
      completed := completed + 1;
      if completed == QueryCount {
        resolved := Some(Snapshot());
      }
    }
  }

  predicate Distinct(order: seq<Board>)
  {
    forall i, j :: 0 <= i < j < |order| ==> order[i] != order[j]
  }

  function ElementsOf(order: seq<Board>): set<Board>
  {
    set i | 0 <= i < |order| :: order[i]
  }

  lemma {:induction false} DistinctElements(order: seq<Board>)
    requires Distinct(order)
    ensures |ElementsOf(order)| == |order|
  {
    if |order| > 0 {
      DistinctElements(order[1..]);
      assert ElementsOf(order) == {order[0]} + ElementsOf(order[1..]);
      assert order[0] !in ElementsOf(order[1..]);
    }
  }

  /** Callbacks that each fire at most once: at most four, and four means every query answered. */
  lemma DistinctCallbacks(order: seq<Board>)
    requires Distinct(order)
    ensures |order| <= QueryCount
    ensures |order| == QueryCount ==> forall b :: b in order
  {
    var all := {MostActive, TopKillers, LongestSessions, TopBuilders};
    forall b: Board
      ensures b in all
    {
      match b
      case MostActive =>
      case TopKillers =>
      case LongestSessions =>
      case TopBuilders =>
    }
    assert |all| == 4;
    DistinctElements(order);
    var elements := ElementsOf(order);
    assert elements <= all;
    assert |all - elements| == |all| - |elements|;
    if |order| == QueryCount {
      assert all - elements == {};
      forall b
        ensures b in order
      {
        assert b in all && b !in all - elements;
        var i :| 0 <= i < |order| && order[i] == b;
      }
    }
  }

  /** How `extractPlayerStats()` settles. */
  datatype Extracted = Pending | Resolved(data: LeaderboardData) | Rejected(message: string)

  /** The four query results, before any callback has stored them. */
  function Answers(db: Database, limits: Limits, lastUpdated: string): LeaderboardData
  {
    LeaderboardData(
      Leaderboard(db, MostActive, limits.mostActive), Leaderboard(db, TopKillers, limits.topKillers),
      Leaderboard(db, LongestSessions, limits.longestSessions), Leaderboard(db, TopBuilders, limits.topBuilders),
      lastUpdated)
  }

  lemma AnswerOf(db: Database, limits: Limits, lastUpdated: string, b: Board)
    ensures BoardOf(Answers(db, limits, lastUpdated), b) == Leaderboard(db, b, LimitOf(limits, b))
  {
    match b
    case MostActive =>
    case TopKillers =>
    case LongestSessions =>
    case TopBuilders =>
  }

  /**
   * The callback bookkeeping of `extractPlayerStats()`: the callbacks fire in
   * `callbackOrder` (each at most once), those in `failed` with an error and the
   * others with their board of `answers`. An error opening the database
   * rejects; otherwise the promise resolves exactly when all four callbacks
   * have run, and then holds each answer, or `[]` for a failed query.
   */
  method Collect(lastUpdated: string, openError: Option<string>, callbackOrder: seq<Board>, failed: set<Board>,
                 answers: LeaderboardData)
    returns (outcome: Extracted)
    requires Distinct(callbackOrder)
    ensures openError.Some? ==> outcome == Rejected("Failed to open database: " + openError.value)
    ensures openError.None? ==> (outcome.Resolved? <==> |callbackOrder| == QueryCount)
    ensures openError.None? ==> (outcome.Pending? <==> |callbackOrder| < QueryCount)
    ensures outcome.Resolved? ==> outcome.data.lastUpdated == lastUpdated
    ensures outcome.Resolved? ==>
              forall b :: BoardOf(outcome.data, b) == if b in failed then [] else BoardOf(answers, b)
  {
    DistinctCallbacks(callbackOrder);
    var e := new Extraction(lastUpdated);
    ghost var answered: set<Board> := {};
    var i := 0;
    while i < |callbackOrder|
      invariant 0 <= i <= |callbackOrder|
      invariant e.completed == i
      invariant e.lastUpdated == lastUpdated
      invariant forall k :: 0 <= k < i ==> callbackOrder[k] in answered
      invariant forall b :: BoardOf(e.Snapshot(), b) ==
                            if b in answered && b !in failed then BoardOf(answers, b) else []
      invariant i < QueryCount ==> e.resolved.None?
      invariant i == QueryCount ==> e.resolved == Some(e.Snapshot())
    {
      var b := callbackOrder[i];
      var rows := if b in failed then None else Some(BoardOf(answers, b));
      e.OnQueryDone(b, rows);
      answered := answered + {b};
      i := i + 1;
    }
    if openError.Some? {
      return Rejected("Failed to open database: " + openError.value);
    }
    if e.resolved.None? {
      return Pending;
    }
    assert i == QueryCount;
    forall b: Board
      ensures b in answered
    {
      assert b in callbackOrder;
      var k :| 0 <= k < |callbackOrder| && callbackOrder[k] == b;
    }
    return Resolved(e.resolved.value);
  }

  /**
   * `extractPlayerStats()` over `db`: the promise settles as `Collect` says,
   * and a delivered list holds its query's records, or `[]` for a failed query.
   */
  method ExtractPlayerStats(db: Database, limits: Limits, lastUpdated: string, openError: Option<string>,
                            callbackOrder: seq<Board>, failed: set<Board>)
    returns (outcome: Extracted)
    requires Distinct(callbackOrder)
    ensures openError.Some? ==> outcome == Rejected("Failed to open database: " + openError.value)
    ensures openError.None? ==> (outcome.Resolved? <==> |callbackOrder| == QueryCount)
    ensures openError.None? ==> (outcome.Pending? <==> |callbackOrder| < QueryCount)
    ensures outcome.Resolved? ==> outcome.data.lastUpdated == lastUpdated
    ensures outcome.Resolved? ==> forall b :: BoardOf(outcome.data, b) == BoardResult(db, limits, failed, b)
  {
    var answers := Answers(db, limits, lastUpdated);
    outcome := Collect(lastUpdated, openError, callbackOrder, failed, answers);
    forall b
      ensures BoardOf(answers, b) == Leaderboard(db, b, LimitOf(limits, b))
    {
      AnswerOf(db, limits, lastUpdated, b);
    }
  }
}
