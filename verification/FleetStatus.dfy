/**
From a reading's timestamp to the OFFLINE badge: timestamp resolution at ingest, the newest rows per robot,
and the fleet status list (backend/app/services/telemetry_service.py,
backend/app/repositories/telemetry_repo.py, backend/app/services/robot_service.py).
*/
module FleetStatus {
  import opened Prelude

  type RobotId = int
  type Seconds = real

  /** `offline_after_seconds` and `max_clock_skew_seconds`. */
  datatype Settings = Settings(offlineAfter: Seconds, maxSkew: Seconds)

  const OFFLINE := "OFFLINE"

  // ----- ingest

  /** How far a stored timestamp can be ahead of its reception. */
  function Lead(cfg: Settings): Seconds {
    if cfg.maxSkew >= 0.0 then cfg.maxSkew else 0.0
  }

  /** `resolve_timestamp`: device time, unless it is too far ahead of the server's. */
  function ResolveTimestamp(reported: Option<Seconds>, received: Seconds, cfg: Settings): (t: Seconds)
    ensures t <= received + Lead(cfg)
    ensures reported.Some? && reported.value <= received + cfg.maxSkew ==> t == reported.value
  {
    match reported
    case None => received
    case Some(at) => if at - received > cfg.maxSkew then received else at
  }

  /** A reading as it reached the API. */
  datatype Arrival = Arrival(robot: RobotId, reported: Option<Seconds>, received: Seconds, status: string)

  /** A telemetry row. */
  datatype Row = Row(id: nat, robot: RobotId, at: Seconds, status: string)

  /** Every stored row stems from some arrival; rows may be missing or repeated. */
  ghost predicate Stored(table: set<Row>, arrivals: seq<Arrival>, cfg: Settings) {
    forall row :: row in table ==> exists k :: 0 <= k < |arrivals| && Stems(row, arrivals[k], cfg)
  }

  predicate Stems(row: Row, a: Arrival, cfg: Settings) {
    row.robot == a.robot && row.at == ResolveTimestamp(a.reported, a.received, cfg) && row.status == a.status
  }

  // ----- the windowed query

  ghost function RowsFor(rows: seq<Row>, robot: RobotId): set<Row> {
    set row | row in rows && row.robot == robot
  }

  /**
  A correct answer to the query: rows inside the window, by robot and newest first, each once, at most
  `limit` per robot, and no row left out that is newer than one of its robot's rows in the answer.
  Rows of equal time may come in any order.
  */
  ghost predicate Answers(rows: seq<Row>, table: set<Row>, since: Seconds, limit: nat) {
    && (forall i :: 0 <= i < |rows| ==> rows[i] in table && rows[i].at > since)
    && Distinct(rows)
    && Ordered(rows)
    && (forall r :: |RowsFor(rows, r)| <= limit)
    && (forall row :: row in table && row.at > since && row !in rows ==>
          |RowsFor(rows, row.robot)| == limit && forall kept :: kept in RowsFor(rows, row.robot) ==> kept.at >= row.at)
  }

  type Groups = map<RobotId, seq<Row>>

  /** The robot's rows in answer order. */
  function Only(rows: seq<Row>, robot: RobotId): seq<Row> {
    if rows == [] then []
    else
      var rest := Only(rows[..|rows| - 1], robot);
      if rows[|rows| - 1].robot == robot then rest + [rows[|rows| - 1]] else rest
  }

  function Reversed(s: seq<Row>): seq<Row> {
    seq(|s|, i requires 0 <= i < |s| => s[|s| - 1 - i])
  }

  ghost predicate Grouped(groups: Groups, rows: seq<Row>) {
    && (forall r :: r in groups <==> Only(rows, r) != [])
    && (forall r :: r in groups ==> groups[r] == Reversed(Only(rows, r)))
  }

  lemma SomeElement(s: set<RobotId>)
    requires s != {}
    ensures exists x :: x in s
  {
    assert (forall x :: x !in s) ==> s == {};
  }

  /** The loops of `get_recent_per_robot`. */
  method GetRecentPerRobot(rows: seq<Row>) returns (groups: Groups)
    ensures Grouped(groups, rows)
  {
    var open: Groups := map[];
    for i := 0 to |rows|
      invariant forall r :: r in open <==> Only(rows[..i], r) != []
      invariant forall r :: r in open ==> open[r] == Only(rows[..i], r)
    {
      assert rows[..i + 1][..i] == rows[..i];
      var row := rows[i];
      var sofar := if row.robot in open then open[row.robot] else [];
      open := open[row.robot := sofar + [row]];
    }
    assert rows[..|rows|] == rows;
    groups := open;
    var todo := open.Keys;
    while todo != {}
      invariant todo <= open.Keys && groups.Keys == open.Keys
      invariant forall r :: r in open ==> groups[r] == if r in todo then open[r] else Reversed(open[r])
      decreases |todo|
    {
      SomeElement(todo);
      var r :| r in todo;
      groups := groups[r := Reversed(groups[r])];
      todo := todo - {r};
    }
  }

  lemma {:induction false} OnlyIn(rows: seq<Row>, robot: RobotId)
    ensures forall k :: 0 <= k < |Only(rows, robot)| ==>
        Only(rows, robot)[k] in rows && Only(rows, robot)[k].robot == robot
    ensures forall row :: row in rows && row.robot == robot ==> row in Only(rows, robot)
  {
    if rows != [] {
      var n := |rows| - 1;
      OnlyIn(rows[..n], robot);
      assert rows == rows[..n] + [rows[n]];
    }
  }

  ghost predicate NewestFirst(s: seq<Row>) {
    forall i, j :: 0 <= i < j < |s| ==> s[i].at >= s[j].at
  }

  ghost predicate Ordered(rows: seq<Row>) {
    forall i, j :: 0 <= i < j < |rows| ==>
      rows[i].robot < rows[j].robot || (rows[i].robot == rows[j].robot && rows[i].at >= rows[j].at)
  }

  /** Rows of a robot that come before its last row are no older. */
  lemma LastIsOldest(rows: seq<Row>, robot: RobotId, k: nat)
    requires rows != [] && Ordered(rows) && rows[|rows| - 1].robot == robot && k < |Only(rows[..|rows| - 1], robot)|
    ensures Only(rows[..|rows| - 1], robot)[k].at >= rows[|rows| - 1].at
  {
    hide Only;
    var n := |rows| - 1;
    OnlyIn(rows[..n], robot);
    var i :| 0 <= i < n && rows[..n][i] == Only(rows[..n], robot)[k];
    assert rows[i] == rows[..n][i];
  }

  lemma {:induction false} OnlyNewestFirst(rows: seq<Row>, robot: RobotId)
    requires Ordered(rows)
    ensures NewestFirst(Only(rows, robot))
  {
    if rows != [] {
      var n := |rows| - 1;
      assert Ordered(rows[..n]);
      OnlyNewestFirst(rows[..n], robot);
      if rows[n].robot == robot {
        forall k | 0 <= k < |Only(rows[..n], robot)| ensures Only(rows[..n], robot)[k].at >= rows[n].at {
          LastIsOldest(rows, robot, k);
        }
      }
    }
  }

  /** The robot's newest row in the window. */
  ghost predicate NewestOf(table: set<Row>, since: Seconds, robot: RobotId, row: Row) {
    && row in table && row.robot == robot && row.at > since
    && forall other :: other in table && other.robot == robot && other.at > since ==> other.at <= row.at
  }

  lemma HeadIsNewest(rows: seq<Row>, table: set<Row>, since: Seconds, limit: nat, robot: RobotId)
    requires Answers(rows, table, since, limit) && Only(rows, robot) != []
    ensures NewestOf(table, since, robot, Only(rows, robot)[0])
  {
    var mine := Only(rows, robot);
    OnlyIn(rows, robot);
    OnlyNewestFirst(rows, robot);
    var head := mine[0];
    forall other | other in table && other.robot == robot && other.at > since ensures other.at <= head.at {
      if other in rows {
        var k :| 0 <= k < |mine| && mine[k] == other;
      } else {
        assert head in RowsFor(rows, robot);
      }
    }
  }

  /** Groups are oldest first, so the last row of a group is the robot's newest; every robot heard of has one. */
  lemma GroupsEndNewest(groups: Groups, rows: seq<Row>, table: set<Row>, since: Seconds, limit: nat, robot: RobotId)
    requires Grouped(groups, rows) && Answers(rows, table, since, limit) && limit > 0
    ensures robot in groups <==> exists row :: row in table && row.robot == robot && row.at > since
    ensures robot in groups ==> groups[robot] != [] && NewestOf(table, since, robot, groups[robot][|groups[robot]| - 1])
  {
    hide Answers, NewestOf, Only;
    if robot in groups {
      HeadIsNewest(rows, table, since, limit, robot);
      NewestExists(table, since, robot, Only(rows, robot)[0]);
    } else {
      forall row | row in table && row.robot == robot ensures row.at <= since {
        if row.at > since { Unheard(rows, table, since, limit, row); }
      }
    }
  }

  lemma NewestExists(table: set<Row>, since: Seconds, robot: RobotId, row: Row)
    requires NewestOf(table, since, robot, row)
    ensures row in table && row.robot == robot && row.at > since
  { }

  lemma Unheard(rows: seq<Row>, table: set<Row>, since: Seconds, limit: nat, row: Row)
    requires Answers(rows, table, since, limit) && limit > 0 && row in table && row.at > since
    ensures Only(rows, row.robot) != []
  {
    OnlyIn(rows, row.robot);
    if row !in rows {
      var some :| some in RowsFor(rows, row.robot);
      assert some in Only(rows, row.robot);
    }
  }

  // ----- summaries

  /** str.upper on ASCII letters. */
  function Upper(s: string): string {
    seq(|s|, i requires 0 <= i < |s| => if 'a' <= s[i] <= 'z' then s[i] - 'a' + 'A' else s[i])
  }

  /** Letters lose their case, everything else stays. */
  lemma UpperProper(s: string, i: nat)
    requires i < |s|
    ensures |Upper(s)| == |s| && !('a' <= Upper(s)[i] <= 'z')
    ensures if 'a' <= s[i] <= 'z' then Upper(s)[i] - 'A' == s[i] - 'a' else Upper(s)[i] == s[i]
  { }

  function DeriveStatus(latest: Row, age: Seconds, cfg: Settings): string {
    if age > cfg.offlineAfter then OFFLINE else if latest.status != "" then Upper(latest.status) else "ACTIVE"
  }

  datatype Summary = Summary(robot: RobotId, status: string, lastSeen: Option<Seconds>)

  /** A row of the roster that is not decommissioned. */
  datatype Registered = Registered(id: RobotId, lastSeen: Option<Seconds>)

  function FromHistory(rows: seq<Row>, now: Seconds, cfg: Settings): Summary
    requires rows != []
  {
    var latest := rows[|rows| - 1];
    Summary(latest.robot, DeriveStatus(latest, now - latest.at, cfg), Some(latest.at))
  }

  function Silent(r: Registered): Summary { Summary(r.id, OFFLINE, r.lastSeen) }

  ghost predicate IsRegistered(registered: seq<Registered>, id: RobotId) {
    exists i :: 0 <= i < |registered| && registered[i].id == id
  }

  /** The right summary for a robot: its newest reading in the window, or the roster's silent entry. */
  ghost predicate RightSummary(s: Summary, registered: seq<Registered>, groups: Groups, clock: RobotId -> Seconds,
      cfg: Settings) {
    if s.robot in groups then groups[s.robot] != [] && s == FromHistory(groups[s.robot], clock(s.robot), cfg)
    else exists i :: 0 <= i < |registered| && registered[i].id == s.robot && s == Silent(registered[i])
  }

  ghost predicate GroupsOk(groups: Groups) {
    forall r :: r in groups ==> groups[r] != [] && groups[r][|groups[r]| - 1].robot == r
  }

  /** One entry per robot that is registered or was heard of in the window, by id. */
  ghost predicate IsFleetList(list: seq<Summary>, registered: seq<Registered>, groups: Groups,
      clock: RobotId -> Seconds, cfg: Settings) {
    && (forall i, j :: 0 <= i < j < |list| ==> list[i].robot < list[j].robot)
    && (forall i :: 0 <= i < |list| ==> RightSummary(list[i], registered, groups, clock, cfg))
    && (forall id :: IsRegistered(registered, id) || id in groups ==> Lists(list, id))
  }

  ghost predicate Lists(list: seq<Summary>, id: RobotId) {
    exists i :: 0 <= i < |list| && list[i].robot == id
  }

  // ----- the fleet list

  ghost predicate Ascending(ids: seq<RobotId>) {
    forall i, j :: 0 <= i < j < |ids| ==> ids[i] < ids[j]
  }

  /** sorted(): by insertion. */
  method SortIds(keys: set<RobotId>) returns (ids: seq<RobotId>)
    ensures Ascending(ids) && Elements(ids) == keys
  {
    ids := [];
    var todo := keys;
    while todo != {}
      invariant todo <= keys && Ascending(ids) && Elements(ids) == keys - todo
      decreases |todo|
    {
      SomeElement(todo);
      var id :| id in todo;
      assert id !in Elements(ids);
      var p := 0;
      while p < |ids| && ids[p] < id
        invariant 0 <= p <= |ids|
        invariant forall i :: 0 <= i < p ==> ids[i] < id
      { p := p + 1; }
      InsertAscending(ids, id, p);
      ids := ids[..p] + [id] + ids[p..];
      todo := todo - {id};
    }
  }

  lemma InsertAscending(ids: seq<RobotId>, id: RobotId, p: nat)
    requires Ascending(ids) && p <= |ids| && id !in Elements(ids)
    requires (forall i :: 0 <= i < p ==> ids[i] < id) && (p < |ids| ==> !(ids[p] < id))
    ensures Ascending(ids[..p] + [id] + ids[p..]) && Elements(ids[..p] + [id] + ids[p..]) == Elements(ids) + {id}
  {
    var after := ids[..p] + [id] + ids[p..];
    assert ids == ids[..p] + ids[p..];
    forall i | p <= i < |ids| ensures id < ids[i] {
      assert ids[i] in Elements(ids) && (p < i ==> ids[p] < ids[i]);
      assert ids[p] in Elements(ids);
    }
  }

  type Summaries = map<RobotId, Summary>

  ghost predicate FilledFrom(s: Summaries, registered: seq<Registered>, n: nat, groups: Groups,
      clock: RobotId -> Seconds, cfg: Settings)
    requires n <= |registered|
  {
    && (forall id :: id in s <==> IsRegistered(registered[..n], id))
    && (forall id :: id in s ==> s[id].robot == id && RightSummary(s[id], registered, groups, clock, cfg))
  }

  lemma RegisteredStep(registered: seq<Registered>, n: nat, id: RobotId)
    requires n < |registered|
    ensures IsRegistered(registered[..n + 1], id) <==> IsRegistered(registered[..n], id) || id == registered[n].id
  {
    if IsRegistered(registered[..n], id) {
      var i :| 0 <= i < n && registered[..n][i].id == id;
      assert registered[..n + 1][i].id == id;
    }
    if id == registered[n].id { assert registered[..n + 1][n].id == id; }
    if IsRegistered(registered[..n + 1], id) && id != registered[n].id {
      var i :| 0 <= i < n + 1 && registered[..n + 1][i].id == id;
      assert registered[..n][i].id == id;
    }
  }

  /** The first loop: every registered robot, from telemetry if there is any, else as silent. */
  method SummarizeRegistered(registered: seq<Registered>, groups: Groups, clock: RobotId -> Seconds, cfg: Settings)
      returns (s: Summaries)
    requires GroupsOk(groups)
    ensures FilledFrom(s, registered, |registered|, groups, clock, cfg)
  {
    s := map[];
    for i := 0 to |registered|
      invariant FilledFrom(s, registered, i, groups, clock, cfg)
    {
      var r := registered[i];
      forall id ensures IsRegistered(registered[..i + 1], id) <==> IsRegistered(registered[..i], id) || id == r.id {
        RegisteredStep(registered, i, id);
      }
      s := s[r.id := if r.id in groups then FromHistory(groups[r.id], clock(r.id), cfg) else Silent(r)];
    }
  }

  /** `get_fleet_status` before paging: both loops, then sorted by id. */
  method ComputeFleet(registered: seq<Registered>, groups: Groups, clock: RobotId -> Seconds, cfg: Settings)
      returns (list: seq<Summary>)
    requires GroupsOk(groups)
    ensures IsFleetList(list, registered, groups, clock, cfg)
  {
    var s := SummarizeRegistered(registered, groups, clock, cfg);
    assert registered[..|registered|] == registered;
    var todo := groups.Keys;
    while todo != {}
      invariant todo <= groups.Keys
      invariant forall id :: id in s <==> IsRegistered(registered, id) || (id in groups && id !in todo)
      invariant forall id :: id in s ==> s[id].robot == id && RightSummary(s[id], registered, groups, clock, cfg)
      decreases |todo|
    {
      SomeElement(todo);
      var id :| id in todo;
      if id !in s { s := s[id := FromHistory(groups[id], clock(id), cfg)]; }
      todo := todo - {id};
    }
    var ids := SortIds(s.Keys);
    forall k | 0 <= k < |ids| ensures ids[k] in s { assert ids[k] in Elements(ids); }
    list := seq(|ids|, k requires 0 <= k < |ids| && ids[k] in s => s[ids[k]]);
    forall id | IsRegistered(registered, id) || id in groups ensures Lists(list, id) {
      assert id in Elements(ids);
      var k :| 0 <= k < |ids| && ids[k] == id;
      assert list[k].robot == id;
    }
  }

  function Capped(n: nat, bound: nat): (r: nat)
    ensures r <= bound
  {
    if n < bound then n else bound
  }

  /** list[skip : skip + limit], cut off at the end as Python's slices are. */
  function Page(list: seq<Summary>, skip: nat, limit: nat): seq<Summary> {
    list[Capped(skip, |list|)..Capped(skip + limit, |list|)]
  }

  /** Consecutive pages tile the list: nothing is skipped or shown twice. */
  lemma PagesTile(list: seq<Summary>, skip: nat, limit: nat, more: nat)
    ensures Page(list, skip, limit) + Page(list, skip + limit, more) == Page(list, skip, limit + more)
    ensures Page(list, 0, |list|) == list && |Page(list, skip, limit)| <= limit
  {
    var a, b, c := Capped(skip, |list|), Capped(skip + limit, |list|), Capped(skip + limit + more, |list|);
    assert list[a..b] + list[b..c] == list[a..c];
    assert list[0..|list|] == list;
  }

  ghost predicate FleetOf(registered: seq<Registered>, rows: seq<Row>, clock: RobotId -> Seconds, cfg: Settings,
      groups: Groups, list: seq<Summary>) {
    Grouped(groups, rows) && IsFleetList(list, registered, groups, clock, cfg)
  }

  method GetFleetStatus(registered: seq<Registered>, rows: seq<Row>, clock: RobotId -> Seconds, cfg: Settings,
      limit: nat, skip: nat)
    returns (page: seq<Summary>)
    ensures exists groups, list ::
      FleetOf(registered, rows, clock, cfg, groups, list) && page == Page(list, skip, limit)
  {
    var groups := GetRecentPerRobot(rows);
    GroupedOk(groups, rows);
    var list := ComputeFleet(registered, groups, clock, cfg);
    page := Page(list, skip, limit);
    assert FleetOf(registered, rows, clock, cfg, groups, list);
  }

  lemma GroupedOk(groups: Groups, rows: seq<Row>)
    requires Grouped(groups, rows)
    ensures GroupsOk(groups)
  {
    forall r | r in groups ensures groups[r] != [] && groups[r][|groups[r]| - 1].robot == r { OnlyIn(rows, r); }
  }

  // ----- the theorems

  /** Every registered robot is listed, once, whatever telemetry exists. */
  lemma ListedOnce(list: seq<Summary>, registered: seq<Registered>, groups: Groups, clock: RobotId -> Seconds,
      cfg: Settings, id: RobotId)
    requires IsFleetList(list, registered, groups, clock, cfg) && IsRegistered(registered, id)
    ensures exists i :: 0 <= i < |list| && list[i].robot == id &&
              forall j :: 0 <= j < |list| && list[j].robot == id ==> j == i
  {
    assert Lists(list, id);
    var i :| 0 <= i < |list| && list[i].robot == id;
    forall j | 0 <= j < |list| && list[j].robot == id ensures j == i { }
  }

  /** A listed robot's badge, read off the table: OFFLINE unless its newest row in the window is recent. */
  lemma BadgeFollowsNewest(list: seq<Summary>, registered: seq<Registered>, groups: Groups, rows: seq<Row>,
      table: set<Row>, since: Seconds, limit: nat, clock: RobotId -> Seconds, cfg: Settings, i: nat, newest: Row)
    requires IsFleetList(list, registered, groups, clock, cfg) && Grouped(groups, rows)
    requires Answers(rows, table, since, limit) && limit > 0 && i < |list|
    requires NewestOf(table, since, list[i].robot, newest)
    ensures list[i].lastSeen == Some(newest.at)
    ensures clock(list[i].robot) - newest.at > cfg.offlineAfter ==> list[i].status == OFFLINE
    ensures clock(list[i].robot) - newest.at <= cfg.offlineAfter ==>
              exists row :: row in table && row.robot == list[i].robot && row.at == newest.at &&
                  list[i].status == if row.status == "" then "ACTIVE" else Upper(row.status)
  {
    hide Answers, Grouped, Only, Upper;
    GroupsEndNewest(groups, rows, table, since, limit, list[i].robot);
    assert newest in table && newest.robot == list[i].robot && newest.at > since;
    assert RightSummary(list[i], registered, groups, clock, cfg);
    var latest := groups[list[i].robot][|groups[list[i].robot]| - 1];
    assert latest in table && latest.robot == list[i].robot && latest.at == newest.at by {
      NewestExists(table, since, list[i].robot, latest);
    }
  }

  /** A registered robot without a row in the window is OFFLINE, with the roster's record of when it was last seen. */
  lemma SilentShowsRoster(list: seq<Summary>, registered: seq<Registered>, groups: Groups, rows: seq<Row>,
      table: set<Row>, since: Seconds, limit: nat, clock: RobotId -> Seconds, cfg: Settings, i: nat)
    requires IsFleetList(list, registered, groups, clock, cfg) && Grouped(groups, rows)
    requires Answers(rows, table, since, limit) && limit > 0 && i < |list|
    requires forall row :: row in table && row.robot == list[i].robot ==> row.at <= since
    ensures list[i].status == "OFFLINE"
    ensures exists k :: 0 <= k < |registered| && Registered(list[i].robot, list[i].lastSeen) == registered[k]
  {
    hide Answers, Grouped, Only;
    GroupsEndNewest(groups, rows, table, since, limit, list[i].robot);
    assert RightSummary(list[i], registered, groups, clock, cfg);
  }

  /**
  Once nothing has been received from a robot since `last`, every status computed more than the allowed skew
  plus the offline threshold later shows it OFFLINE, if it is listed at all.
  */
  lemma QuietGoesOffline(list: seq<Summary>, registered: seq<Registered>, groups: Groups, rows: seq<Row>,
      table: set<Row>, arrivals: seq<Arrival>, since: Seconds, limit: nat, clock: RobotId -> Seconds, cfg: Settings,
      i: nat, last: Seconds)
    requires IsFleetList(list, registered, groups, clock, cfg) && Grouped(groups, rows)
    requires Answers(rows, table, since, limit) && Stored(table, arrivals, cfg) && i < |list|
    requires forall k :: 0 <= k < |arrivals| && arrivals[k].robot == list[i].robot ==> arrivals[k].received <= last
    requires clock(list[i].robot) > last + Lead(cfg) + cfg.offlineAfter
    ensures list[i].status == OFFLINE
  {
    hide NewestOf, Only, Upper;
    var id := list[i].robot;
    assert RightSummary(list[i], registered, groups, clock, cfg);
    if id in groups {
      HeadIsNewest(rows, table, since, limit, id);
      var latest := groups[id][|groups[id]| - 1];
      NewestExists(table, since, id, latest);
      var k :| 0 <= k < |arrivals| && Stems(latest, arrivals[k], cfg);
      assert latest.at <= last + Lead(cfg);
    }
  }
}
