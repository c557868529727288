/**
Persisting one batch: decoding stream messages into telemetry rows, and keeping the robot roster's
`last_seen` in step (backend/app/worker.py, backend/app/repositories/robot_repo.py).
*/
module Roster {
  import opened Prelude

  type Time = int
  type RobotId = int

  /** A telemetry row; `data` stands for the measured columns. */
  datatype Reading = Reading(robot: RobotId, at: Time, data: string)

  /**
  The content of a stream entry: no payload field, undecodable JSON, JSON that is no object (the membership
  test or the column lookups raise), an object without a battery field, or a reading whose robot id or
  timestamp may be missing or unusable.
  */
  datatype Body =
    | NoPayload
    | Garbled
    | NotAnObject
    | OtherEvent
    | Telemetry(robot: Option<RobotId>, at: Option<Time>, data: string)

  /** `_payload_to_insert_dict`: robot 0 and the current time are the fallbacks. */
  function ToReading(b: Body, now: Time): Reading
    requires b.Telemetry?
  {
    Reading(if b.robot.Some? then b.robot.value else 0, if b.at.Some? then b.at.value else now, b.data)
  }

  /** The fold of `_register_robots` (and of `ingest_batch`): the newest timestamp per robot. */
  function Latest(rows: seq<Reading>): map<RobotId, Time> {
    if rows == [] then map[]
    else
      var m := Latest(rows[..|rows| - 1]);
      var x := rows[|rows| - 1];
      if x.robot !in m || x.at > m[x.robot] then m[x.robot := x.at] else m
  }

  /** last_seen is nullable: a robot may have been registered before it was ever seen. */
  type RosterTable = map<RobotId, Option<Time>>

  /** GREATEST(excluded, COALESCE(current, excluded)). */
  function Upserted(current: Option<Time>, excluded: Time): Option<Time> {
    var coalesced := if current.Some? then current.value else excluded;
    Some(if excluded >= coalesced then excluded else coalesced)
  }

  function MarkSeen(roster: RosterTable, latest: map<RobotId, Time>): RosterTable {
    map r | r in roster.Keys + latest.Keys ::
      if r in latest then Upserted(if r in roster then roster[r] else None, latest[r]) else roster[r]
  }

  // ----- what the roster means

  ghost predicate Reported(rows: seq<Reading>, r: RobotId) {
    exists i :: 0 <= i < |rows| && rows[i].robot == r
  }

  /** `t` is the greatest timestamp among the robot's rows. */
  ghost predicate Newest(rows: seq<Reading>, r: RobotId, t: Time) {
    && (exists i :: 0 <= i < |rows| && rows[i].robot == r && rows[i].at == t)
    && (forall i :: 0 <= i < |rows| && rows[i].robot == r ==> rows[i].at <= t)
  }

  ghost predicate IsLatest(latest: map<RobotId, Time>, rows: seq<Reading>) {
    && (forall r :: r in latest <==> Reported(rows, r))
    && (forall r :: r in latest ==> Newest(rows, r, latest[r]))
  }

  /** Every robot heard of, each with the maximum over all its rows. */
  ghost predicate IsRosterOf(roster: RosterTable, rows: seq<Reading>) {
    && (forall r :: r in roster <==> Reported(rows, r))
    && (forall r :: r in roster ==> roster[r].Some? && Newest(rows, r, roster[r].value))
  }

  lemma ReportedConcat(a: seq<Reading>, b: seq<Reading>, r: RobotId)
    ensures Reported(a + b, r) <==> Reported(a, r) || Reported(b, r)
  {
    if Reported(a, r) { var i :| 0 <= i < |a| && a[i].robot == r; assert (a + b)[i].robot == r; }
    if Reported(b, r) { var i :| 0 <= i < |b| && b[i].robot == r; assert (a + b)[|a| + i].robot == r; }
  }

  lemma NewestConcat(a: seq<Reading>, b: seq<Reading>, r: RobotId, s: Option<Time>, t: Option<Time>)
    requires s.Some? || t.Some?
    requires if s.Some? then Newest(a, r, s.value) else !Reported(a, r)
    requires if t.Some? then Newest(b, r, t.value) else !Reported(b, r)
    ensures Newest(a + b, r, if t.None? then s.value else Upserted(s, t.value).value)
  {
    var rows := a + b;
    if s.Some? { var i :| 0 <= i < |a| && a[i].robot == r && a[i].at == s.value; assert rows[i] == a[i]; }
    if t.Some? { var i :| 0 <= i < |b| && b[i].robot == r && b[i].at == t.value; assert rows[|a| + i] == b[i]; }
  }

  lemma {:induction false} LatestIsLatest(rows: seq<Reading>)
    ensures IsLatest(Latest(rows), rows)
  {
    if rows != [] {
      var n := |rows| - 1;
      var x := rows[n];
      LatestIsLatest(rows[..n]);
      assert rows == rows[..n] + [x];
      forall r ensures Reported(rows, r) <==> Reported(rows[..n], r) || r == x.robot {
        ReportedConcat(rows[..n], [x], r);
      }
      forall r | r in Latest(rows) ensures Newest(rows, r, Latest(rows)[r]) {
        var before := Latest(rows[..n]);
        assert [x][0] == x;
        NewestConcat(rows[..n], [x], r, if r in before then Some(before[r]) else None,
            if r == x.robot then Some(x.at) else None);
      }
    }
  }

  /** Marking a batch's robots as seen extends an exact roster exactly. */
  lemma SeenExtends(roster: RosterTable, rows: seq<Reading>, batch: seq<Reading>)
    requires IsRosterOf(roster, rows)
    ensures IsRosterOf(MarkSeen(roster, Latest(batch)), rows + batch)
  {
    hide Newest, Reported, Latest;
    var latest := Latest(batch);
    LatestIsLatest(batch);
    var after := MarkSeen(roster, latest);
    forall r ensures r in after <==> Reported(rows + batch, r) { ReportedConcat(rows, batch, r); }
    forall r | r in after ensures after[r].Some? && Newest(rows + batch, r, after[r].value) {
      NewestConcat(rows, batch, r, if r in roster then roster[r] else None,
          if r in latest then Some(latest[r]) else None);
    }
  }

  /** The roster depends on which readings were persisted, not on their order, grouping or repetition. */
  lemma RosterUnique(a: RosterTable, rows: seq<Reading>, b: RosterTable, rows': seq<Reading>)
    requires IsRosterOf(a, rows) && IsRosterOf(b, rows') && Elements(rows) == Elements(rows')
    ensures a == b
  {
    SameReports(rows, rows');
    SameReports(rows', rows);
    forall r ensures r in a <==> r in b { assert r in a <==> Reported(rows, r); }
    assert a.Keys == b.Keys;
    forall r | r in a && r in b ensures a[r] == b[r] {
      NewestBound(rows, rows', r, a[r].value, b[r].value);
      NewestBound(rows', rows, r, b[r].value, a[r].value);
    }
  }

  lemma SameReports(rows: seq<Reading>, rows': seq<Reading>)
    requires Elements(rows) <= Elements(rows')
    ensures forall r :: Reported(rows, r) ==> Reported(rows', r)
  {
    forall r | Reported(rows, r) ensures Reported(rows', r) {
      var i :| 0 <= i < |rows| && rows[i].robot == r;
      assert rows[i] in Elements(rows');
      var j :| 0 <= j < |rows'| && rows'[j] == rows[i];
    }
  }

  lemma NewestBound(rows: seq<Reading>, rows': seq<Reading>, r: RobotId, t: Time, t': Time)
    requires Elements(rows) <= Elements(rows') && Newest(rows, r, t) && Newest(rows', r, t')
    ensures t <= t'
  {
    var i :| 0 <= i < |rows| && rows[i].robot == r && rows[i].at == t;
    assert rows[i] in Elements(rows');
    var j :| 0 <= j < |rows'| && rows'[j] == rows[i];
  }

  /** From any roster, even with nulls: last_seen never moves back and no robot is forgotten. */
  lemma SeenNeverRewinds(roster: RosterTable, latest: map<RobotId, Time>, r: RobotId)
    requires r in roster
    ensures var after := MarkSeen(roster, latest);
            && r in after
            && (roster[r].Some? ==> after[r].Some? && roster[r].value <= after[r].value)
  { }

  // ----- batches replayed in any way

  /** The roster after persisting batch upon batch, starting with an empty one. */
  ghost function Replayed(batches: seq<seq<Reading>>): RosterTable {
    if batches == [] then map[]
    else MarkSeen(Replayed(batches[..|batches| - 1]), Latest(batches[|batches| - 1]))
  }

  ghost function Flattened(batches: seq<seq<Reading>>): seq<Reading> {
    if batches == [] then [] else Flattened(batches[..|batches| - 1]) + batches[|batches| - 1]
  }

  /** last_seen is, for each robot, the maximum timestamp over all readings persisted for it. */
  lemma {:induction false} ReplayedExact(batches: seq<seq<Reading>>)
    ensures IsRosterOf(Replayed(batches), Flattened(batches))
  {
    if batches != [] {
      var n := |batches| - 1;
      ReplayedExact(batches[..n]);
      SeenExtends(Replayed(batches[..n]), Flattened(batches[..n]), batches[n]);
    }
  }

  /** Same set of readings, however ordered, batched or replayed: same roster. */
  lemma ReplayOrderIrrelevant(a: seq<seq<Reading>>, b: seq<seq<Reading>>)
    requires Elements(Flattened(a)) == Elements(Flattened(b))
    ensures Replayed(a) == Replayed(b)
  {
    hide IsRosterOf;
    ReplayedExact(a);
    ReplayedExact(b);
    RosterUnique(Replayed(a), Flattened(a), Replayed(b), Flattened(b));
  }

  // ----- the worker's code

  /** A delivered message; no body if the entry was trimmed from the stream. */
  datatype Msg = Msg(entry: nat, body: Option<Body>)

  predicate Carries(m: Msg) {
    m.body.Some? && m.body.value.Telemetry?
  }

  predicate Poison(m: Msg) {
    m.body.Some? && m.body.value.NotAnObject?
  }

  /** The rows `process_batch` builds, in message order; the clock is read once per message. */
  function Readings(batch: seq<Msg>, clock: nat -> Time): seq<Reading> {
    if batch == [] then []
    else
      var rest := Readings(batch[..|batch| - 1], clock);
      var m := batch[|batch| - 1];
      if Carries(m) then rest + [ToReading(m.body.value, clock(|batch| - 1))] else rest
  }

  /** The row says what the message said: every measured column, the robot or 0, the message's time if it has one. */
  ghost predicate Copied(b: Body, x: Reading) {
    && b.Telemetry? && x.data == b.data
    && x.robot == (if b.robot.Some? then b.robot.value else 0)
    && (b.at.Some? ==> x.at == b.at.value)
  }

  /** The messages that carry a reading, by position. */
  function Carriers(batch: seq<Msg>): seq<nat> {
    if batch == [] then []
    else
      var n := |batch| - 1;
      if Carries(batch[n]) then Carriers(batch[..n]) + [n] else Carriers(batch[..n])
  }

  lemma {:induction false} CarriersExact(batch: seq<Msg>)
    ensures forall i, j :: 0 <= i < j < |Carriers(batch)| ==> Carriers(batch)[i] < Carriers(batch)[j]
    ensures forall k: nat :: k in Carriers(batch) <==>
        k < |batch| && batch[k].body.Some? && batch[k].body.value.Telemetry?
  {
    if batch != [] {
      var n := |batch| - 1;
      CarriersExact(batch[..n]);
      var rest := Carriers(batch[..n]);
      forall i | 0 <= i < |rest| ensures rest[i] < n { assert rest[i] in rest; }
      forall k: nat | k < n ensures batch[..n][k] == batch[k] { }
    }
  }

  /** Row by row: the message it was built from, and nothing of that message lost. */
  lemma {:induction false} ReadingsCopy(batch: seq<Msg>, clock: nat -> Time)
    ensures |Readings(batch, clock)| == |Carriers(batch)|
    ensures forall k :: 0 <= k < |Carriers(batch)| ==>
              var i := Carriers(batch)[k];
              && i < |batch| && batch[i].body.Some? && Copied(batch[i].body.value, Readings(batch, clock)[k])
              && (batch[i].body.value.at.None? ==> Readings(batch, clock)[k].at == clock(i))
  {
    if batch != [] {
      var n := |batch| - 1;
      ReadingsCopy(batch[..n], clock);
      forall k: nat | k < n ensures batch[..n][k] == batch[k] { }
    }
  }

  /** The same, column by column. */
  lemma AllCopied(batch: seq<Msg>, clock: nat -> Time)
    ensures |Readings(batch, clock)| == |Carriers(batch)|
    ensures forall k :: 0 <= k < |Carriers(batch)| ==>
              var x, i := Readings(batch, clock)[k], Carriers(batch)[k];
              && i < |batch| && batch[i].body.Some? && batch[i].body.value.Telemetry?
              && var b := batch[i].body.value;
                 && x.data == b.data && x.robot == (if b.robot.Some? then b.robot.value else 0)
                 && x.at == (if b.at.Some? then b.at.value else clock(i))
  {
    hide Readings, Carriers;
    ReadingsCopy(batch, clock);
  }

  function Entries(batch: seq<Msg>): seq<nat> {
    seq(|batch|, i requires 0 <= i < |batch| => batch[i].entry)
  }

  /** The tables of PostgreSQL that the worker writes. */
  class Database {
    var telemetry: seq<Reading>
    var roster: RosterTable

    /** `_register_robots` and `mark_seen`. */
    method RegisterRobots(rows: seq<Reading>)
      modifies this
      ensures telemetry == old(telemetry)
      ensures roster == MarkSeen(old(roster), Latest(rows))
    {
      var latest: map<RobotId, Time> := map[];
      for i := 0 to |rows|
        invariant latest == Latest(rows[..i])
        invariant roster == old(roster) && telemetry == old(telemetry)
      {
        assert rows[..i + 1][..i] == rows[..i];
        var x := rows[i];
        if x.robot !in latest || x.at > latest[x.robot] { latest := latest[x.robot := x.at]; }
      }
      assert rows[..|rows|] == rows;
      if latest != map[] { roster := MarkSeen(roster, latest); }
    }

    /** One INSERT and one commit, or one of each per row; the roster follows either way. */
    method Persist(rows: seq<Reading>, batchInsert: bool)
      modifies this
      ensures telemetry == old(telemetry) + rows && roster == MarkSeen(old(roster), Latest(rows))
    {
      if batchInsert {
        telemetry := telemetry + rows;
        RegisterRobots(rows);
      } else {
        for i := 0 to |rows|
          invariant telemetry == old(telemetry) + rows[..i] && roster == old(roster)
        {
          telemetry := telemetry + [rows[i]];
        }
        assert rows[..|rows|] == rows;
        RegisterRobots(rows);
      }
    }

    /**
    `process_batch`. Every message id comes back for acknowledgement. Whether rows are inserted in one
    statement or one by one, the same telemetry and the same roster result; a message that is no
    object raises before anything is written. `sources` gives the message of each new row.
    */
    method ProcessBatch(batch: seq<Msg>, clock: nat -> Time, batchInsert: bool)
        returns (acked: Option<seq<nat>>, ghost sources: seq<nat>)
      modifies this
      ensures acked.Some? ==> |telemetry| == |old(telemetry)| + |sources| && old(telemetry) <= telemetry
      ensures forall i, j :: 0 <= i < j < |sources| ==> sources[i] < sources[j]
      ensures forall i: nat :: i in sources <==> i < |batch| && batch[i].body.Some? && batch[i].body.value.Telemetry?
      ensures acked.Some? ==> forall k :: 0 <= k < |sources| ==>
                var x := telemetry[|old(telemetry)| + k];
                && sources[k] < |batch| && batch[sources[k]].body.Some? && batch[sources[k]].body.value.Telemetry?
                && var b := batch[sources[k]].body.value;
                   && x.data == b.data && x.robot == (if b.robot.Some? then b.robot.value else 0)
                   && x.at == (if b.at.Some? then b.at.value else clock(sources[k]))
      ensures acked.Some? && IsRosterOf(old(roster), old(telemetry)) ==> IsRosterOf(roster, telemetry)
      ensures acked.Some? <==> forall i :: 0 <= i < |batch| ==> !Poison(batch[i])
      ensures acked.Some? ==> acked.value == Entries(batch)
      ensures acked.Some? ==> telemetry == old(telemetry) + Readings(batch, clock)
      ensures acked.Some? && Readings(batch, clock) != [] ==>
          roster == MarkSeen(old(roster), Latest(Readings(batch, clock)))
      ensures acked.None? || Readings(batch, clock) == [] ==> telemetry == old(telemetry) && roster == old(roster)
    {
      hide IsRosterOf, ToReading, Copied;
      CarriersExact(batch);
      AllCopied(batch, clock);
      sources := Carriers(batch);
      var ids: seq<nat> := [];
      var rows: seq<Reading> := [];
      for i := 0 to |batch|
        invariant ids == Entries(batch[..i]) && rows == Readings(batch[..i], clock)
        invariant telemetry == old(telemetry) && roster == old(roster)
        invariant forall k :: 0 <= k < i ==> !Poison(batch[k])
      {
        assert batch[..i + 1][..i] == batch[..i];
        var m := batch[i];
        ids := ids + [m.entry];
        if m.body.Some? && m.body.value.NotAnObject? { return None, sources; }
        if m.body.Some? && m.body.value.Telemetry? { rows := rows + [ToReading(m.body.value, clock(i))]; }
      }
      assert batch[..|batch|] == batch;
      if rows != [] { Persist(rows, batchInsert); }
      if IsRosterOf(old(roster), old(telemetry)) { SeenExtends(old(roster), old(telemetry), rows); }
      if rows == [] { assert telemetry == old(telemetry) + rows; }
      return Some(ids), sources;
    }
  }
}
