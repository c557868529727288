/**
The command routes as they are written: statements on one mutable table, with other sessions'
commits at every await. `rival(k, rows)` is the table after whatever the others committed at await
number k; `Evolves` is all that is known about them, which is what the protocol proves of every writer.
*/
module CommandStore {
  import opened Prelude
  import opened CommandModel
  import opened CommandProtocol
  import opened CommandSafety
  import opened CommandRuns
  import opened CommandTheorems

  type Rival = (nat, Table) -> Table

  /** Rows are never deleted, and a changed row has climbed. */
  ghost predicate Evolves(t: Table, t': Table) {
    forall id :: id in t ==> id in t' && (t'[id] == t[id] || Climbs(t[id], t'[id]))
  }

  ghost predicate Climbs(a: Row, b: Row) {
    Rank(a.status) < Rank(b.status) && SameIdentity(a, b) && (a.dispatched.Some? ==> b.dispatched.Some?)
  }

  /** A terminal row has nowhere to climb. */
  lemma TerminalKeeps(a: Row, b: Row)
    requires Terminal(a.status) && (b == a || Climbs(a, b))
    ensures b == a
  { }

  ghost predicate Fair(rival: Rival) {
    forall k, t :: Evolves(t, rival(k, t))
  }

  /** Rivals that create nothing for the robot. */
  ghost predicate Uncreating(rival: Rival, robot: int) {
    forall k, t :: PendingFor(rival(k, t), robot) <= PendingFor(t, robot)
  }

  class CommandTable {
    var rows: Table

    /**
    The commit of `create_command`, and the lookup that follows a violated key constraint. A null key violates
    nothing, and the deadline is the creation time plus a timeout other than zero.
    */
    method CreateCommand(robot: int, req: CreateRequest, id: Id, now: Time) returns (found: Option<Id>)
      requires id !in rows
      modifies this
      ensures req.key.Some? && (exists k :: k in old(rows) && Matches(old(rows)[k], robot, req.key)) ==>
                && rows == old(rows) && found.Some? && found.value in rows
                && rows[found.value].robot == robot && rows[found.value].key == req.key
      ensures req.key.None? || (forall k :: k in old(rows) ==> !Matches(old(rows)[k], robot, req.key)) ==>
                && found == Some(id) && id in rows && rows == old(rows)[id := rows[id]]
                && rows[id].robot == robot && rows[id].kind == req.kind && rows[id].key == req.key
                && rows[id].status == Pending && rows[id].created == now && rows[id].timeout == req.timeout
                && rows[id].expires == (if req.timeout.Some? && req.timeout.value != 0
                                        then Some(now + req.timeout.value) else None)
                && rows[id] == NewRow(robot, req, now)
    {
      KeyMeans(rows, robot, req.key);
      if KeyTaken(rows, robot, req.key) {
        var hit :| hit in rows && Matches(rows[hit], robot, req.key);
        found := Some(hit);
      } else {
        var expires := None;
        if req.timeout.Some? && req.timeout.value != 0 { expires := Some(now + req.timeout.value); }
        rows := rows[id := Row(robot, req.kind, req.key, req.timeout, expires, now, Pending, None, None, None, None,
            None, None)];
        found := Some(id);
      }
    }

    /**
    `_transition_values`, applied to the row: the stamp of the new state and no other, result or error at the end.
    */
    static method TransitionValues(row: Row, req: UpdateRequest, now: Time) returns (r: Row)
      ensures r == Transition(row, req, now)
      ensures Allowed(row.status, req.status) ==> LegalWrite(row, r)
      ensures r.status == req.status && SameIdentity(row, r)
      ensures r.dispatched == if req.status == Dispatched then Some(now) else row.dispatched
      ensures r.acknowledged == if req.status == Acknowledged then Some(now) else row.acknowledged
      ensures r.started == if req.status == Executing then Some(now) else row.started
      ensures r.completed == if Terminal(req.status) then Some(now) else row.completed
      ensures r.errorCode == if Terminal(req.status) && req.status != Completed then req.errorCode else row.errorCode
      ensures r.result == if req.status == Completed then req.result
                          else if Terminal(req.status) && req.result.Some? && req.result.value != map[] then req.result
                          else row.result
    {
      r := row.(status := req.status);
      if req.status == Dispatched {
        r := r.(dispatched := Some(now));
      } else if req.status == Acknowledged {
        r := r.(acknowledged := Some(now));
      } else if req.status == Executing {
        r := r.(started := Some(now));
      } else if req.status == Completed {
        r := r.(completed := Some(now), result := req.result);
      } else if Terminal(req.status) {
        r := r.(completed := Some(now), errorCode := req.errorCode);
        if req.result.Some? && req.result.value != map[] {
          r := r.(result := req.result);
        }
      }
    }

    /**
    `update_status`. An error leaves only the rivals' commits behind. If the compare-and-set hits, the
    row it overwrote is exactly the row that was read and validated.
    */
    method UpdateStatus(id: Id, req: UpdateRequest, now: Time, rival: Rival) returns (answer: Answer)
      requires Fair(rival)
      modifies this
      ensures answer.NotFound? <==> id !in old(rows)
      ensures answer.NotFound? || answer.Invalid? ==> rows == old(rows)
      ensures answer.Invalid? <==>
                id in old(rows) && old(rows)[id].status != req.status && !Allowed(old(rows)[id].status, req.status)
      ensures id in old(rows) && old(rows)[id].status == req.status ==> answer == Ok(req.status) && rows == old(rows)
      ensures id in old(rows) && Allowed(old(rows)[id].status, req.status) ==>
                var seen := old(rows)[id];
                var mid := rival(0, old(rows));
                if id in mid && mid[id] == seen
                then rows == rival(1, mid[id := Transition(seen, req, now)]) && id in rows &&
                    answer == Ok(rows[id].status)
                else rows == rival(1, mid) && id in rows &&
                     answer == (if rows[id].status == req.status then Ok(req.status) else Conflict)
      // a hit with a terminal target: nobody can take back what the request reported
      ensures id in old(rows) && Allowed(old(rows)[id].status, req.status) && Terminal(req.status) ==>
                var seen := old(rows)[id];
                var mid := rival(0, old(rows));
                id in mid && mid[id] == seen ==>
                  && id in rows && rows[id].status == req.status && rows[id].completed == Some(now)
                  && rows[id].errorCode == (if req.status == Completed then seen.errorCode else req.errorCode)
                  && rows[id].result == (if req.status == Completed then req.result
                                         else if req.result.Some? && req.result.value != map[] then req.result
                                         else seen.result)
                  && rows[id].started == seen.started && rows[id].acknowledged == seen.acknowledged
    {
      if id !in rows { return NotFound; }
      var seen := rows[id];
      if seen.status == req.status { return Ok(seen.status); }
      if Terminal(seen.status) { return Invalid; }
      if !Allowed(seen.status, req.status) { return Invalid; }
      rows := rival(0, rows);
      assert Evolves(old(rows), rows);
      if rows[id].status == seen.status {
        var row := TransitionValues(rows[id], req, now);
        rows := rows[id := row];
        ghost var written := rows;
        rows := rival(1, rows);
        assert Evolves(written, rows);
        if Terminal(req.status) { TerminalKeeps(written[id], rows[id]); }
        return Ok(rows[id].status);
      }
      ghost var missed := rows;
      rows := rival(1, rows);
      assert Evolves(missed, rows);
      return if rows[id].status == req.status then Ok(req.status) else Conflict;
    }

    /** `get_next_pending`: a PENDING row of the robot with the least created_at, if there is any. */
    method NextPending(robot: int) returns (next: Option<Id>)
      ensures next.None? <==> PendingFor(rows, robot) == {}
      ensures next.None? ==> forall id :: id in rows && rows[id].robot == robot ==> rows[id].status != Pending
      ensures next.Some? ==> Oldest(rows, robot, next.value)
      ensures next.Some? ==> next.value in rows && rows[next.value].robot == robot && rows[next.value].status == Pending
      ensures next.Some? ==>
                forall id :: id in rows && rows[id].robot == robot && rows[id].status == Pending ==>
                  rows[next.value].created <= rows[id].created
    {
      next := None;
      var left := PendingFor(rows, robot);
      while left != {}
        invariant left <= PendingFor(rows, robot)
        invariant next.None? ==> left == PendingFor(rows, robot)
        invariant next.Some? ==> next.value in PendingFor(rows, robot)
        invariant next.Some? ==>
          forall id :: id in PendingFor(rows, robot) && id !in left ==> rows[next.value].created <= rows[id].created
        decreases left
      {
        var id :| id in left;
        left := left - {id};
        if next.None? || rows[id].created < rows[next.value].created { next := Some(id); }
      }
      PendingMeans(rows, robot);
    }

    /**
    `_claim_pending_commands`. With rivals at every await but no new commands, the loop ends with nothing
    PENDING for the robot. Of the commands that were PENDING when the call began it returns, oldest first and
    once each, all those that no rival took; whatever it returns has been dispatched. `met[k]` is the table
    it left to the rivals at its k-th await.
    */
    method ClaimPending(robot: int, clock: nat -> Time, rival: Rival) returns (claimed: seq<Id>, ghost met: seq<Table>)
      requires Fair(rival) && Uncreating(rival, robot)
      modifies this
      ensures forall id :: id in rows && rows[id].robot == robot ==> rows[id].status != Pending
      ensures Evolves(old(rows), rows) && Trace(rival, old(rows), met, rows)
      ensures Distinct(claimed) && OldestFirst(old(rows), robot, claimed)
      ensures forall id :: id in claimed ==>
                id in old(rows) && old(rows)[id].robot == robot && old(rows)[id].status == Pending
      ensures forall id :: id in claimed ==> id in rows && rows[id].status != Pending && rows[id].dispatched.Some?
      ensures forall id :: id in old(rows) && old(rows)[id].robot == robot && old(rows)[id].status == Pending ==>
                id in claimed || LostTo(rival, met, id)
      ensures (forall k, t :: rival(k, t) == t) ==>
                forall id :: id in claimed <==>
                  id in old(rows) && old(rows)[id].robot == robot && old(rows)[id].status == Pending
    {
      hide Round, OldestFirst, Distinct, LostTo, SameIdentity;
      RoundStarts(rows, robot, rival);
      claimed, met := [], [];
      var k := 0;
      while true
        invariant k == |met| && (k == 0 ==> rows == old(rows)) && (k > 0 ==> rows == rival(k - 1, met[k - 1]))
        invariant Round(old(rows), rows, robot, claimed, rival, met)
        decreases PendingFor(rows, robot)
      {
        var next := NextPending(robot);
        if next.None? {
          RoundEnds(old(rows), rows, robot, claimed, rival, met);
          return;
        }
        var id := next.value;
        ghost var read := rows;
        RoundFacts(old(rows), read, robot, claimed, rival, met);
        var now := clock(|claimed|);
        rows := rival(k, rows);
        RivalRound(old(rows), read, robot, claimed, rival, met);
        met, k := met + [read], k + 1;
        if rows[id].status == Pending {
          DispatchRound(old(rows), read, rows, robot, claimed, rival, met, id, now);
          rows := rows[id := DispatchRow(rows[id], now)];
          claimed := claimed + [id];
          ghost var written := rows;
          rows := rival(k, rows);
          RivalRound(old(rows), written, robot, claimed, rival, met);
          met, k := met + [written], k + 1;
        }
        assert id in PendingFor(read, robot) && id !in PendingFor(rows, robot);
      }
    }

    /**
    `scan_for_timeouts`, its UPDATEs private until the final commit. Afterwards every command that was
    overdue at the SELECT is terminal: TIMEOUT if it is among those announced, and otherwise whatever a
    rival made of it before the scanner reached it.
    */
    method ScanForTimeouts(now: Time, begun: Time, expired: seq<Id>, rival: (nat, Table, set<Id>) -> Table)
        returns (timedOut: seq<Id>)
      requires Waiting(rival) && Distinct(expired)
      requires forall id :: id in expired <==>
                 id in rows && rows[id].expires.Some? && rows[id].expires.value < now && !Terminal(rows[id].status)
      modifies this
      ensures Evolves(old(rows), rows) && Distinct(timedOut)
      ensures forall id :: id in timedOut ==>
          id in rows && rows[id].status == Timeout && rows[id].completed == Some(begun) &&
          rows[id].errorCode == Some("TIMEOUT")
      ensures forall id :: id in timedOut ==>
          id in old(rows) && old(rows)[id].expires.Some? && old(rows)[id].expires.value < now &&
          !Terminal(old(rows)[id].status)
      ensures forall id :: id in old(rows) && old(rows)[id].expires.Some? && old(rows)[id].expires.value < now ==>
          id in rows && Terminal(rows[id].status)
      ensures timedOut == [] && expired == [] ==> rows == old(rows)
    {
      timedOut := [];
      var writes: Table := map[];
      for i := 0 to |expired|
        invariant Evolves(old(rows), rows)
        invariant Scanned(rows, begun, expired[..i], timedOut, writes)
        invariant i == 0 ==> rows == old(rows) && timedOut == []
      {
        ghost var before := rows;
        rows := rival(i, rows, writes.Keys);
        EvolvesTrans(old(rows), before, rows);
        ScannedStays(before, rows, begun, expired[..i], timedOut, writes);
        var id := expired[i];
        assert id in expired;
        ScannedNext(rows, begun, expired, i, timedOut, writes);
        if !Terminal(rows[id].status) {
          writes := writes[id := TimeoutRow(rows[id], begun)];
          timedOut := timedOut + [id];
        }
      }
      assert expired[..|expired|] == expired;
      if timedOut != [] {
        ScanCommitted(old(rows), rows, begun, expired, timedOut, writes);
        rows := rows + writes;
      }
      forall id | id in old(rows) && Terminal(old(rows)[id].status) ensures rows[id] == old(rows)[id] {
        TerminalKeeps(old(rows)[id], rows[id]);
      }
    }
  }

  /** The scan so far: hits are live rows, privately expired; the rest of what was looked at is terminal. */
  ghost predicate Scanned(rows: Table, begun: Time, done: seq<Id>, hits: seq<Id>, writes: Table) {
    && Distinct(hits) && writes.Keys == Elements(hits)
    && (forall id :: id in hits ==> id in done)
    && (forall id :: id in done ==> id in rows && (id in writes || Terminal(rows[id].status)))
    && (forall id :: id in writes ==>
        id in rows && !Terminal(rows[id].status) && writes[id] == TimeoutRow(rows[id], begun))
  }

  lemma ScannedStays(rows: Table, rows': Table, begun: Time, done: seq<Id>, hits: seq<Id>, writes: Table)
    requires Scanned(rows, begun, done, hits, writes) && Evolves(rows, rows')
    requires forall id :: id in writes ==> rows'[id] == rows[id]
    ensures Scanned(rows', begun, done, hits, writes)
  { }

  lemma ScannedNext(rows: Table, begun: Time, expired: seq<Id>, i: nat, hits: seq<Id>, writes: Table)
    requires i < |expired| && Distinct(expired) && expired[i] in rows
    requires Scanned(rows, begun, expired[..i], hits, writes)
    ensures var id := expired[i];
            if Terminal(rows[id].status) then Scanned(rows, begun, expired[..i + 1], hits, writes)
            else Scanned(rows, begun, expired[..i + 1], hits + [id], writes[id := TimeoutRow(rows[id], begun)])
  {
    var id := expired[i];
    assert expired[..i + 1] == expired[..i] + [id];
    assert id !in expired[..i];
    assert Elements(hits + [id]) == Elements(hits) + {id};
  }

  lemma ScanCommitted(start: Table, rows: Table, begun: Time, done: seq<Id>, hits: seq<Id>, writes: Table)
    requires Evolves(start, rows) && Scanned(rows, begun, done, hits, writes)
    ensures var after := rows + writes;
            && Evolves(start, after)
            && (forall id :: id in hits ==>
                id in after && after[id].status == Timeout && after[id].completed == Some(begun) &&
                after[id].errorCode == Some("TIMEOUT"))
            && (forall id :: id in done ==> id in after && Terminal(after[id].status))
  {
    forall id | id in writes ensures Climbs(rows[id], writes[id]) { }
    assert forall id :: id in hits ==> id in Elements(hits);
    EvolvesTrans(start, rows, rows + writes);
  }

  /** Rivals of an open transaction wait for the rows it has locked. */
  ghost predicate Waiting(rival: (nat, Table, set<Id>) -> Table) {
    forall k, t, locked ::
      Evolves(t, rival(k, t, locked)) && forall id :: id in locked && id in t ==> rival(k, t, locked)[id] == t[id]
  }

  /** Commands PENDING for the robot in `t`, by non-decreasing created_at. */
  ghost predicate OldestFirst(t: Table, robot: int, ids: seq<Id>) {
    && (forall i :: 0 <= i < |ids| ==> ids[i] in PendingFor(t, robot))
    && (forall i, j :: 0 <= i < j < |ids| ==> t[ids[i]].created <= t[ids[j]].created)
  }

  ghost predicate Progress(start: Table, rows: Table, robot: int, claimed: seq<Id>) {
    && Evolves(start, rows) && PendingFor(rows, robot) <= PendingFor(start, robot)
    && Distinct(claimed) && OldestFirst(start, robot, claimed)
    && (forall i :: 0 <= i < |claimed| ==> claimed[i] !in PendingFor(rows, robot))
    && (forall i, id :: 0 <= i < |claimed| && id in PendingFor(rows, robot) ==>
        start[claimed[i]].created <= start[id].created)
  }

  lemma KeyMeans(t: Table, robot: int, key: Option<string>)
    ensures KeyTaken(t, robot, key) <==> key.Some? && exists id :: id in t && t[id].robot == robot && t[id].key == key
    ensures KeyTaken(t, robot, key) <==> key.Some? && exists id :: id in t && Matches(t[id], robot, key)
  {
    if KeyTaken(t, robot, key) {
      var id :| id in t && t[id].robot == robot && t[id].key == key;
      assert Matches(t[id], robot, key);
    }
    if id :| id in t && Matches(t[id], robot, key) { assert t[id].robot == robot && t[id].key == key; }
  }

  lemma PendingMeans(t: Table, robot: int)
    ensures forall id :: id in PendingFor(t, robot) <==> id in t && t[id].robot == robot && t[id].status == Pending
  { }

  /** What a claim may do to the table between two awaits: dispatch PENDING rows. */
  ghost predicate Dispatches(t: Table, t': Table) {
    forall id :: id in t ==> id in t' && (t'[id] == t[id] || Dispatching(t[id], t'[id]))
  }

  /** Two columns change. */
  ghost predicate Dispatching(a: Row, b: Row) {
    a.status == Pending && b.dispatched.Some? && b == a.(status := Dispatched, dispatched := b.dispatched)
  }

  /** The tables left to the rivals, from the first to the last await. */
  ghost predicate Trace(rival: Rival, start: Table, met: seq<Table>, rows: Table) {
    && (met == [] ==> Dispatches(start, rows))
    && (met != [] ==> Dispatches(start, met[0]) && Dispatches(rival(|met| - 1, met[|met| - 1]), rows))
    && (forall k :: 0 <= k < |met| - 1 ==> Dispatches(rival(k, met[k]), met[k + 1]))
  }

  lemma DispatchesTrans(a: Table, b: Table, c: Table)
    requires Dispatches(a, b) && Dispatches(b, c)
    ensures Dispatches(a, c)
  { }

  /** The claim loop between two of its awaits. */
  ghost predicate Round(start: Table, rows: Table, robot: int, claimed: seq<Id>, rival: Rival, met: seq<Table>) {
    && Progress(start, rows, robot, claimed) && Trace(rival, start, met, rows)
    && Accounted(start, rows, robot, claimed, rival, met)
  }

  lemma RoundStarts(start: Table, robot: int, rival: Rival)
    ensures Round(start, start, robot, [], rival, [])
  { }

  lemma RoundFacts(start: Table, rows: Table, robot: int, claimed: seq<Id>, rival: Rival, met: seq<Table>)
    requires Round(start, rows, robot, claimed, rival, met)
    ensures Evolves(start, rows) && PendingFor(rows, robot) <= PendingFor(start, robot)
  { }

  lemma RivalTrace(start: Table, rows: Table, rival: Rival, met: seq<Table>)
    requires Trace(rival, start, met, rows)
    ensures Trace(rival, start, met + [rows], rival(|met|, rows))
  {
    hide Dispatches;
    SameDispatches(rival(|met|, rows));
    var all := met + [rows];
    forall k | 0 <= k < |all| - 1 ensures Dispatches(rival(k, all[k]), all[k + 1]) { }
  }

  lemma SameDispatches(t: Table)
    ensures Dispatches(t, t)
  { }

  lemma RivalRound(start: Table, rows: Table, robot: int, claimed: seq<Id>, rival: Rival, met: seq<Table>)
    requires Fair(rival) && Uncreating(rival, robot) && Round(start, rows, robot, claimed, rival, met)
    ensures Round(start, rival(|met|, rows), robot, claimed, rival, met + [rows])
  {
    hide Progress, Trace, Accounted, PendingFor;
    assert Evolves(rows, rival(|met|, rows));
    RivalProgress(start, rows, rival(|met|, rows), robot, claimed);
    RivalTrace(start, rows, rival, met);
    RivalAccounted(start, rows, robot, claimed, rival, met);
  }

  lemma DispatchTrace(start: Table, rows: Table, rival: Rival, met: seq<Table>, id: Id, now: Time)
    requires Trace(rival, start, met, rows) && id in rows && rows[id].status == Pending
    ensures Trace(rival, start, met, rows[id := DispatchRow(rows[id], now)])
  {
    hide Dispatches;
    var after := rows[id := DispatchRow(rows[id], now)];
    OneDispatch(rows, id, now);
    if met == [] { DispatchesTrans(start, rows, after); }
    else { DispatchesTrans(rival(|met| - 1, met[|met| - 1]), rows, after); }
  }

  lemma OneDispatch(rows: Table, id: Id, now: Time)
    requires id in rows && rows[id].status == Pending
    ensures Dispatches(rows, rows[id := DispatchRow(rows[id], now)])
  { }

  lemma DispatchRound(start: Table, read: Table, rows: Table, robot: int, claimed: seq<Id>, rival: Rival,
      met: seq<Table>, id: Id, now: Time)
    requires Round(start, rows, robot, claimed, rival, met) && Evolves(start, read)
    requires Oldest(read, robot, id) && PendingFor(rows, robot) <= PendingFor(read, robot) <= PendingFor(start, robot)
    requires id in rows && rows[id].robot == robot && rows[id].status == Pending
    ensures Round(start, rows[id := DispatchRow(rows[id], now)], robot, claimed + [id], rival, met)
  {
    hide Progress, Trace, Accounted, Oldest;
    DispatchProgress(start, read, rows, robot, claimed, id, now);
    DispatchTrace(start, rows, rival, met, id, now);
    DispatchAccounted(start, rows, robot, claimed, rival, met, id, now);
  }

  /** What the loop has achieved when nothing is PENDING any more. */
  lemma RoundEnds(start: Table, rows: Table, robot: int, claimed: seq<Id>, rival: Rival, met: seq<Table>)
    requires Round(start, rows, robot, claimed, rival, met) && PendingFor(rows, robot) == {}
    ensures Evolves(start, rows) && Trace(rival, start, met, rows) && Distinct(claimed)
    ensures OldestFirst(start, robot, claimed)
    ensures forall id :: id in claimed ==> id in start && start[id].robot == robot && start[id].status == Pending
    ensures forall id :: id in claimed ==> id in rows && rows[id].status != Pending && rows[id].dispatched.Some?
    ensures forall id :: id in start && start[id].robot == robot && start[id].status == Pending ==>
              id in claimed || LostTo(rival, met, id)
    ensures (forall k, t :: rival(k, t) == t) ==> forall id :: !LostTo(rival, met, id)
  {
    hide LostTo, Trace;
    ClaimedWere(start, robot, claimed);
    forall id | id in claimed ensures rows[id].status != Pending {
      assert rows[id].robot == robot;
      assert id !in PendingFor(rows, robot);
    }
    if forall k, t :: rival(k, t) == t {
      forall id ensures !LostTo(rival, met, id) { NeverLost(rival, met, id); }
    }
  }

  lemma NeverLost(rival: Rival, met: seq<Table>, id: Id)
    requires forall k, t :: rival(k, t) == t
    ensures !LostTo(rival, met, id)
  { }

  /** At one of the awaits a rival took the command out of PENDING. */
  ghost predicate LostTo(rival: Rival, met: seq<Table>, id: Id) {
    exists k :: 0 <= k < |met| && TookAt(rival, k, met[k], id)
  }

  ghost predicate TookAt(rival: Rival, k: nat, t: Table, id: Id) {
    id in t && t[id].status == Pending && (id !in rival(k, t) || rival(k, t)[id].status != Pending)
  }

  /** Every command that was PENDING at the start is claimed, still PENDING, or lost; a claimed one is stamped. */
  ghost predicate Accounted(start: Table, rows: Table, robot: int, claimed: seq<Id>, rival: Rival, met: seq<Table>) {
    && (forall id :: id in PendingFor(start, robot) ==>
        id in claimed || id in PendingFor(rows, robot) || LostTo(rival, met, id))
    && (forall id :: id in claimed ==> id in rows && rows[id].dispatched.Some?)
  }

  lemma LostStays(rival: Rival, met: seq<Table>, t: Table, id: Id)
    requires LostTo(rival, met, id) || TookAt(rival, |met|, t, id)
    ensures LostTo(rival, met + [t], id)
  {
    hide TookAt;
    if LostTo(rival, met, id) {
      var k :| 0 <= k < |met| && TookAt(rival, k, met[k], id);
      assert (met + [t])[k] == met[k];
    } else {
      assert (met + [t])[|met|] == t;
    }
  }

  lemma RivalAccounted(start: Table, rows: Table, robot: int, claimed: seq<Id>, rival: Rival, met: seq<Table>)
    requires Fair(rival) && Accounted(start, rows, robot, claimed, rival, met)
    ensures Accounted(start, rival(|met|, rows), robot, claimed, rival, met + [rows])
  {
    hide LostTo, SameIdentity;
    var after := rival(|met|, rows);
    assert Evolves(rows, after);
    forall id | id in PendingFor(start, robot)
      ensures id in claimed || id in PendingFor(after, robot) || LostTo(rival, met + [rows], id)
    {
      if LostTo(rival, met, id) || TookAt(rival, |met|, rows, id) { LostStays(rival, met, rows, id); }
      else if id !in claimed { StaysPending(rows, after, robot, id); }
    }
  }

  lemma StaysPending(rows: Table, after: Table, robot: int, id: Id)
    requires Evolves(rows, after) && id in PendingFor(rows, robot) && id in after && after[id].status == Pending
    ensures id in PendingFor(after, robot)
  { }

  lemma DispatchAccounted(start: Table, rows: Table, robot: int, claimed: seq<Id>, rival: Rival, met: seq<Table>,
      id: Id, now: Time)
    requires Accounted(start, rows, robot, claimed, rival, met) && id in rows
    ensures Accounted(start, rows[id := DispatchRow(rows[id], now)], robot, claimed + [id], rival, met)
  {
    hide LostTo;
  }

  lemma ClaimedWere(start: Table, robot: int, claimed: seq<Id>)
    requires OldestFirst(start, robot, claimed)
    ensures forall id :: id in claimed ==> id in start && start[id].robot == robot && start[id].status == Pending
  {
    forall id | id in claimed ensures id in PendingFor(start, robot) {
      var i :| 0 <= i < |claimed| && claimed[i] == id;
    }
  }

  lemma RivalProgress(start: Table, rows: Table, rows': Table, robot: int, claimed: seq<Id>)
    requires Progress(start, rows, robot, claimed)
    requires Evolves(rows, rows') && PendingFor(rows', robot) <= PendingFor(rows, robot)
    ensures Progress(start, rows', robot, claimed)
  {
    hide PendingFor, Climbs;
    EvolvesTrans(start, rows, rows');
  }

  lemma DispatchProgress(start: Table, read: Table, rows: Table, robot: int, claimed: seq<Id>, id: Id, now: Time)
    requires Progress(start, rows, robot, claimed) && Evolves(start, read)
    requires Oldest(read, robot, id) && PendingFor(rows, robot) <= PendingFor(read, robot) <= PendingFor(start, robot)
    requires id in PendingFor(rows, robot)
    ensures Progress(start, rows[id := DispatchRow(rows[id], now)], robot, claimed + [id])
  {
    var rows' := rows[id := DispatchRow(rows[id], now)];
    assert PendingFor(rows', robot) == PendingFor(rows, robot) - {id};
    assert Evolves(rows, rows');
    RivalProgress(start, rows, rows', robot, claimed);
    forall other | other in PendingFor(rows', robot) ensures start[id].created <= start[other].created {
      assert read[id].created <= read[other].created;
    }
  }

  lemma EvolvesTrans(a: Table, b: Table, c: Table)
    requires Evolves(a, b) && Evolves(b, c)
    ensures Evolves(a, c)
  { }

  /** The assumption on rivals is a theorem: in every run of the protocol the table only evolves. */
  lemma RunsEvolve(clock: Time, before: seq<Step>, after: seq<Step>)
    ensures var w := Run(Init(clock), before); Evolves(w.table, Run(w, after).table)
  {
    hide KeysUnique, ProcsOk, Disjoint, EntriesOk, NoticesOk, AppliedOk, Run, RowOk, SameIdentity;
    var w := Run(Init(clock), before);
    var v := Run(w, after);
    Reachable(clock, before);
    RunLater(w, after);
    forall id | id in w.table ensures id in v.table &&
        (v.table[id] == w.table[id] || Climbs(w.table[id], v.table[id])) {
      if w.hist[id] != v.hist[id] { LongerClimbs(w.table[id], w.hist[id], v.table[id], v.hist[id]); }
    }
  }

  lemma LongerClimbs(a: Row, h: seq<Entry>, b: Row, k: seq<Entry>)
    requires RowOk(a, h) && RowOk(b, k) && h <= k && h != k
    ensures Rank(a.status) < Rank(b.status) && (a.dispatched.Some? ==> b.dispatched.Some?)
  {
    PathClimbs(k, |h| - 1, |k| - 1);
    if Visited(h, Dispatched) {
      var i :| 0 <= i < |h| && h[i].status == Dispatched;
      assert k[i] == h[i];
    }
  }
}
