/** What the command protocol guarantees to callers, over every run. */
module CommandTheorems {
  import opened Prelude
  import opened CommandModel
  import opened CommandProtocol
  import opened CommandSafety
  import opened CommandRuns

  /** `v` may follow `w`: identities stay, histories only grow, and a row moves only with its history. */
  ghost predicate Later(w: World, v: World) {
    && (forall id :: id in w.table ==> id in v.table && SameIdentity(w.table[id], v.table[id]))
    && (forall id :: id in w.hist ==> id in v.hist && w.hist[id] <= v.hist[id])
    && (forall id :: id in w.table && id in w.hist && id in v.hist && w.hist[id] == v.hist[id] ==>
          id in v.table && w.table[id] == v.table[id])
  }

  lemma CommitLater(w: World, pid: Pid, via: Via, next: Proc)
    requires ProcsOk(w.table, w.hist, w.procs) && TableOk(w.table, w.hist) && pid in w.procs
    ensures Later(w, Commit(w, pid, via, next))
  {
    hide ProcsOk, RowOk, Writes, LegalWrite, SameIdentity;
    AllOpenWritesLegal(w, pid);
    var v := Commit(w, pid, via, next);
    forall id | id in w.table ensures SameIdentity(w.table[id], v.table[id]) {
      if id in Writes(w.procs[pid]) {
        assert WriteOk(w.table, id, Writes(w.procs[pid])[id]);
        WriteClimbs(w.table[id], v.table[id]);
      } else { SameRow(w.table[id]); }
    }
  }

  lemma InsertLater(w: World, pid: Pid, id: Id, row: Row, next: Proc)
    requires TableOk(w.table, w.hist) && id !in w.table
    ensures Later(w, Insert(w, pid, id, row, next))
  {
    hide RowOk;
  }

  lemma AddLater(w: World, pid: Pid, id: Id, row: Row, next: Proc)
    requires Inv(w) && pid in w.procs && AddOk(w, pid, id, row, next)
    ensures Later(w, Insert(w, pid, id, row, next))
  {
    hide RowOk, KeysUnique, Disjoint, EntriesOk, NoticesOk, AppliedOk, Later;
    assert ProcOk(w.table, w.hist, pid, w.procs[pid]);
    InsertLater(w, pid, id, row, next);
  }

  lemma SameLater(w: World, v: World)
    requires v.table == w.table && v.hist == w.hist
    ensures Later(w, v)
  { }

  lemma StepLater(w: World, s: Step)
    requires Inv(w)
    ensures Later(w, Apply(w, s))
  {
    hide KeysUnique, ProcsOk, TableOk, Disjoint, EntriesOk, NoticesOk, AppliedOk, Later, StepOf, MoveOk, CommitOk,
        AddOk, Commit, Insert;
    if s.Advance? && s.pid in w.procs {
      StepSound(w, s.pid, s.choice);
      match StepOf(w, s.pid, w.procs[s.pid], s.choice)
      case Publish(via, next) => CommitLater(w, s.pid, via, next);
      case Add(id, row, next) => AddLater(w, s.pid, id, row, next);
      case _ => SameLater(w, Apply(w, s));
    } else {
      SameLater(w, Apply(w, s));
    }
  }

  lemma LaterTrans(u: World, v: World, w: World)
    requires u.table.Keys == u.hist.Keys && v.table.Keys == v.hist.Keys
    requires Later(u, v) && Later(v, w)
    ensures Later(u, w)
  { }

  lemma {:induction false} RunLater(w: World, steps: seq<Step>)
    requires Inv(w)
    ensures Later(w, Run(w, steps)) && Inv(Run(w, steps))
    decreases |steps|
  {
    hide KeysUnique, ProcsOk, RowOk, Disjoint, EntriesOk, NoticesOk, AppliedOk, Later, Apply;
    if steps == [] { SameLater(w, w); }
    else {
      var v := Apply(w, steps[0]);
      StepKeeps(w, steps[0]);
      StepLater(w, steps[0]);
      RunLater(v, steps[1..]);
      LaterTrans(w, v, Run(v, steps[1..]));
    }
  }

  // ----- the state machine

  /**
  Every committed history is a path of the transition table from PENDING with at most four
  transitions and no status twice, so at most one writer wins from each status; only its last
  status can be terminal; and the row shows that last status and a stamp for exactly the states visited.
  */
  lemma StatusHistories(clock: Time, steps: seq<Step>, id: Id)
    requires id in Run(Init(clock), steps).table
    ensures var w := Run(Init(clock), steps);
            && id in w.hist && RowOk(w.table[id], w.hist[id])
            && |w.hist[id]| <= 5 && NeverRepeats(w.hist[id])
  {
    hide KeysUnique, ProcsOk, Disjoint, EntriesOk, NoticesOk, AppliedOk, Run, RowOk, NeverRepeats;
    Reachable(clock, steps);
    HistoryShort(Run(Init(clock), steps).table[id], Run(Init(clock), steps).hist[id]);
  }

  /** No status is entered twice, and a terminal one is never left. */
  ghost predicate NeverRepeats(h: seq<Entry>) {
    forall i, j :: 0 <= i < j < |h| ==> h[i].status != h[j].status && !Terminal(h[i].status)
  }

  lemma HistoryShort(row: Row, h: seq<Entry>)
    requires RowOk(row, h)
    ensures |h| <= 5 && NeverRepeats(h)
  {
    if |h| > 1 { PathClimbs(h, 0, |h| - 1); }
    forall i, j | 0 <= i < j < |h| ensures h[i].status != h[j].status && !Terminal(h[i].status) { PathClimbs(h, i, j); }
  }

  /** Once a command is terminal, no column of its row ever changes again. */
  lemma TerminalIsFinal(clock: Time, before: seq<Step>, after: seq<Step>, id: Id)
    requires var w := Run(Init(clock), before); id in w.table && Terminal(w.table[id].status)
    ensures var w := Run(Init(clock), before); var v := Run(w, after); id in v.table && v.table[id] == w.table[id]
  {
    hide KeysUnique, ProcsOk, Disjoint, EntriesOk, NoticesOk, AppliedOk, Run, RowOk;
    var w := Run(Init(clock), before);
    Reachable(clock, before);
    RunLater(w, after);
    TerminalStuck(w.table[id], w.hist[id], Run(w, after).table[id], Run(w, after).hist[id]);
  }

  lemma TerminalStuck(a: Row, h: seq<Entry>, b: Row, k: seq<Entry>)
    requires RowOk(a, h) && RowOk(b, k) && h <= k && Terminal(a.status)
    ensures h == k
  {
    if |h| < |k| { PathClimbs(k, |h| - 1, |h|); }
  }

  // ----- answers and announcements

  /**
  A successful PATCH means the requested status was committed at some moment, and so was the status
  it reports. A 404, 400 or 409 means that request committed nothing at all.
  */
  lemma HonestAnswers(clock: Time, steps: seq<Step>, pid: Pid)
    requires var w := Run(Init(clock), steps);
             pid in w.procs && w.procs[pid].Patch? && w.procs[pid].patch.PatchEnd?
    ensures var w := Run(Init(clock), steps);
            var s := w.procs[pid].patch;
            if s.answer.Ok? then
              HasVisited(w.hist, s.id, s.req.status) && HasVisited(w.hist, s.id, s.answer.reported)
            else
              forall id, i :: id in w.hist && 0 <= i < |w.hist[id]| ==> w.hist[id][i].writer != pid
  {
    hide KeysUnique, TableOk, Disjoint, NoticesOk, AppliedOk, Run, Visited;
    Reachable(clock, steps);
    var w := Run(Init(clock), steps);
    assert ProcOk(w.table, w.hist, pid, w.procs[pid]);
    forall id, i | id in w.hist && 0 <= i < |w.hist[id]| ensures EntryOk(w.procs, id, w.hist[id][i]) { }
  }

  /** Every status ever broadcast for a command had been committed. */
  lemma HonestNotices(clock: Time, steps: seq<Step>, i: nat)
    requires i < |Run(Init(clock), steps).notices|
    ensures var w := Run(Init(clock), steps); HasVisited(w.hist, w.notices[i].id, w.notices[i].status)
  {
    hide KeysUnique, TableOk, ProcsOk, Disjoint, EntriesOk, AppliedOk, Run;
    Reachable(clock, steps);
  }

  /** A command announced as TIMEOUT did time out, and stays so: it never finished under the scan. */
  lemma NoFalseTimeout(clock: Time, before: seq<Step>, after: seq<Step>, i: nat)
    requires i < |Run(Init(clock), before).notices| && Run(Init(clock), before).notices[i].status == Timeout
    ensures var id := Run(Init(clock), before).notices[i].id;
            var v := Run(Run(Init(clock), before), after);
            id in v.table && v.table[id].status == Timeout
  {
    hide KeysUnique, ProcsOk, Disjoint, EntriesOk, NoticesOk, AppliedOk, Run, RowOk, Visited;
    var w := Run(Init(clock), before);
    var id := w.notices[i].id;
    HonestNotices(clock, before, i);
    Reachable(clock, before);
    VisitedTerminal(w.table[id], w.hist[id], Timeout);
    TerminalIsFinal(clock, before, after, id);
  }

  lemma VisitedTerminal(row: Row, h: seq<Entry>, s: Status)
    requires RowOk(row, h) && Visited(h, s) && Terminal(s)
    ensures row.status == s
  {
    var i :| 0 <= i < |h| && h[i].status == s;
    if i < |h| - 1 { PathClimbs(h, i, |h| - 1); }
  }

  // ----- claims

  ghost predicate Returned(w: World, pid: Pid, id: Id) {
    pid in w.procs && w.procs[pid].Claim? && w.procs[pid].claim.ClaimReturned? && id in w.procs[pid].claim.claimed
  }

  /** Two claim calls, at whatever moments of the run, never return the same command. */
  lemma ClaimedOnce(clock: Time, before: seq<Step>, after: seq<Step>, p: Pid, q: Pid, id: Id)
    requires Returned(Run(Init(clock), before), p, id)
    requires Returned(Run(Run(Init(clock), before), after), q, id)
    ensures p == q
  {
    hide KeysUnique, TableOk, Disjoint, EntriesOk, NoticesOk, AppliedOk, Run;
    var w := Run(Init(clock), before);
    var v := Run(w, after);
    Reachable(clock, before);
    RunLater(w, after);
    assert ProcOk(w.table, w.hist, p, w.procs[p]);
    assert ProcOk(v.table, v.hist, q, v.procs[q]);
    assert w.hist[id] <= v.hist[id];
  }

  /**
  Across all robot loops, lost responses and lost PATCHes, no command is applied twice; the robots'
  "already processed" branch never fires, so its hundred-entry memory is not what ensures this.
  */
  lemma AppliedAtMostOnce(clock: Time, steps: seq<Step>)
    ensures Distinct(Run(Init(clock), steps).applied)
    ensures Run(Init(clock), steps).replayed == []
  {
    hide KeysUnique, TableOk, ProcsOk, Disjoint, EntriesOk, NoticesOk, Handled, Run;
    Reachable(clock, steps);
  }

  // ----- creation

  /**
  At most one row per robot and non-null idempotency key; every finished create call found a row for
  its own robot and key, so two calls with the same pair return the same id, and the
  "conflict handling failed" answer (no row found) does not occur.
  */
  lemma IdempotentCreate(clock: Time, steps: seq<Step>, p: Pid, q: Pid)
    requires var w := Run(Init(clock), steps);
             && p in w.procs && w.procs[p].Create? && w.procs[p].create.CreateEnd?
             && q in w.procs && w.procs[q].Create? && w.procs[q].create.CreateEnd?
    ensures var w := Run(Init(clock), steps);
            var a := w.procs[p].create;
            var b := w.procs[q].create;
            && KeysUnique(w.table)
            && a.found.Some? && Owns(w.table, a.robot, a.req.key, a.found.value)
            && (a.robot == b.robot && a.req.key == b.req.key && a.req.key.Some? ==> a.found == b.found)
  {
    hide TableOk, Disjoint, EntriesOk, NoticesOk, AppliedOk, Run;
    Reachable(clock, steps);
    var w := Run(Init(clock), steps);
    assert ProcOk(w.table, w.hist, p, w.procs[p]);
    assert ProcOk(w.table, w.hist, q, w.procs[q]);
  }
}
