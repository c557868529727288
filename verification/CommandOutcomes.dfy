/**
What the requests achieve, over every run: whatever a claim dispatches is returned and applied, a scan leaves
nothing overdue alive, a refusal has a reason, and no request is stuck except behind a row lock.
*/
module CommandOutcomes {
  import opened Prelude
  import opened CommandModel
  import opened CommandProtocol
  import opened CommandSafety
  import opened CommandRuns
  import opened CommandTheorems
  import opened CommandClaims

  // ----- nothing that was dispatched gets lost

  /** A claim owes the command to its caller, or its robot loop has applied it. */
  ghost predicate Owed(p: Proc, id: Id, applied: seq<Id>) {
    p.Claim? ==> id in Outstanding(p) || (p.claim.Handling? && id in applied)
  }

  ghost predicate Delivered(w: World) {
    forall id, i :: id in w.hist && 0 <= i < |w.hist[id]| && ClaimedBy(w, w.hist[id][i]) ==>
      Owed(w.procs[w.hist[id][i].writer], id, w.applied)
  }

  predicate ClaimedBy(w: World, e: Entry) {
    e.via == ViaClaim && e.writer in w.procs
  }

  /** The next state owes at least what the present one does. */
  ghost predicate StillOwes(p: Proc, next: Proc) {
    next.Claim? ==> p.Claim? && !p.claim.Handling? && forall id :: id in Outstanding(p) ==> id in Outstanding(next)
  }

  lemma MovesOwe(w: World, pid: Pid, p: Proc, c: Choice)
    ensures match StepOf(w, pid, p, c)
            case Move(next) => StillOwes(p, next)
            case Tell(next, _) => StillOwes(p, next)
            case Publish(via, next) =>
              StillOwes(p, next) && (next.Claim? ==> forall id :: id in Writes(p) ==> id in Outstanding(next))
            case Add(_, _, next) => !next.Claim?
            case Take(loop, todo) => p == Claim(Handling(loop, todo)) && todo != []
            case Stay => true
  {
    hide Locked, Unused, KeyTaken, Oldest, PendingFor, Decide;
  }

  lemma GoDelivers(w: World, pid: Pid, next: Proc)
    requires Delivered(w) && (pid in w.procs ==> StillOwes(w.procs[pid], next))
    requires pid !in w.procs ==> EntriesOk(w.hist, w.procs)
    ensures Delivered(Go(w, pid, next))
  {
    hide Outstanding, Accounts;
  }

  lemma CommitDelivers(w: World, pid: Pid, via: Via, next: Proc)
    requires Delivered(w) && pid in w.procs && StillOwes(w.procs[pid], next)
    requires next.Claim? ==> forall id :: id in Writes(w.procs[pid]) ==> id in Outstanding(next)
    ensures Delivered(Commit(w, pid, via, next))
  {
    hide Outstanding, Writes;
  }

  lemma InsertDelivers(w: World, pid: Pid, id: Id, row: Row, next: Proc)
    requires Delivered(w) && pid in w.procs && !next.Claim?
    ensures Delivered(Insert(w, pid, id, row, next))
  {
    hide Outstanding;
  }

  lemma HandleDelivers(w: World, pid: Pid, loop: Loop, todo: seq<Id>)
    requires Delivered(w) && pid in w.procs && todo != [] && w.procs[pid] == Claim(Handling(loop, todo))
    requires AppliedOk(Handle(w, pid, loop, todo))
    ensures Delivered(Handle(w, pid, loop, todo))
  {
    hide Handled, Recent, Remember;
    var v := Handle(w, pid, loop, todo);
    assert v.applied == w.applied + [todo[0]];
    assert todo == [todo[0]] + todo[1..];
  }

  lemma StepDelivers(w: World, s: Step)
    requires Inv(w) && Delivered(w)
    ensures Delivered(Apply(w, s))
  {
    hide TableOk, KeysUnique, ProcsOk, Disjoint, EntriesOk, NoticesOk, Handled, Delivered, StepOf, Commit, Insert,
        Handle,
        StillOwes;
    StepKeeps(w, s);
    match s
    case Tick(now) => TickDelivers(w, now);
    case Spawn(pid, start) => if pid !in w.procs && Starting(start) { GoDelivers(w, pid, start); }
    case Kill(pid) => if pid in w.procs { KillOwes(w.procs[pid]); GoDelivers(w, pid, Dead); }
    case Advance(pid, c) =>
      if pid in w.procs {
        MovesOwe(w, pid, w.procs[pid], c);
        match StepOf(w, pid, w.procs[pid], c)
        case Stay =>
        case Move(next) => GoDelivers(w, pid, next);
        case Tell(next, n) =>
          GoDelivers(w, pid, next);
          TellDelivers(Go(w, pid, next), n);
        case Publish(via, next) => CommitDelivers(w, pid, via, next);
        case Add(id, row, next) => InsertDelivers(w, pid, id, row, next);
        case Take(loop, todo) => HandleDelivers(w, pid, loop, todo);
      }
  }

  lemma KillOwes(p: Proc)
    ensures StillOwes(p, Dead)
  { }

  lemma TickDelivers(w: World, now: Time)
    requires Delivered(w)
    ensures Delivered(w.(clock := now))
  { }

  lemma TellDelivers(w: World, n: Notice)
    requires Delivered(w)
    ensures Delivered(w.(notices := w.notices + [n]))
  { }

  lemma {:induction false} RunDelivers(w: World, steps: seq<Step>)
    requires Inv(w) && Delivered(w)
    ensures Inv(Run(w, steps)) && Delivered(Run(w, steps))
    decreases |steps|
  {
    hide Inv, Apply, Delivered;
    if steps != [] {
      StepKeeps(w, steps[0]);
      StepDelivers(w, steps[0]);
      RunDelivers(Apply(w, steps[0]), steps[1..]);
    }
  }

  lemma InitDelivers(clock: Time)
    ensures Inv(Init(clock)) && Delivered(Init(clock))
  { }

  /** A claim's answer lists every command the call has dispatched; without a crash none is lost on the way. */
  lemma ClaimReturnsAll(clock: Time, steps: seq<Step>, pid: Pid, id: Id, i: nat)
    requires var w := Run(Init(clock), steps);
             && pid in w.procs && w.procs[pid].Claim?
             && id in w.hist && i < |w.hist[id]| && w.hist[id][i].writer == pid
    ensures var s := Run(Init(clock), steps).procs[pid].claim;
            && (s.ClaimReturned? ==> id in s.claimed)
            && (s.Handling? ==> id in s.claimed || id in Run(Init(clock), steps).applied)
  {
    hide TableOk, KeysUnique, ProcsOk, Disjoint, NoticesOk, AppliedOk, Run;
    InitDelivers(clock);
    RunDelivers(Init(clock), steps);
    var w := Run(Init(clock), steps);
    assert EntryOk(w.procs, id, w.hist[id][i]);
  }

  /** The loop returns only when nothing is PENDING for its robot. */
  lemma ClaimLeavesNonePending(w: World, pid: Pid, c: Choice, robot: int, claimed: seq<Id>)
    requires pid in w.procs && w.procs[pid] == Claim(ClaimLoop(robot, claimed))
    requires pid in Apply(w, Advance(pid, c)).procs
    requires var p := Apply(w, Advance(pid, c)).procs[pid]; p.Claim? && p.claim.ClaimReturned?
    ensures forall id :: id in w.table && w.table[id].robot == robot ==> w.table[id].status != Pending
    ensures Apply(w, Advance(pid, c)).procs[pid].claim.claimed == claimed
  {
    hide Oldest;
    forall id | id in w.table && w.table[id].robot == robot ensures w.table[id].status != Pending {
      assert id !in PendingFor(w.table, robot);
    }
  }

  // ----- what was committed is announced

  ghost predicate Told(notices: seq<Notice>, id: Id) {
    exists k :: 0 <= k < |notices| && notices[k].id == id
  }

  /** The request has a broadcast about the command still to send. */
  ghost predicate WillTell(p: Proc, id: Id) {
    match p
    case Create(CreateAnnounce(_, _, id')) => id' == id
    case Patch(PatchCommitted(id', _)) => id' == id
    case Patch(PatchAnnounce(id', _, _)) => id' == id
    case Claim(ClaimCommitted(_, _, id')) => id' == id
    case Scan(ScanAnnounce(todo)) => id in todo
    case _ => false
  }

  ghost predicate Announced(w: World) {
    forall id, i :: id in w.hist && 0 <= i < |w.hist[id]| && w.hist[id][i].writer in w.procs ==>
      var p := w.procs[w.hist[id][i].writer];
      p == Dead || WillTell(p, id) || Told(w.notices, id)
  }

  lemma ToldMore(notices: seq<Notice>, n: Notice, id: Id)
    requires Told(notices, id) || n.id == id
    ensures Told(notices + [n], id)
  {
    if Told(notices, id) {
      var k :| 0 <= k < |notices| && notices[k].id == id;
      assert (notices + [n])[k].id == id;
    } else {
      assert (notices + [n])[|notices|].id == id;
    }
  }

  /** What each step owes to its listeners. */
  lemma MovesTell(w: World, pid: Pid, p: Proc, c: Choice)
    requires ProcOk(w.table, w.hist, pid, p) && w.table.Keys == w.hist.Keys
    ensures match StepOf(w, pid, p, c)
            case Move(next) => forall id :: WillTell(p, id) ==> WillTell(next, id)
            case Tell(next, n) => forall id :: WillTell(p, id) ==> WillTell(next, id) || n.id == id
            case Publish(_, next) =>
              && (forall id :: !WillTell(p, id)) && (forall id :: id in Writes(p) ==> WillTell(next, id))
            case Add(id, _, next) => (forall id' :: !WillTell(p, id')) && WillTell(next, id)
            case Take(_, _) => forall id :: !WillTell(p, id)
            case Stay => true
  {
    hide Locked, Unused, KeyTaken, Oldest, PendingFor, Decide, WriteOk, Visited, ClaimsOk, SnapOk;
    if p.Scan? && p.scan.ScanWrite? { HitsTold(w, p.scan); }
    if p.Scan? && p.scan.ScanAnnounce? && p.scan.todo != [] {
      assert p.scan.todo == [p.scan.todo[0]] + p.scan.todo[1..];
    }
  }

  lemma HitsTold(w: World, s: ScanState)
    requires s.ScanWrite? && ScanOk(w.table, w.hist, s)
    ensures forall id :: id in s.writes ==> id in s.hits
  {
    hide WriteOk;
    forall id | id in s.writes ensures id in s.hits { assert id in Elements(s.hits); }
  }

  lemma GoTells(w: World, pid: Pid, next: Proc)
    requires Announced(w) && EntriesOk(w.hist, w.procs)
    requires pid in w.procs ==> next == Dead || w.procs[pid] != Dead
    requires pid in w.procs && next != Dead ==>
               forall id :: WillTell(w.procs[pid], id) ==> WillTell(next, id) || Told(w.notices, id)
    ensures Announced(Go(w, pid, next))
  {
    hide WillTell, Told, Accounts;
    forall id, i | id in w.hist && 0 <= i < |w.hist[id]| ensures EntryOk(w.procs, id, w.hist[id][i]) { }
  }

  lemma NoticeTells(w: World, n: Notice)
    requires Announced(w)
    ensures Announced(w.(notices := w.notices + [n]))
  {
    hide WillTell, Told;
    forall id | Told(w.notices, id) ensures Told(w.notices + [n], id) { ToldMore(w.notices, n, id); }
  }

  lemma CommitTells(w: World, pid: Pid, via: Via, next: Proc)
    requires Announced(w) && pid in w.procs && w.procs[pid] != Dead
    requires forall id :: !WillTell(w.procs[pid], id)
    requires forall id :: id in Writes(w.procs[pid]) ==> WillTell(next, id)
    ensures Announced(Commit(w, pid, via, next))
  {
    hide WillTell, Told, Writes;
  }

  lemma InsertTells(w: World, pid: Pid, id: Id, row: Row, next: Proc)
    requires Announced(w) && pid in w.procs && w.procs[pid] != Dead
    requires (forall id' :: !WillTell(w.procs[pid], id')) && WillTell(next, id)
    ensures Announced(Insert(w, pid, id, row, next))
  {
    hide WillTell, Told;
  }

  lemma HandleTells(w: World, pid: Pid, loop: Loop, todo: seq<Id>)
    requires Announced(w) && pid in w.procs && todo != [] && w.procs[pid] == Claim(Handling(loop, todo))
    ensures Announced(Handle(w, pid, loop, todo))
  {
    hide Told, Recent, Remember;
  }

  lemma OwnTells(w: World, pid: Pid, c: Choice)
    requires Announced(w) && EntriesOk(w.hist, w.procs) && ProcsOk(w.table, w.hist, w.procs) && pid in w.procs
    requires w.table.Keys == w.hist.Keys
    ensures Announced(Apply(w, Advance(pid, c)))
  {
    hide Announced, EntriesOk, ProcsOk, StepOf, Commit, Insert, Handle, WillTell, Told;
    ProcIsOk(w, pid);
    var p := w.procs[pid];
    MovesTell(w, pid, p, c);
    DeadStays(w, pid, c);
    MovesOwe(w, pid, p, c);
    match StepOf(w, pid, p, c)
    case Stay =>
    case Move(next) => GoTells(w, pid, next);
    case Tell(next, n) =>
      NoticeTells(w, n);
      forall id | Told(w.notices, id) || n.id == id ensures Told(w.notices + [n], id) { ToldMore(w.notices, n, id); }
      GoTells(w.(notices := w.notices + [n]), pid, next);
    case Publish(via, next) => CommitTells(w, pid, via, next);
    case Add(id, row, next) => InsertTells(w, pid, id, row, next);
    case Take(loop, todo) => HandleTells(w, pid, loop, todo);
  }

  lemma DeadStays(w: World, pid: Pid, c: Choice)
    ensures StepOf(w, pid, Dead, c) == Stay
  { }

  lemma StepTells(w: World, s: Step)
    requires Inv(w) && Announced(w)
    ensures Announced(Apply(w, s))
  {
    hide RowOk, KeysUnique, ProcsOk, Disjoint, EntriesOk, NoticesOk, AppliedOk, Announced, StepOf, Perform, WillTell,
        Told;
    match s
    case Tick(now) => ClockTells(w, now);
    case Spawn(pid, start) => if pid !in w.procs && Starting(start) { GoTells(w, pid, start); }
    case Kill(pid) => if pid in w.procs { GoTells(w, pid, Dead); }
    case Advance(pid, c) => if pid in w.procs { OwnTells(w, pid, c); }
  }

  lemma ClockTells(w: World, now: Time)
    requires Announced(w)
    ensures Announced(w.(clock := now))
  { }

  lemma {:induction false} RunTells(w: World, steps: seq<Step>)
    requires Inv(w) && Announced(w)
    ensures Inv(Run(w, steps)) && Announced(Run(w, steps))
    decreases |steps|
  {
    hide Inv, Apply, Announced;
    if steps != [] {
      StepKeeps(w, steps[0]);
      StepTells(w, steps[0]);
      RunTells(Apply(w, steps[0]), steps[1..]);
    }
  }

  lemma InitTells(clock: Time)
    ensures Announced(Init(clock))
  { }

  /** A request that has finished without a crash has broadcast something about every command it changed. */
  lemma CommitsAnnounced(clock: Time, steps: seq<Step>, id: Id, i: nat)
    requires var w := Run(Init(clock), steps);
             && id in w.hist && i < |w.hist[id]| && w.hist[id][i].writer in w.procs
             && var p := w.procs[w.hist[id][i].writer];
                || (p.Create? && p.create.CreateEnd?) || (p.Patch? && p.patch.PatchEnd?)
                || (p.Claim? && (p.claim.ClaimReturned? || p.claim.Handling?)) || (p.Scan? && p.scan.ScanEnd?)
    ensures var w := Run(Init(clock), steps); exists k :: 0 <= k < |w.notices| && w.notices[k].id == id
  {
    hide Inv, Run;
    InitDelivers(clock);
    InitTells(clock);
    RunTells(Init(clock), steps);
    assert Told(Run(Init(clock), steps).notices, id);
  }

  // ----- a scan leaves nothing overdue alive

  /** A command the scan is responsible for: still to be looked at, privately expired, or terminal. */
  ghost predicate Covered(w: World, pid: Pid, id: Id) {
    && pid in w.procs && id in w.table
    && match w.procs[pid]
       case Scan(ScanWrite(_, _, todo, _, writes)) => id in todo || id in writes || Terminal(w.table[id].status)
       case Scan(ScanAnnounce(_)) => Terminal(w.table[id].status)
       case Scan(ScanEnd) => Terminal(w.table[id].status)
       case Dead => true
       case _ => false
  }

  /** Terminal rows do not change. */
  lemma TerminalStays(w: World, v: World, id: Id)
    requires TableOk(w.table, w.hist) && TableOk(v.table, v.hist) && Later(w, v) && id in w.table
    ensures id in v.table && (Terminal(w.table[id].status) ==> v.table[id] == w.table[id])
  {
    hide RowOk;
    if Terminal(w.table[id].status) { TerminalStuck(w.table[id], w.hist[id], v.table[id], v.hist[id]); }
  }

  lemma ScanCommitCovers(w: World, pid: Pid, s: ScanState, next: Proc, id: Id)
    requires pid in w.procs && w.procs[pid] == Scan(s) && s.ScanWrite? && s.todo == []
    requires ScanOk(w.table, w.hist, s) && Covered(w, pid, id)
    ensures var v := Commit(w, pid, ViaScan, next); id in v.table && Terminal(v.table[id].status)
  {
    hide WriteOk, HasVisited;
  }

  lemma ScanHeadCovers(w: World, pid: Pid, s: ScanState, c: Choice, id: Id)
    requires pid in w.procs && w.procs[pid] == Scan(s) && s.ScanWrite? && s.todo != [] && Covered(w, pid, id)
    ensures Covered(Apply(w, Advance(pid, c)), pid, id)
  {
    hide Locked;
    assert s.todo == [s.todo[0]] + s.todo[1..];
  }

  lemma OwnScanCovers(w: World, pid: Pid, c: Choice, id: Id)
    requires ProcsOk(w.table, w.hist, w.procs) && Covered(w, pid, id)
    ensures Covered(Apply(w, Advance(pid, c)), pid, id)
  {
    hide ProcsOk, Commit, WriteOk, HasVisited, Locked;
    assert ProcOk(w.table, w.hist, pid, w.procs[pid]) by { ProcIsOk(w, pid); }
    if w.procs[pid].Scan? {
      var s := w.procs[pid].scan;
      if s.ScanWrite? && s.todo != [] { ScanHeadCovers(w, pid, s, c, id); }
      else if s.ScanWrite? {
        ScanCommitCovers(w, pid, s, Scan(ScanAnnounce(s.hits)), id);
        CommitSets(w, pid, ViaScan, Scan(ScanAnnounce(s.hits)));
      }
    }
  }

  lemma ProcIsOk(w: World, pid: Pid)
    requires ProcsOk(w.table, w.hist, w.procs) && pid in w.procs
    ensures ProcOk(w.table, w.hist, pid, w.procs[pid])
  { }

  lemma CommitSets(w: World, pid: Pid, via: Via, next: Proc)
    requires pid in w.procs
    ensures pid in Commit(w, pid, via, next).procs && Commit(w, pid, via, next).procs[pid] == next
  { }

  lemma StepCovers(w: World, s: Step, pid: Pid, id: Id)
    requires Inv(w) && Covered(w, pid, id)
    ensures Covered(Apply(w, s), pid, id)
  {
    hide TableOk, KeysUnique, ProcsOk, Disjoint, EntriesOk, NoticesOk, AppliedOk, StepOf, Perform, Later;
    if s.Advance? && s.pid == pid { OwnScanCovers(w, pid, s.choice, id); }
    else {
      StepKeeps(w, s);
      StepLater(w, s);
      TerminalStays(w, Apply(w, s), id);
      if s.Advance? && s.pid in w.procs { PerformElsewhere(w, s.pid, StepOf(w, s.pid, w.procs[s.pid], s.choice), pid); }
    }
  }

  lemma {:induction false} RunCovers(w: World, steps: seq<Step>, pid: Pid, id: Id)
    requires Inv(w) && Covered(w, pid, id)
    ensures Covered(Run(w, steps), pid, id)
    decreases |steps|
  {
    hide Inv, Apply, Covered;
    if steps != [] {
      StepKeeps(w, steps[0]);
      StepCovers(w, steps[0], pid, id);
      RunCovers(Apply(w, steps[0]), steps[1..], pid, id);
    }
  }

  lemma SelectCovers(w: World, pid: Pid, now: Time, ids: seq<Id>, id: Id)
    requires pid in w.procs && w.procs[pid] == Scan(ScanStamped(now))
    requires pid in Apply(w, Advance(pid, Rows(ids))).procs
    requires var p := Apply(w, Advance(pid, Rows(ids))).procs[pid]; p.Scan? && p.scan.ScanWrite?
    requires id in w.table && w.table[id].expires.Some? && w.table[id].expires.value < now &&
        !Terminal(w.table[id].status)
    ensures Covered(Apply(w, Advance(pid, Rows(ids))), pid, id)
  {
    assert id in Expired(w.table, now);
    assert id in Elements(ids);
  }

  /** Whatever was overdue and alive when a scan selected is terminal once the scan has committed or found no hit. */
  lemma ScanFinishes(clock: Time, before: seq<Step>, pid: Pid, now: Time, ids: seq<Id>, after: seq<Step>, id: Id)
    requires var w := Run(Init(clock), before);
             && pid in w.procs && w.procs[pid] == Scan(ScanStamped(now))
             && id in w.table && w.table[id].expires.Some? && w.table[id].expires.value < now &&
                 !Terminal(w.table[id].status)
    requires var v := Apply(Run(Init(clock), before), Advance(pid, Rows(ids)));
             pid in v.procs && v.procs[pid].Scan? && v.procs[pid].scan.ScanWrite?
    requires var u := Run(Apply(Run(Init(clock), before), Advance(pid, Rows(ids))), after);
             pid in u.procs && u.procs[pid].Scan? && !u.procs[pid].scan.ScanWrite?
    ensures var u := Run(Apply(Run(Init(clock), before), Advance(pid, Rows(ids))), after);
            id in u.table && Terminal(u.table[id].status)
  {
    hide Inv, Run, Apply;
    var w := Run(Init(clock), before);
    Reachable(clock, before);
    SelectCovers(w, pid, now, ids, id);
    StepKeeps(w, Advance(pid, Rows(ids)));
    RunCovers(Apply(w, Advance(pid, Rows(ids))), after, pid, id);
  }

  // ----- a refusal has a reason

  /** At some moment the command had a status from which the requested one may not be entered. */
  ghost predicate Barred(hist: History, id: Id, to: Status) {
    id in hist && exists i :: 0 <= i < |hist[id]| && hist[id][i].status != to && !Allowed(hist[id][i].status, to)
  }

  /** It had a status from which the requested one may be entered, and has left it. */
  ghost predicate Overtaken(hist: History, id: Id, to: Status) {
    id in hist && exists i :: 0 <= i < |hist[id]| - 1 && Allowed(hist[id][i].status, to)
  }

  /** After such a status it had another one than the requested. */
  ghost predicate Contradicted(hist: History, id: Id, to: Status) {
    id in hist &&
    exists i, j :: 0 <= i < j < |hist[id]| && Allowed(hist[id][i].status, to) && hist[id][j].status != to
  }

  ghost predicate Justified(hist: History, s: PatchState) {
    match s
    case PatchRead(id, _, seen) => HasVisited(hist, id, seen.status)
    case PatchReady(id, _, seen, _) => HasVisited(hist, id, seen.status)
    case PatchMissed(id, req) => Overtaken(hist, id, req.status)
    case PatchEnd(id, req, Invalid) => Barred(hist, id, req.status)
    case PatchEnd(id, req, Conflict) => Contradicted(hist, id, req.status)
    case _ => true
  }

  ghost predicate AllJustified(w: World) {
    forall pid :: pid in w.procs && w.procs[pid].Patch? ==> Justified(w.hist, w.procs[pid].patch)
  }

  lemma JustifiedStays(h: History, h': History, s: PatchState)
    requires Justified(h, s) && forall id :: id in h ==> id in h' && h[id] <= h'[id]
    ensures Justified(h', s)
  {
    hide Allowed;
  }

  lemma ReadDecides(w: World, s: PatchState)
    requires s.PatchRead? && Justified(w.hist, s)
    ensures Justified(w.hist, Decide(s.id, s.req, s.seen, w.clock))
  {
    var i :| 0 <= i < |w.hist[s.id]| && w.hist[s.id][i].status == s.seen.status;
    if Terminal(s.seen.status) { TerminalAllowsNothing(s.seen.status, s.req.status); }
  }

  lemma TerminalAllowsNothing(from: Status, to: Status)
    requires Terminal(from)
    ensures !Allowed(from, to)
  { }

  lemma MissOvertaken(w: World, s: PatchState)
    requires TableOk(w.table, w.hist) && s.PatchReady? && PatchOk(w.table, w.hist, s) && Justified(w.hist, s)
    requires w.table[s.id].status != s.seen.status
    ensures Overtaken(w.hist, s.id, s.req.status)
  {
    hide Allowed;
    var h := w.hist[s.id];
    assert RowOk(w.table[s.id], h);
    var i :| 0 <= i < |h| && h[i].status == s.seen.status;
    assert i < |h| - 1;
  }

  lemma MissContradicted(w: World, s: PatchState)
    requires TableOk(w.table, w.hist) && s.PatchMissed? && PatchOk(w.table, w.hist, s) && Justified(w.hist, s)
    requires w.table[s.id].status != s.req.status
    ensures Contradicted(w.hist, s.id, s.req.status)
  {
    hide Allowed;
    var h := w.hist[s.id];
    assert RowOk(w.table[s.id], h);
    var i :| 0 <= i < |h| - 1 && Allowed(h[i].status, s.req.status);
    assert h[|h| - 1].status != s.req.status;
  }

  lemma PatchJustifies(w: World, pid: Pid, s: PatchState)
    requires TableOk(w.table, w.hist) && PatchOk(w.table, w.hist, s) && Justified(w.hist, s)
    ensures match PatchStep(w, pid, s)
            case Move(next) => next.Patch? && Justified(w.hist, next.patch)
            case Tell(next, _) => next.Patch? && Justified(w.hist, next.patch)
            case Publish(_, next) => next == Patch(PatchCommitted(s.id, s.req))
            case e => e.Stay?
  {
    hide TableOk, Allowed, Locked, Decide, Overtaken, Barred, Contradicted, WriteOk;
    match s
    case PatchStart(id, _) => if id in w.table { NowVisited(w, id); }
    case PatchRead(_, _, _) => ReadDecides(w, s);
    case PatchReady(id, _, seen, _) => if w.table[id].status != seen.status { MissOvertaken(w, s); }
    case PatchMissed(id, req) => if w.table[id].status != req.status { MissContradicted(w, s); }
    case _ =>
  }

  lemma OthersJustified(w: World, v: World, pid: Pid)
    requires AllJustified(w) && Later(w, v)
    requires forall q :: q in v.procs && q != pid ==> q in w.procs && v.procs[q] == w.procs[q]
    requires pid in v.procs && v.procs[pid].Patch? ==> Justified(v.hist, v.procs[pid].patch)
    ensures AllJustified(v)
  {
    hide Justified;
    forall q | q in v.procs && q != pid && v.procs[q].Patch? ensures Justified(v.hist, v.procs[q].patch) {
      JustifiedStays(w.hist, v.hist, v.procs[q].patch);
    }
  }

  /** Only requests that were PATCHes before are PATCHes afterwards. */
  lemma KindStays(w: World, pid: Pid, p: Proc, c: Choice)
    requires !p.Patch?
    ensures match StepOf(w, pid, p, c)
            case Move(next) => !next.Patch?
            case Tell(next, _) => !next.Patch?
            case Publish(_, next) => !next.Patch?
            case Add(_, _, next) => !next.Patch?
            case _ => true
  {
    hide Locked, Unused, KeyTaken, Oldest, PendingFor, Decide;
  }

  lemma TakeKind(w: World, pid: Pid, loop: Loop, todo: seq<Id>)
    requires pid in w.procs && todo != []
    ensures var v := Handle(w, pid, loop, todo); pid in v.procs && !v.procs[pid].Patch?
  { }

  lemma OwnJustified(w: World, pid: Pid, c: Choice)
    requires TableOk(w.table, w.hist) && ProcsOk(w.table, w.hist, w.procs) && AllJustified(w) && pid in w.procs
    ensures var v := Apply(w, Advance(pid, c));
            pid in v.procs && (v == w || (v.procs[pid].Patch? ==> Justified(v.hist, v.procs[pid].patch)))
  {
    hide TableOk, ProcsOk, StepOf, Perform, Justified, Commit, Insert, Handle;
    ProcIsOk(w, pid);
    var p := w.procs[pid];
    var e := StepOf(w, pid, p, c);
    PerformHere(w, pid, e);
    if p.Patch? {
      assert e == PatchStep(w, pid, p.patch) by { PatchSteps(w, pid, p.patch, c); }
      PatchJustifies(w, pid, p.patch);
      QuietHist(w, pid, e);
      CommittedJustified(Apply(w, Advance(pid, c)).hist, p.patch.id, p.patch.req);
    } else {
      KindStays(w, pid, p, c);
      MovesOwe(w, pid, p, c);
      if e.Take? && e.todo != [] { TakeKind(w, pid, e.loop, e.todo); TakePerforms(w, pid, e); }
    }
  }

  lemma PatchSteps(w: World, pid: Pid, s: PatchState, c: Choice)
    ensures StepOf(w, pid, Patch(s), c) == PatchStep(w, pid, s)
  { }

  lemma QuietHist(w: World, pid: Pid, e: Effect)
    requires pid in w.procs
    ensures e.Move? || e.Tell? || e.Stay? ==> Perform(w, pid, e).hist == w.hist
  { }

  lemma CommittedJustified(h: History, id: Id, req: UpdateRequest)
    ensures Justified(h, PatchCommitted(id, req))
  { }

  lemma TakePerforms(w: World, pid: Pid, e: Effect)
    requires pid in w.procs && e.Take? && e.todo != []
    ensures Perform(w, pid, e) == Handle(w, pid, e.loop, e.todo)
  { }

  lemma StepJustifies(w: World, s: Step)
    requires Inv(w) && AllJustified(w)
    ensures AllJustified(Apply(w, s))
  {
    hide TableOk, KeysUnique, ProcsOk, Disjoint, EntriesOk, NoticesOk, AppliedOk, StepOf, Perform, Later, Justified,
        AllJustified;
    StepLater(w, s);
    var v := Apply(w, s);
    match s
    case Tick(_) => SameJustified(w, v);
    case Spawn(pid, start) =>
      if pid !in w.procs && Starting(start) { StartJustified(w.hist, start); OthersJustified(w, v, pid); }
    case Kill(pid) => if pid in w.procs { OthersJustified(w, v, pid); }
    case Advance(pid, c) =>
      if pid in w.procs && v != w {
        OwnJustified(w, pid, c);
        var e := StepOf(w, pid, w.procs[pid], c);
        PerformOthers(w, pid, e);
        OthersJustified(w, v, pid);
      }
  }

  lemma StartJustified(h: History, start: Proc)
    requires Starting(start)
    ensures start.Patch? ==> Justified(h, start.patch)
  { }

  lemma SameJustified(w: World, v: World)
    requires AllJustified(w) && v.procs == w.procs && v.hist == w.hist
    ensures AllJustified(v)
  { }

  lemma PerformOthers(w: World, pid: Pid, e: Effect)
    requires pid in w.procs
    ensures forall q :: q in Perform(w, pid, e).procs && q != pid ==>
        q in w.procs && Perform(w, pid, e).procs[q] == w.procs[q]
  { }

  lemma {:induction false} RunJustifies(w: World, steps: seq<Step>)
    requires Inv(w) && AllJustified(w)
    ensures AllJustified(Run(w, steps))
    decreases |steps|
  {
    hide Inv, Apply, AllJustified;
    if steps != [] {
      StepKeeps(w, steps[0]);
      StepJustifies(w, steps[0]);
      RunJustifies(Apply(w, steps[0]), steps[1..]);
    }
  }

  /**
  A 400 means that the command has had a status from which the requested one may not be entered; a 409 that it
  had one from which it may, and then another than the requested.
  */
  lemma HonestRefusals(clock: Time, steps: seq<Step>, pid: Pid)
    requires var w := Run(Init(clock), steps); pid in w.procs && w.procs[pid].Patch? && w.procs[pid].patch.PatchEnd?
    ensures var w := Run(Init(clock), steps);
            var s := w.procs[pid].patch;
            && (s.answer.Invalid? || s.answer.Conflict? ==> s.id in w.hist)
            && (s.answer.Invalid? ==>
                  exists i :: 0 <= i < |w.hist[s.id]| && w.hist[s.id][i].status != s.req.status &&
                    !Allowed(w.hist[s.id][i].status, s.req.status))
            && (s.answer.Conflict? ==>
                  exists i, j :: 0 <= i < j < |w.hist[s.id]| && Allowed(w.hist[s.id][i].status, s.req.status) &&
                    w.hist[s.id][j].status != s.req.status)
  {
    hide Run, Inv;
    Reachable(clock, []);
    InitJustified(clock);
    RunJustifies(Init(clock), steps);
  }

  lemma InitJustified(clock: Time)
    ensures Inv(Init(clock)) && AllJustified(Init(clock))
  { }

  /** The lookup answers 404 exactly if there is no such command. */
  lemma LookupExact(w: World, pid: Pid, id: Id, req: UpdateRequest, c: Choice)
    requires pid in w.procs && w.procs[pid] == Patch(PatchStart(id, req))
    ensures var v := Apply(w, Advance(pid, c));
            && pid in v.procs && v.table == w.table
            && v.procs[pid] == Patch(if id in w.table then PatchRead(id, req, w.table[id])
                                     else PatchEnd(id, req, NotFound))
  { }

  // ----- deadlines

  /** No deadline without a timeout, and a timeout of zero is none. */
  ghost predicate Timed(row: Row) {
    row.expires == if row.timeout.Some? && row.timeout.value != 0 then Some(row.created + row.timeout.value) else None
  }

  lemma StepTimed(w: World, s: Step)
    requires Inv(w) && forall id :: id in w.table ==> Timed(w.table[id])
    ensures var v := Apply(w, s); forall id :: id in v.table ==> Timed(v.table[id])
  {
    hide TableOk, KeysUnique, ProcsOk, Disjoint, EntriesOk, NoticesOk, AppliedOk, StepOf, Later, Apply, Timed;
    StepLater(w, s);
    var v := Apply(w, s);
    forall id | id in v.table ensures Timed(v.table[id]) {
      if id in w.table { TimedStays(w, v, id); }
      else { NewRowTimed(w, s, id); }
    }
  }

  lemma TimedStays(w: World, v: World, id: Id)
    requires Later(w, v) && id in w.table && Timed(w.table[id])
    ensures id in v.table && Timed(v.table[id])
  { }

  lemma NewRowTimed(w: World, s: Step, id: Id)
    requires Inv(w) && id !in w.table && id in Apply(w, s).table
    ensures Timed(Apply(w, s).table[id])
  {
    hide KeysUnique, ProcsOk, TableOk, Disjoint, EntriesOk, NoticesOk, AppliedOk, StepOf, Commit, Timed, Handle;
    assert s.Advance? && s.pid in w.procs;
    var p := w.procs[s.pid];
    var e := StepOf(w, s.pid, p, s.choice);
    ProcIsOk(w, s.pid);
    match e
    case Publish(via, next) => CommitAddsNone(w, s.pid, via, next);
    case Add(_, _, _) => AddedTimed(w, s.pid, s.choice);
    case Take(loop, todo) => if todo != [] { HandleAddsNone(w, s.pid, loop, todo); }
    case _ =>
  }

  lemma CommitAddsNone(w: World, pid: Pid, via: Via, next: Proc)
    requires ProcsOk(w.table, w.hist, w.procs) && pid in w.procs
    ensures Commit(w, pid, via, next).table.Keys == w.table.Keys
  {
    hide ProcsOk;
    AllOpenWritesLegal(w, pid);
  }

  lemma HandleAddsNone(w: World, pid: Pid, loop: Loop, todo: seq<Id>)
    requires todo != []
    ensures Handle(w, pid, loop, todo).table == w.table
  { }

  lemma AddedTimed(w: World, pid: Pid, c: Choice)
    requires pid in w.procs && ProcOk(w.table, w.hist, pid, w.procs[pid]) && StepOf(w, pid, w.procs[pid], c).Add?
    ensures Timed(StepOf(w, pid, w.procs[pid], c).row)
  {
    hide Locked, Unused, KeyTaken;
  }

  lemma {:induction false} RunTimed(w: World, steps: seq<Step>)
    requires Inv(w) && forall id :: id in w.table ==> Timed(w.table[id])
    ensures forall id :: id in Run(w, steps).table ==> Timed(Run(w, steps).table[id])
    decreases |steps|
  {
    hide Inv, Apply, Timed;
    if steps != [] {
      StepKeeps(w, steps[0]);
      StepTimed(w, steps[0]);
      RunTimed(Apply(w, steps[0]), steps[1..]);
    }
  }

  /** Every command's deadline is its creation plus its timeout, in every run. */
  lemma DeadlineFixed(clock: Time, steps: seq<Step>, id: Id)
    requires id in Run(Init(clock), steps).table
    ensures var row := Run(Init(clock), steps).table[id];
            row.expires == if row.timeout.Some? && row.timeout.value != 0
                           then Some(row.created + row.timeout.value) else None
  {
    hide Run, Inv;
    Reachable(clock, []);
    InitJustified(clock);
    RunTimed(Init(clock), steps);
  }

  // ----- nobody is stuck

  ghost predicate Finished(p: Proc) {
    match p
    case Create(s) => s.CreateEnd?
    case Patch(s) => s.PatchEnd?
    case Claim(s) => s.Handling? && s.claimed == []
    case Scan(s) => s.ScanEnd?
    case Dead => true
  }

  /** The row a request is about to update. */
  ghost function Wanted(p: Proc): Option<Id> {
    match p
    case Patch(PatchReady(id, _, _, _)) => Some(id)
    case Claim(ClaimReady(_, _, id, _, _)) => Some(id)
    case Scan(ScanWrite(_, _, todo, _, _)) => if todo == [] then None else Some(todo[0])
    case _ => None
  }

  lemma {:induction false} Listed(ids: set<Id>) returns (s: seq<Id>)
    ensures Distinct(s) && Elements(s) == ids
    decreases |ids|
  {
    if ids == {} { s := []; }
    else {
      var x :| x in ids;
      var rest := Listed(ids - {x});
      assert x !in Elements(rest);
      s := [x] + rest;
      assert Elements(s) == {x} + Elements(rest) == ids;
    }
  }

  lemma MovesOn(w: World, pid: Pid, c: Choice)
    requires pid in w.procs
    requires match StepOf(w, pid, w.procs[pid], c)
             case Move(next) => next != w.procs[pid]
             case Tell(next, _) => next != w.procs[pid]
             case Publish(_, next) => next != w.procs[pid]
             case Add(_, _, next) => next != w.procs[pid]
             case Take(loop, todo) => todo != [] && w.procs[pid] == Claim(Handling(loop, todo))
             case Stay => false
    ensures Apply(w, Advance(pid, c)) != w
  {
    hide StepOf, Commit, Insert;
    var e := StepOf(w, pid, w.procs[pid], c);
    PerformHere(w, pid, e);
    if e.Take? { Shortened(w, pid, e.loop, e.todo); }
  }

  lemma Shortened(w: World, pid: Pid, loop: Loop, todo: seq<Id>)
    requires pid in w.procs && todo != []
    ensures var v := Handle(w, pid, loop, todo); pid in v.procs && v.procs[pid] == Claim(Handling(loop, todo[1..]))
  { }

  lemma CreateAdvances(w: World, pid: Pid, s: CreateState, fresh': Id) returns (c: Choice)
    requires pid in w.procs && w.procs[pid] == Create(s) && !s.CreateEnd? && (s.CreateStart? ==> Unused(w, fresh'))
    ensures Apply(w, Advance(pid, c)) != w
  {
    hide Unused, KeyTaken;
    c := if s.CreateStart? then FreshId(fresh') else Plain;
    if s.CreateLookup? {
      if id :| id in w.table && Matches(w.table[id], s.robot, s.req.key) { c := Pick(id); }
    }
    MovesOn(w, pid, c);
  }

  lemma PatchAdvances(w: World, pid: Pid, s: PatchState)
    requires pid in w.procs && w.procs[pid] == Patch(s) && !s.PatchEnd? && (s.PatchReady? ==> !Locked(w, pid, s.id))
    ensures Apply(w, Advance(pid, Plain)) != w
  {
    hide Locked;
    MovesOn(w, pid, Plain);
  }

  lemma ScanAdvances(w: World, pid: Pid, s: ScanState) returns (c: Choice)
    requires pid in w.procs && w.procs[pid] == Scan(s) && !s.ScanEnd?
    requires s.ScanWrite? && s.todo != [] ==> !Locked(w, pid, s.todo[0])
    ensures Apply(w, Advance(pid, c)) != w
  {
    hide Locked, Expired;
    c := Plain;
    if s.ScanStamped? {
      var ids := Listed(Expired(w.table, s.now));
      c := Rows(ids);
    }
    MovesOn(w, pid, c);
  }

  /** Every unfinished request whose row is not locked by another transaction has a step to take. */
  lemma NobodyStuck(w: World, pid: Pid, fresh': Id) returns (c: Choice)
    requires pid in w.procs && !Finished(w.procs[pid]) && Unused(w, fresh')
    requires Wanted(w.procs[pid]).Some? ==> !Locked(w, pid, Wanted(w.procs[pid]).value)
    ensures Apply(w, Advance(pid, c)) != w
  {
    hide Unused, Locked, Apply;
    match w.procs[pid]
    case Create(s) => c := CreateAdvances(w, pid, s, fresh');
    case Patch(s) => PatchAdvances(w, pid, s); c := Plain;
    case Scan(s) => c := ScanAdvances(w, pid, s);
    case Claim(s) =>
      if Looping(w.procs[pid]) { c := ClaimNeverStuck(w, pid); }
      else {
        c := if s.ClaimReturned? then DeliverTo(0) else Plain;
        MovesOn(w, pid, c);
      }
  }
}
