/** Every step keeps the invariant, so every run does. */
module CommandRuns {
  import opened Prelude
  import opened CommandModel
  import opened CommandProtocol
  import opened CommandSafety

  ghost predicate EffectOk(w: World, pid: Pid, e: Effect)
    requires pid in w.procs
  {
    match e
    case Stay => true
    case Move(next) => MoveOk(w, pid, next)
    case Tell(next, notice) => MoveOk(w, pid, next) && HasVisited(w.hist, notice.id, notice.status)
    case Publish(via, next) => CommitOk(w, pid, via, next)
    case Add(id, row, next) => AddOk(w, pid, id, row, next)
    case Take(loop, todo) => todo != [] && w.procs[pid] == Claim(Handling(loop, todo))
  }

  ghost predicate AddOk(w: World, pid: Pid, id: Id, row: Row, next: Proc)
    requires pid in w.procs
  {
    match w.procs[pid]
    case Create(CreateInsert(robot, req, id', row')) =>
      id == id' && row == row' && next == Create(CreateAnnounce(robot, req, id)) && !KeyTaken(w.table, robot, req.key)
    case _ => false
  }

  /** A move that takes no lock, forgets no commit and adds no claim. */
  ghost predicate Quiet(p: Proc, next: Proc) {
    && Writes(next) == map[] && (forall id :: !Drew(next, id))
    && (forall id, e :: Accounts(p, id, e) ==> Accounts(next, id, e))
    && (forall id :: id in Outstanding(next) ==> id in Outstanding(p))
  }

  lemma QuietMove(w: World, pid: Pid, next: Proc)
    requires EntriesOk(w.hist, w.procs) && pid in w.procs
    requires Quiet(w.procs[pid], next) && ProcOk(w.table, w.hist, pid, next)
    ensures MoveOk(w, pid, next)
  {
    hide ProcOk;
    AccountsStay(w, pid, next);
  }

  lemma NowVisited(w: World, id: Id)
    requires TableOk(w.table, w.hist) && id in w.table
    ensures HasVisited(w.hist, id, w.table[id].status) && HasVisited(w.hist, id, Pending)
  {
    assert RowOk(w.table[id], w.hist[id]);
  }

  lemma PendingIsShort(w: World, id: Id)
    requires TableOk(w.table, w.hist) && id in w.table && w.table[id].status == Pending
    ensures |w.hist[id]| == 1
  {
    var h := w.hist[id];
    assert RowOk(w.table[id], h);
    if |h| > 1 { PathClimbs(h, 0, |h| - 1); }
  }

  // ----- what each state of each kind of process does is sound

  ghost predicate At(w: World, pid: Pid, p: Proc) {
    pid in w.procs && w.procs[pid] == p && TableOk(w.table, w.hist) && EntriesOk(w.hist, w.procs)
  }

  lemma DrawSound(w: World, pid: Pid, robot: int, req: CreateRequest, id: Id)
    requires At(w, pid, Create(CreateStart(robot, req))) && Unused(w, id)
    ensures MoveOk(w, pid, Create(CreateInsert(robot, req, id, NewRow(robot, req, w.clock))))
  {
    hide TableOk;
    AccountsStay(w, pid, Create(CreateInsert(robot, req, id, NewRow(robot, req, w.clock))));
  }

  lemma CreateSound(w: World, pid: Pid, s: CreateState, c: Choice)
    requires At(w, pid, Create(s)) && CreateOk(w.table, s)
    ensures EffectOk(w, pid, CreateStep(w, s, c))
  {
    hide TableOk, EntriesOk, MoveOk;
    match s
    case CreateStart(robot, req) =>
      if c.FreshId? && Unused(w, c.id) { DrawSound(w, pid, robot, req, c.id); }
    case CreateInsert(robot, req, id, row) =>
      if KeyTaken(w.table, robot, req.key) { QuietMove(w, pid, Create(CreateLookup(robot, req))); }
    case CreateLookup(robot, req) =>
      if c.Pick? && c.id in w.table && Matches(w.table[c.id], robot, req.key) {
        QuietMove(w, pid, Create(CreateEnd(robot, req, Some(c.id))));
      }
    case CreateAnnounce(robot, req, id) =>
      NowVisited(w, id);
      QuietMove(w, pid, Create(CreateEnd(robot, req, Some(id))));
    case _ =>
  }

  /** The compare-and-set hits: an equal status means the row is the very row that was read. */
  lemma PatchHitSound(w: World, pid: Pid, id: Id, req: UpdateRequest, seen: Row, now: Time)
    requires At(w, pid, Patch(PatchReady(id, req, seen, now)))
    requires SnapOk(w.table, id, seen) && Allowed(seen.status, req.status)
    requires !Locked(w, pid, id) && w.table[id].status == seen.status
    ensures MoveOk(w, pid, Patch(PatchWrote(id, req, Transition(w.table[id], req, now))))
  {
    hide TableOk;
    AccountsStay(w, pid, Patch(PatchWrote(id, req, Transition(w.table[id], req, now))));
  }

  lemma PatchCommitSound(w: World, pid: Pid, id: Id, req: UpdateRequest, row: Row)
    requires At(w, pid, Patch(PatchWrote(id, req, row)))
    requires WriteOk(w.table, id, row) && row.status == req.status
    ensures CommitOk(w, pid, ViaPatch, Patch(PatchCommitted(id, req)))
  {
    hide RowOk;
    var next := Patch(PatchCommitted(id, req));
    assert Commit(w, pid, ViaPatch, next).hist[id][|w.hist[id]|].status == req.status;
    AccountsStay(w, pid, next);
  }

  lemma PatchMove(w: World, pid: Pid, s: PatchState, next: PatchState)
    requires At(w, pid, Patch(s)) && PatchOk(w.table, w.hist, next)
    requires !next.PatchWrote? && (Patched(s).None? || Patched(s) == Patched(next))
    ensures MoveOk(w, pid, Patch(next))
  {
    hide PatchOk, TableOk, EntriesOk, MoveOk;
    QuietMove(w, pid, Patch(next));
  }

  lemma PatchSees(w: World, pid: Pid, s: PatchState)
    requires At(w, pid, Patch(s))
    ensures s.id in w.table ==> HasVisited(w.hist, s.id, w.table[s.id].status)
    ensures forall t :: HasVisited(w.hist, s.id, t) ==> s.id in w.table
  {
    if s.id in w.table { NowVisited(w, s.id); }
  }

  lemma PatchSound(w: World, pid: Pid, s: PatchState)
    requires At(w, pid, Patch(s)) && PatchOk(w.table, w.hist, s)
    ensures EffectOk(w, pid, PatchStep(w, pid, s))
  {
    hide At, MoveOk, CommitOk, HasVisited;
    PatchSees(w, pid, s);
    match s
    case PatchStart(id, req) =>
      PatchMove(w, pid, s, if id in w.table then PatchRead(id, req, w.table[id]) else PatchEnd(id, req, NotFound));
    case PatchRead(id, req, seen) => PatchMove(w, pid, s, Decide(id, req, seen, w.clock));
    case PatchReady(id, req, seen, now) =>
      if !Locked(w, pid, id) {
        if w.table[id].status == seen.status { PatchHitSound(w, pid, id, req, seen, now); }
        else { PatchMove(w, pid, s, PatchMissed(id, req)); }
      }
    case PatchWrote(id, req, row) => PatchCommitSound(w, pid, id, req, row);
    case PatchMissed(id, req) =>
      PatchMove(w, pid, s, PatchEnd(id, req, if w.table[id].status == req.status then Ok(req.status) else Conflict));
    case PatchCommitted(id, req) => PatchMove(w, pid, s, PatchAnnounce(id, req, w.table[id]));
    case PatchAnnounce(id, req, seen) => PatchMove(w, pid, s, PatchEnd(id, req, Ok(seen.status)));
    case PatchEnd(_, _, _) =>
  }

  lemma ClaimMove(w: World, pid: Pid, s: ClaimState, next: ClaimState)
    requires At(w, pid, Claim(s)) && ProcOk(w.table, w.hist, pid, Claim(next))
    requires !next.ClaimWrote? && forall id :: id in Outstanding(Claim(next)) ==> id in Outstanding(Claim(s))
    ensures MoveOk(w, pid, Claim(next))
  {
    hide ProcOk, MoveOk, TableOk, EntriesOk;
    QuietMove(w, pid, Claim(next));
  }

  lemma ClaimFoundSound(w: World, pid: Pid, robot: int, claimed: seq<Id>, id: Id)
    requires At(w, pid, Claim(ClaimLoop(robot, claimed))) && ClaimsOk(w.hist, pid, claimed) &&
        Oldest(w.table, robot, id)
    ensures MoveOk(w, pid, Claim(ClaimFound(robot, claimed, id, w.table[id])))
  {
    hide MoveOk, At;
    ClaimFoundNew(w, pid, robot, claimed, id);
    ClaimMove(w, pid, ClaimLoop(robot, claimed), ClaimFound(robot, claimed, id, w.table[id]));
  }

  lemma ClaimFoundNew(w: World, pid: Pid, robot: int, claimed: seq<Id>, id: Id)
    requires At(w, pid, Claim(ClaimLoop(robot, claimed))) && ClaimsOk(w.hist, pid, claimed) &&
        Oldest(w.table, robot, id)
    ensures id !in claimed
  {
    PendingIsShort(w, id);
  }

  lemma ClaimHitSound(w: World, pid: Pid, robot: int, claimed: seq<Id>, id: Id, seen: Row, now: Time)
    requires At(w, pid, Claim(ClaimReady(robot, claimed, id, seen, now)))
    requires ClaimsOk(w.hist, pid, claimed) && id !in claimed
    requires !Locked(w, pid, id) && id in w.table && w.table[id].status == Pending
    ensures MoveOk(w, pid, Claim(ClaimWrote(robot, claimed, id, DispatchRow(w.table[id], now))))
  {
    hide TableOk;
    AccountsStay(w, pid, Claim(ClaimWrote(robot, claimed, id, DispatchRow(w.table[id], now))));
  }

  lemma ClaimCommitSound(w: World, pid: Pid, robot: int, claimed: seq<Id>, id: Id, row: Row)
    requires At(w, pid, Claim(ClaimWrote(robot, claimed, id, row)))
    requires ClaimsOk(w.hist, pid, claimed) && id !in claimed && id in w.hist && |w.hist[id]| == 1 &&
        row.status == Dispatched
    ensures CommitOk(w, pid, ViaClaim, Claim(ClaimCommitted(robot, claimed, id)))
  {
    hide TableOk, EntriesOk;
    var next := Claim(ClaimCommitted(robot, claimed, id));
    var v := Commit(w, pid, ViaClaim, next);
    assert v.hist[id][1] == Entry(Dispatched, pid, ViaClaim);
    assert forall k :: k in claimed ==> v.hist[k] == w.hist[k];
    AccountsStay(w, pid, next);
  }

  lemma ClaimSound(w: World, pid: Pid, s: ClaimState, c: Choice)
    requires At(w, pid, Claim(s)) && ProcOk(w.table, w.hist, pid, Claim(s)) && w.procs[pid] == Claim(s)
    ensures EffectOk(w, pid, ClaimStep(w, pid, s, c))
  {
    hide At, MoveOk, CommitOk, DispatchedBy;
    match s
    case ClaimLoop(robot, claimed) =>
      if c.Pick? && Oldest(w.table, robot, c.id) { ClaimFoundSound(w, pid, robot, claimed, c.id); }
      else { ClaimMove(w, pid, s, ClaimReturned(robot, claimed)); }
    case ClaimFound(robot, claimed, id, seen) => ClaimMove(w, pid, s, ClaimReady(robot, claimed, id, seen, w.clock));
    case ClaimReady(robot, claimed, id, seen, now) =>
      if !Locked(w, pid, id) && w.table[id].status == Pending { ClaimHitSound(w, pid, robot, claimed, id, seen, now); }
      else { ClaimMove(w, pid, s, ClaimLoop(robot, claimed)); }
    case ClaimWrote(robot, claimed, id, row) => ClaimWroteSound(w, pid, robot, claimed, id, row);
    case ClaimCommitted(robot, claimed, id) =>
      ClaimVisited(w, pid, claimed + [id], id);
      ClaimMove(w, pid, s, ClaimLoop(robot, claimed + [id]));
    case ClaimReturned(robot, claimed) =>
      if c.DeliverTo? { ClaimMove(w, pid, s, Handling(c.loop, claimed)); }
    case Handling(_, _) =>
  }

  lemma ClaimWroteSound(w: World, pid: Pid, robot: int, claimed: seq<Id>, id: Id, row: Row)
    requires At(w, pid, Claim(ClaimWrote(robot, claimed, id, row)))
    requires ClaimsOk(w.hist, pid, claimed) && id !in claimed && WriteOk(w.table, id, row) && row.status == Dispatched
    ensures CommitOk(w, pid, ViaClaim, Claim(ClaimCommitted(robot, claimed, id)))
  {
    hide CommitOk, RowOk, EntriesOk;
    PendingIsShort(w, id);
    ClaimCommitSound(w, pid, robot, claimed, id, row);
  }

  lemma ClaimVisited(w: World, pid: Pid, claimed: seq<Id>, id: Id)
    requires ClaimsOk(w.hist, pid, claimed) && id in claimed
    ensures HasVisited(w.hist, id, Dispatched)
  {
    assert w.hist[id][1].status == Dispatched;
  }

  lemma ScanMove(w: World, pid: Pid, s: ScanState, next: ScanState)
    requires At(w, pid, Scan(s)) && ScanOk(w.table, w.hist, next)
    requires next.ScanWrite? ==> next.writes == map[]
    requires (s.ScanAnnounce? || s.ScanEnd?) ==> (next.ScanAnnounce? || next.ScanEnd?)
    ensures MoveOk(w, pid, Scan(next))
  {
    hide ScanOk, MoveOk, TableOk, EntriesOk;
    QuietMove(w, pid, Scan(next));
  }

  /** The scanner's repeated terminal-state check: it locks the row it is about to expire. */
  lemma ScanRowSound(w: World, pid: Pid, s: ScanState, next: ScanState)
    requires At(w, pid, Scan(s)) && s.ScanWrite? && ScanOk(w.table, w.hist, next) && Disjoint(w.procs)
    requires next.ScanWrite? && forall id :: id in next.writes ==> id in s.writes || !Locked(w, pid, id)
    ensures MoveOk(w, pid, Scan(next))
  {
    hide TableOk, ScanOk;
    assert ApartFromOthers(w.procs, pid, Scan(next)) by {
      forall q | q in w.procs && q != pid ensures Apart(Scan(next), w.procs[q]) {
        assert Apart(w.procs[pid], w.procs[q]);
      }
    }
    AccountsStay(w, pid, Scan(next));
  }

  lemma ScanCommitSound(w: World, pid: Pid, s: ScanState)
    requires At(w, pid, Scan(s)) && s.ScanWrite? && ScanOk(w.table, w.hist, s)
    ensures CommitOk(w, pid, ViaScan, Scan(ScanAnnounce(s.hits)))
  {
    hide RowOk, Commit, TableOk, WriteOk, HasVisited;
    var next := Scan(ScanAnnounce(s.hits));
    ScanHitsVisited(w, pid, s, next);
    AccountsStay(w, pid, next);
  }

  lemma ScanHitsVisited(w: World, pid: Pid, s: ScanState, next: Proc)
    requires At(w, pid, Scan(s)) && s.ScanWrite? && ScanOk(w.table, w.hist, s)
    ensures forall id :: id in s.hits ==> HasVisited(Commit(w, pid, ViaScan, next).hist, id, Timeout)
  {
    hide RowOk, LegalWrite, EntriesOk;
    var v := Commit(w, pid, ViaScan, next);
    forall id | id in s.hits ensures HasVisited(v.hist, id, Timeout) {
      assert id in Elements(s.hits);
      assert v.hist[id][|w.hist[id]|].status == Timeout;
    }
  }

  /** No listed transition leads to an unlisted status, so every live row may time out. */
  lemma LiveMayTimeOut(w: World, id: Id)
    requires TableOk(w.table, w.hist) && id in w.table && !Terminal(w.table[id].status)
    ensures Allowed(w.table[id].status, Timeout)
  {
    var h := w.hist[id];
    assert RowOk(w.table[id], h);
    if |h| > 1 { assert Allowed(h[|h| - 2].status, h[|h| - 1].status); }
  }

  lemma ScanNextOk(w: World, s: ScanState)
    requires s.ScanWrite? && s.todo != [] && ScanOk(w.table, w.hist, s) && TableOk(w.table, w.hist)
    ensures var id := s.todo[0];
            && id in w.table
            && ScanOk(w.table, w.hist, ScanWrite(s.now, s.begun, s.todo[1..], s.hits, s.writes))
            && (!Terminal(w.table[id].status) ==>
                  ScanOk(w.table, w.hist, ScanWrite(s.now, s.begun, s.todo[1..], s.hits + [id],
                      s.writes[id := TimeoutRow(w.table[id], s.begun)])))
  {
    hide RowOk, HasVisited;
    var id := s.todo[0];
    var rest := s.todo[1..];
    if !Terminal(w.table[id].status) { LiveMayTimeOut(w, id); }
    assert s.todo == [id] + rest;
    assert id in s.todo && (forall k :: k in rest ==> k in s.todo) && id !in rest;
    assert Elements(s.hits + [id]) == Elements(s.hits) + {id};
  }

  lemma ScanWriteSound(w: World, pid: Pid, s: ScanState, c: Choice)
    requires At(w, pid, Scan(s)) && ScanOk(w.table, w.hist, s) && Disjoint(w.procs) && s.ScanWrite?
    ensures EffectOk(w, pid, ScanStep(w, pid, s, c))
  {
    hide TableOk, EntriesOk, MoveOk, CommitOk, Disjoint, ScanOk, Locked;
    if s.todo == [] {
      if s.hits == [] { ScanEndSound(w, pid, s); } else { ScanCommitSound(w, pid, s); }
    } else {
      ScanNextOk(w, s);
      var id := s.todo[0];
      if !Locked(w, pid, id) {
        if !Terminal(w.table[id].status) {
          ScanRowSound(w, pid, s, ScanWrite(s.now, s.begun, s.todo[1..], s.hits + [id],
              s.writes[id := TimeoutRow(w.table[id], s.begun)]));
        } else {
          ScanRowSound(w, pid, s, ScanWrite(s.now, s.begun, s.todo[1..], s.hits, s.writes));
        }
      }
    }
  }

  lemma ScanEndSound(w: World, pid: Pid, s: ScanState)
    requires At(w, pid, Scan(s))
    ensures MoveOk(w, pid, Scan(ScanEnd))
  {
    hide At, MoveOk;
    ScanMove(w, pid, s, ScanEnd);
  }

  lemma ScanSound(w: World, pid: Pid, s: ScanState, c: Choice)
    requires At(w, pid, Scan(s)) && ScanOk(w.table, w.hist, s) && Disjoint(w.procs)
    ensures EffectOk(w, pid, ScanStep(w, pid, s, c))
  {
    hide At, MoveOk, CommitOk, Disjoint, HasVisited;
    match s
    case ScanStart => ScanMove(w, pid, s, ScanStamped(w.clock));
    case ScanStamped(now) =>
      if c.Rows? && Distinct(c.ids) && Elements(c.ids) == Expired(w.table, now) {
        assert forall id :: id in c.ids ==> id in Elements(c.ids);
        ScanMove(w, pid, s, ScanWrite(now, w.clock, c.ids, [], map[]));
      }
    case ScanWrite(_, _, _, _, _) => ScanWriteSound(w, pid, s, c);
    case ScanAnnounce(todo) =>
      ScanMove(w, pid, s, if todo == [] then ScanEnd else ScanAnnounce(todo[1..]));
    case ScanEnd =>
  }

  // ----- every step, every run

  lemma StepSound(w: World, pid: Pid, c: Choice)
    requires Inv(w) && pid in w.procs
    ensures EffectOk(w, pid, StepOf(w, pid, w.procs[pid], c))
  {
    hide TableOk, KeysUnique, Disjoint, EntriesOk, NoticesOk, AppliedOk, EffectOk, CreateOk, PatchOk, ScanOk, ClaimsOk,
        ClaimOk;
    assert ProcOk(w.table, w.hist, pid, w.procs[pid]);
    match w.procs[pid]
    case Create(s) => CreateSound(w, pid, s, c);
    case Patch(s) => PatchSound(w, pid, s);
    case Claim(s) => ClaimSound(w, pid, s, c);
    case Scan(s) => ScanSound(w, pid, s, c);
    case Dead => assert EffectOk(w, pid, Stay) by { EffectStay(w, pid); }
  }

  lemma EffectStay(w: World, pid: Pid)
    requires pid in w.procs
    ensures EffectOk(w, pid, Stay)
  { }

  lemma TellKeeps(w: World, n: Notice)
    requires Inv(w) && HasVisited(w.hist, n.id, n.status)
    ensures Inv(w.(notices := w.notices + [n]))
  {
    hide TableOk, KeysUnique, ProcsOk, Disjoint, EntriesOk, HasVisited, Handled;
  }

  /** A robot loop never meets a command it has handled before, so it applies this one. */
  lemma HandleKeeps(w: World, pid: Pid, loop: Loop, todo: seq<Id>)
    requires Inv(w) && pid in w.procs && todo != [] && w.procs[pid] == Claim(Handling(loop, todo))
    ensures Inv(Handle(w, pid, loop, todo))
  {
    hide TableOk, KeysUnique, Disjoint, EntriesOk, NoticesOk, AppliedOk, ClaimsOk;
    assert ProcOk(w.table, w.hist, pid, w.procs[pid]);
    HandleApplied(w, pid, loop, todo);
    var next := Claim(Handling(loop, todo[1..]));
    ShorterClaims(w.hist, pid, todo);
    ClaimMove(w, pid, Handling(loop, todo), Handling(loop, todo[1..]));
    GoKeeps(w, pid, next);
  }

  lemma ShorterClaims(hist: History, pid: Pid, todo: seq<Id>)
    requires ClaimsOk(hist, pid, todo) && todo != []
    ensures ClaimsOk(hist, pid, todo[1..])
  { }

  lemma HandleApplied(w: World, pid: Pid, loop: Loop, todo: seq<Id>)
    requires AppliedOk(w) && pid in w.procs && todo != [] && w.procs[pid] == Claim(Handling(loop, todo))
    requires ClaimsOk(w.hist, pid, todo)
    ensures AppliedOk(Handle(w, pid, loop, todo))
  {
    var id := todo[0];
    var v := Handle(w, pid, loop, todo);
    assert id in todo && DispatchedBy(w.hist[id], pid);
    assert id !in todo[1..];
    assert !Handled(w.hist, w.procs, id);
    assert Handled(v.hist, v.procs, id);
    forall k | Handled(w.hist, w.procs, k) ensures Handled(v.hist, v.procs, k) { }
  }

  lemma PerformKeeps(w: World, pid: Pid, e: Effect)
    requires Inv(w) && pid in w.procs && EffectOk(w, pid, e)
    ensures Inv(Perform(w, pid, e))
  {
    hide Inv, MoveOk, CommitOk, HasVisited;
    match e
    case Stay =>
    case Move(next) => GoKeeps(w, pid, next);
    case Tell(next, notice) =>
      GoKeeps(w, pid, next);
      TellKeeps(Go(w, pid, next), notice);
    case Publish(via, next) => CommitKeeps(w, pid, via, next);
    case Add(id, row, next) =>
      var s := w.procs[pid].create;
      InsertKeeps(w, pid, s.robot, s.req, s.id, s.row);
    case Take(loop, todo) => HandleKeeps(w, pid, loop, todo);
  }

  lemma SpawnKeeps(w: World, pid: Pid, start: Proc)
    requires Inv(w) && pid !in w.procs && Starting(start)
    ensures Inv(Go(w, pid, start))
  {
    hide TableOk, KeysUnique, ProcsOk, Disjoint, NoticesOk, AppliedOk, RowOk;
    forall id, i | id in w.hist && 0 <= i < |w.hist[id]| ensures w.hist[id][i].writer != pid {
      assert EntryOk(w.procs, id, w.hist[id][i]);
    }
    GoKeeps(w, pid, start);
  }

  lemma StepKeeps(w: World, s: Step)
    requires Inv(w)
    ensures Inv(Apply(w, s))
  {
    hide TableOk, KeysUnique, ProcsOk, Disjoint, EntriesOk, NoticesOk, Handled, EffectOk, MoveOk, Perform, StepOf;
    match s
    case Tick(now) =>
    case Spawn(pid, start) => if pid !in w.procs && Starting(start) { SpawnKeeps(w, pid, start); }
    case Advance(pid, c) =>
      if pid in w.procs {
        StepSound(w, pid, c);
        PerformKeeps(w, pid, StepOf(w, pid, w.procs[pid], c));
      }
    case Kill(pid) => if pid in w.procs { KillKeeps(w, pid); }
  }

  lemma KillKeeps(w: World, pid: Pid)
    requires Inv(w) && pid in w.procs
    ensures Inv(Go(w, pid, Dead))
  {
    hide TableOk, KeysUnique, ProcsOk, Disjoint, EntriesOk, NoticesOk, AppliedOk, MoveOk;
    QuietMove(w, pid, Dead);
    GoKeeps(w, pid, Dead);
  }

  lemma {:induction false} RunKeeps(w: World, steps: seq<Step>)
    requires Inv(w)
    ensures Inv(Run(w, steps))
    decreases |steps|
  {
    hide Inv, Apply;
    if steps != [] {
      StepKeeps(w, steps[0]);
      RunKeeps(Apply(w, steps[0]), steps[1..]);
    }
  }

  lemma Reachable(clock: Time, steps: seq<Step>)
    ensures Inv(Run(Init(clock), steps))
  {
    assert Inv(Init(clock));
    RunKeeps(Init(clock), steps);
  }
}
