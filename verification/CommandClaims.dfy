/**
The claim loop of backend/app/routes/commands.py ends against any competing writers: with no new
commands for its robot, each round leaves fewer PENDING ones, whether its compare-and-set wins or loses,
and the loop is never stuck except behind a row lock.
*/
module CommandClaims {
  import opened Prelude
  import opened CommandModel
  import opened CommandProtocol
  import opened CommandSafety
  import opened CommandRuns
  import opened CommandTheorems

  /** PENDING commands of the robot that the claim call has not already picked up. */
  ghost function Remaining(table: Table, robot: int, held: set<Id>): set<Id> {
    PendingFor(table, robot) - held
  }

  /** Steps the claim call can still take, if nothing is created for its robot. */
  ghost function Budget(table: Table, p: Proc): nat {
    match p
    case Claim(ClaimLoop(robot, _)) => 5 * |PendingFor(table, robot)| + 1
    case Claim(ClaimFound(robot, _, id, _)) => 5 * |Remaining(table, robot, {id})| + 5
    case Claim(ClaimReady(robot, _, id, _, _)) => 5 * |Remaining(table, robot, {id})| + 4
    case Claim(ClaimWrote(robot, _, id, _)) => 5 * |Remaining(table, robot, {id})| + 3
    case Claim(ClaimCommitted(robot, _, id)) => 5 * |Remaining(table, robot, {id})| + 2
    case _ => 0
  }

  /** A claim call that has not returned yet. */
  ghost predicate Looping(p: Proc) {
    p.Claim? && !p.claim.ClaimReturned? && !p.claim.Handling?
  }

  ghost predicate LoopsFor(p: Proc, robot: int) {
    Looping(p) ==> p.claim.robot == robot
  }

  /** The step inserts no command for the robot; other robots' commands may be created. */
  ghost predicate NoCreation(w: World, s: Step, robot: int) {
    s.Advance? && s.pid in w.procs && w.procs[s.pid].Create? && w.procs[s.pid].create.CreateInsert? ==>
      w.procs[s.pid].create.robot != robot
  }

  // ----- other writers only shrink the set of PENDING commands

  ghost predicate Shrinks(t: Table, t': Table, robot: int) {
    PendingFor(t', robot) <= PendingFor(t, robot)
  }

  lemma CommitShrinks(w: World, pid: Pid, via: Via, next: Proc, robot: int)
    requires ProcsOk(w.table, w.hist, w.procs) && pid in w.procs
    ensures Shrinks(w.table, Commit(w, pid, via, next).table, robot)
  {
    hide ProcsOk;
    AllOpenWritesLegal(w, pid);
    var writes := Writes(w.procs[pid]);
    forall id | id in writes ensures id in w.table && writes[id].status != Pending {
      assert WriteOk(w.table, id, writes[id]);
    }
  }

  lemma InsertShrinks(w: World, pid: Pid, c: Choice, robot: int)
    requires ProcsOk(w.table, w.hist, w.procs) && pid in w.procs && NoCreation(w, Advance(pid, c), robot)
    requires StepOf(w, pid, w.procs[pid], c).Add?
    ensures var e := StepOf(w, pid, w.procs[pid], c);
            Shrinks(w.table, Insert(w, pid, e.id, e.row, e.next).table, robot)
  {
    hide Locked, Unused, KeyTaken;
    assert ProcOk(w.table, w.hist, pid, w.procs[pid]);
  }

  lemma StepShrinks(w: World, s: Step, robot: int)
    requires ProcsOk(w.table, w.hist, w.procs) && NoCreation(w, s, robot)
    ensures Shrinks(w.table, Apply(w, s).table, robot)
  {
    hide ProcsOk, PendingFor, Commit, Insert, StepOf, NoCreation;
    if s.Advance? && s.pid in w.procs {
      match StepOf(w, s.pid, w.procs[s.pid], s.choice)
      case Publish(via, next) => CommitShrinks(w, s.pid, via, next, robot);
      case Add(_, _, _) => InsertShrinks(w, s.pid, s.choice, robot);
      case _ =>
    }
  }

  lemma BudgetShrinks(t: Table, t': Table, p: Proc, robot: int)
    requires Shrinks(t, t', robot) && LoopsFor(p, robot)
    ensures Budget(t', p) <= Budget(t, p)
  {
    hide PendingFor;
    if Looping(p) {
      SubsetSize(PendingFor(t', robot), PendingFor(t, robot));
      if !p.claim.ClaimLoop? { SubsetSize(Remaining(t', robot, {p.claim.id}), Remaining(t, robot, {p.claim.id})); }
    }
  }

  // ----- its own steps spend the budget

  lemma PickSpends(table: Table, robot: int, id: Id)
    requires Oldest(table, robot, id)
    ensures |PendingFor(table, robot)| == |Remaining(table, robot, {id})| + 1
  {
    assert PendingFor(table, robot) == Remaining(table, robot, {id}) + {id};
  }

  lemma LostSpends(table: Table, robot: int, id: Id)
    requires id in table && table[id].status != Pending
    ensures Remaining(table, robot, {id}) == PendingFor(table, robot)
  { }

  /** Everything the loop does without committing brings it closer to its end. */
  lemma OwnMoveSpends(w: World, pid: Pid, s: ClaimState, c: Choice)
    requires ClaimOk(w.table, s) && Looping(Claim(s))
    requires s.ClaimCommitted? ==> Remaining(w.table, s.robot, {s.id}) == PendingFor(w.table, s.robot)
    ensures match ClaimStep(w, pid, s, c)
            case Move(next) => LoopsFor(next, s.robot) && Budget(w.table, next) < Budget(w.table, Claim(s))
            case Tell(next, _) => LoopsFor(next, s.robot) && Budget(w.table, next) < Budget(w.table, Claim(s))
            case Publish(via, next) => s.ClaimWrote? && next == Claim(ClaimCommitted(s.robot, s.claimed, s.id)) &&
                via == ViaClaim
            case e => e.Stay?
  {
    hide Locked, LegalWrite, PendingFor, Remaining, Oldest;
    if s.ClaimLoop? && c.Pick? && Oldest(w.table, s.robot, c.id) {
      PickSpends(w.table, s.robot, c.id);
    } else if s.ClaimReady? && w.table[s.id].status != Pending {
      LostSpends(w.table, s.robot, s.id);
    }
  }

  lemma ClaimCommitSpends(w: World, pid: Pid, s: ClaimState)
    requires ProcsOk(w.table, w.hist, w.procs) && pid in w.procs && w.procs[pid] == Claim(s) && s.ClaimWrote?
    ensures var next := Claim(ClaimCommitted(s.robot, s.claimed, s.id));
            Budget(Commit(w, pid, ViaClaim, next).table, next) < Budget(w.table, Claim(s))
  {
    hide ProcsOk, PendingFor, Commit;
    var next := Claim(ClaimCommitted(s.robot, s.claimed, s.id));
    CommitShrinks(w, pid, ViaClaim, next, s.robot);
    BudgetShrinks(w.table, Commit(w, pid, ViaClaim, next).table, Claim(s), s.robot);
  }

  lemma CommittedNotPending(w: World, pid: Pid, robot: int, claimed: seq<Id>, id: Id)
    requires TableOk(w.table, w.hist) && ProcsOk(w.table, w.hist, w.procs)
    requires pid in w.procs && w.procs[pid] == Claim(ClaimCommitted(robot, claimed, id))
    ensures Remaining(w.table, robot, {id}) == PendingFor(w.table, robot)
  {
    hide RowOk;
    assert ProcOk(w.table, w.hist, pid, w.procs[pid]);
    assert id in claimed + [id];
    if w.table[id].status == Pending { PendingIsShort(w, id); }
  }

  /** A move of the loop: the world after it, the budget spent. */
  lemma OwnStepSpends(w: World, pid: Pid, c: Choice)
    requires TableOk(w.table, w.hist) && ProcsOk(w.table, w.hist, w.procs)
    requires pid in w.procs && Looping(w.procs[pid]) && Apply(w, Advance(pid, c)) != w
    ensures var v := Apply(w, Advance(pid, c));
            && pid in v.procs && LoopsFor(v.procs[pid], w.procs[pid].claim.robot)
            && Budget(v.table, v.procs[pid]) < Budget(w.table, w.procs[pid])
  {
    hide TableOk, Budget, ClaimsOk, ClaimOk, ClaimStep;
    assert ProcOk(w.table, w.hist, pid, w.procs[pid]);
    var s := w.procs[pid].claim;
    if s.ClaimCommitted? { CommittedNotPending(w, pid, s.robot, s.claimed, s.id); }
    OwnMoveSpends(w, pid, s, c);
    if s.ClaimWrote? { ClaimCommitSpends(w, pid, s); }
  }

  // ----- all other steps

  lemma NeverLoopsAgain(w: World, pid: Pid, p: Proc, c: Choice)
    requires !Looping(p)
    ensures match StepOf(w, pid, p, c)
            case Move(next) => !Looping(next)
            case Tell(next, _) => !Looping(next)
            case Publish(_, next) => !Looping(next)
            case Add(_, _, next) => !Looping(next)
            case Take(_, _) => true
            case Stay => true
  {
    hide Locked, Unused, KeyTaken, Oldest, PendingFor, Decide;
  }

  lemma PerformElsewhere(w: World, q: Pid, e: Effect, pid: Pid)
    requires q in w.procs && pid in w.procs && pid != q
    ensures pid in Perform(w, q, e).procs && Perform(w, q, e).procs[pid] == w.procs[pid]
  { }

  lemma PerformHere(w: World, pid: Pid, e: Effect)
    requires pid in w.procs
    ensures var v := Perform(w, pid, e);
            && pid in v.procs
            && match e
               case Move(next) => v.procs[pid] == next
               case Tell(next, _) => v.procs[pid] == next
               case Publish(_, next) => v.procs[pid] == next
               case Add(_, _, next) => v.procs[pid] == next
               case Take(_, _) => v == w || !Looping(v.procs[pid])
               case Stay => v == w
  { }

  /** Where the claim call stands after a step that is not one of its own moves. */
  ghost predicate Unmoved(w: World, v: World, pid: Pid) {
    pid in w.procs && pid in v.procs && (v.procs[pid] == w.procs[pid] || !Looping(v.procs[pid]))
  }

  lemma OtherSteps(w: World, s: Step, pid: Pid)
    requires pid in w.procs && !(s.Advance? && s.pid == pid && Looping(w.procs[pid]) && Apply(w, s) != w)
    ensures Unmoved(w, Apply(w, s), pid)
  {
    hide StepOf, Perform;
    if s.Advance? && s.pid in w.procs {
      var e := StepOf(w, s.pid, w.procs[s.pid], s.choice);
      if s.pid != pid { PerformElsewhere(w, s.pid, e, pid); }
      else if !Looping(w.procs[pid]) {
        NeverLoopsAgain(w, pid, w.procs[pid], s.choice);
        PerformHere(w, pid, e);
      }
    }
  }

  lemma UnmovedBudget(w: World, v: World, pid: Pid, robot: int)
    requires pid in w.procs && Unmoved(w, v, pid) && LoopsFor(w.procs[pid], robot) && Shrinks(w.table, v.table, robot)
    ensures LoopsFor(v.procs[pid], robot) && Budget(v.table, v.procs[pid]) <= Budget(w.table, w.procs[pid])
  {
    hide Shrinks;
    if v.procs[pid] == w.procs[pid] { BudgetShrinks(w.table, v.table, w.procs[pid], robot); }
  }

  // ----- the whole run

  ghost predicate Creationless(w: World, steps: seq<Step>, robot: int)
    decreases |steps|
  {
    steps == [] || (NoCreation(w, steps[0], robot) && Creationless(Apply(w, steps[0]), steps[1..], robot))
  }

  ghost predicate OwnMove(w: World, s: Step, pid: Pid) {
    s.Advance? && s.pid == pid && pid in w.procs && Looping(w.procs[pid]) && Apply(w, s) != w
  }

  /** How many times the claim call moves during a run. */
  ghost function ClaimMoves(w: World, steps: seq<Step>, pid: Pid): nat
    decreases |steps|
  {
    if steps == [] then 0
    else (if OwnMove(w, steps[0], pid) then 1 else 0) + ClaimMoves(Apply(w, steps[0]), steps[1..], pid)
  }

  lemma StepBudget(w: World, s: Step, pid: Pid, robot: int)
    requires TableOk(w.table, w.hist) && ProcsOk(w.table, w.hist, w.procs) && NoCreation(w, s, robot)
    requires pid in w.procs && LoopsFor(w.procs[pid], robot)
    ensures var v := Apply(w, s);
            && pid in v.procs && LoopsFor(v.procs[pid], robot)
            && Budget(v.table, v.procs[pid]) + (if OwnMove(w, s, pid) then 1 else 0) <= Budget(w.table, w.procs[pid])
  {
    hide TableOk, ProcsOk, Shrinks, Budget, Apply;
    if OwnMove(w, s, pid) { OwnStepSpends(w, pid, s.choice); }
    else {
      StepShrinks(w, s, robot);
      OtherSteps(w, s, pid);
      UnmovedBudget(w, Apply(w, s), pid, robot);
    }
  }

  /**
  Started in any reachable world, a claim call moves at most five times per PENDING command of its robot, plus
  once, however the other actors interleave, as long as none of them creates commands for that robot.
  */
  lemma {:induction false} ClaimTerminates(w: World, steps: seq<Step>, pid: Pid, robot: int)
    requires Inv(w) && Creationless(w, steps, robot) && pid in w.procs && LoopsFor(w.procs[pid], robot)
    ensures ClaimMoves(w, steps, pid) <= Budget(w.table, w.procs[pid])
    decreases |steps|
  {
    hide TableOk, KeysUnique, ProcsOk, Disjoint, EntriesOk, NoticesOk, AppliedOk, Budget, NoCreation, Apply, OwnMove,
        LoopsFor;
    if steps != [] {
      StepBudget(w, steps[0], pid, robot);
      StepKeeps(w, steps[0]);
      ClaimTerminates(Apply(w, steps[0]), steps[1..], pid, robot);
    }
  }

  // ----- the loop is never stuck

  lemma {:induction false} SomeOldest(table: Table, ids: set<Id>) returns (id: Id)
    requires ids != {} && ids <= table.Keys
    ensures id in ids && forall other :: other in ids ==> table[id].created <= table[other].created
    decreases |ids|
  {
    var x :| x in ids;
    var rest := ids - {x};
    if rest == {} {
      assert ids == {x};
      id := x;
    } else {
      var y := SomeOldest(table, rest);
      id := if table[x].created <= table[y].created then x else y;
      assert ids == rest + {x};
    }
  }

  /** Unless another transaction has locked the row it wants, the loop has a step to take. */
  lemma ClaimNeverStuck(w: World, pid: Pid) returns (c: Choice)
    requires pid in w.procs && Looping(w.procs[pid])
    requires w.procs[pid].claim.ClaimReady? ==> !Locked(w, pid, w.procs[pid].claim.id)
    ensures OwnMove(w, Advance(pid, c), pid)
  {
    hide Locked, PendingFor, Commit;
    var s := w.procs[pid].claim;
    c := Plain;
    if s.ClaimLoop? && PendingFor(w.table, s.robot) != {} {
      PendingInTable(w.table, s.robot);
      var id := SomeOldest(w.table, PendingFor(w.table, s.robot));
      c := Pick(id);
    }
    var e := StepOf(w, pid, w.procs[pid], c);
    PerformHere(w, pid, e);
  }

  lemma PendingInTable(table: Table, robot: int)
    ensures PendingFor(table, robot) <= table.Keys
  { }
}
