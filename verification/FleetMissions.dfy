/**
The dispatcher and the fleet: robot ticks, commands and dispatch rounds interleave at every await
(simulator/robot_sim.py). A dispatch round contains no await, so it is one step.
*/
module FleetMissions {
  import opened Prelude
  import opened RobotModel
  import opened RobotSafety

  /** `finished` and `aborted` record which missions were dropped, after their last step or before. */
  datatype World = World(units: seq<Unit>, queue: seq<Mission>, counter: nat, finished: seq<nat>, aborted: seq<nat>)

  datatype Step =
    | Dispatch(kind: Kind, stops: seq<Waypoint>)
    | Wake(i: nat, now: real)
    | Obey(i: nat, action: Action)
    | Act(i: nat, draw: Draw)
    | Mourn(i: nat, delay: real, replacement: Health)
    | Finish(i: nat, draw: Draw)
    | Close(i: nat)

  // ----- dispatching

  /** A robot the dispatcher may task. */
  predicate Eligible(r: Robot) {
    && r.online && r.status != Dead && r.status != Charging && r.status != Overheating && r.status != Stopped
    && r.task.mission.None? && !r.task.returning && r.body.battery > 20.0
  }

  function Gap(u: Unit, m: Mission): real {
    if m.route == [] then 0.0 else DistSq(m.route[0].at, u.robot.body.pos)
  }

  /** The head of the stably sorted candidate list. */
  function Nearest(units: seq<Unit>, m: Mission): (best: Option<nat>)
    ensures best.Some? ==> best.value < |units|
  {
    if units == [] then None
    else
      var n := |units| - 1;
      var best := Nearest(units[..n], m);
      if Eligible(units[n].robot) && (best.None? || Gap(units[n], m) < Gap(units[best.value], m)) then Some(n) else best
  }

  function Tasked(u: Unit, m: Mission): Unit {
    u.(robot := Assigned(u.robot, m))
  }

  /** The assignment loop: missions in queue order, until nobody is left to take one. */
  function Dispatched(units: seq<Unit>, queue: seq<Mission>): (seq<Unit>, seq<Mission>)
    decreases |queue|
  {
    if queue == [] then (units, queue)
    else
      var best := Nearest(units, queue[0]);
      if best.None? then (units, queue)
      else Dispatched(units[best.value := Tasked(units[best.value], queue[0])], queue[1..])
  }

  // ----- runs

  /** Which inputs the source's random calls, clocks and geometry allow. */
  predicate Possible(w: World, s: Step) {
    match s
    case Dispatch(kind, stops) => EnoughPoints(kind, |stops|)
    case Act(i, d) =>
      && i < |w.units| && Plausible(d)
      && d.dist * d.dist == DistSq(Goal(Triggered(w.units[i].robot)), w.units[i].robot.body.pos)
    case Mourn(i, delay, h) => i < |w.units| && InRange(delay, 45.0, 90.0) && HealthOk(h)
    case Finish(i, d) => i < |w.units| && Plausible(d)
    case _ => s.i < |w.units|
  }

  function Piece(u: Unit, s: Step, ambient: real): Unit {
    match s
    case Dispatch(_, _) => u
    case Wake(_, now) => Woken(u, now)
    case Obey(_, action) => Obeyed(u, action)
    case Act(_, d) => Acted(u, ambient, d)
    case Mourn(_, delay, h) => Mourned(u, ambient, delay, h)
    case Finish(_, d) => Finished(u, ambient, d)
    case Close(_) => Closed(u)
  }

  /** Robot `i` becomes `u`; note a mission it has let go of. */
  function Became(w: World, i: nat, u: Unit): World
    requires i < |w.units|
  {
    var w' := w.(units := w.units[i := u]);
    var t := w.units[i].robot.task;
    if t.mission.Some? && u.robot.task.mission.None? then
      if MissionDone(t) then w'.(finished := w.finished + [t.mission.value.id])
      else w'.(aborted := w.aborted + [t.mission.value.id])
    else w'
  }

  /** A new mission if fewer than four wait, then the assignment loop. */
  function Round(w: World, kind: Kind, stops: seq<Waypoint>): World {
    var w1 := if |w.queue| < 4 then w.(queue := w.queue + [BuildMission(w.counter, kind, stops)],
        counter := w.counter + 1) else w;
    var r := Dispatched(w1.units, w1.queue);
    w1.(units := r.0, queue := r.1)
  }

  function Apply(w: World, s: Step, ambient: real): World {
    if !Possible(w, s) then w
    else if s.Dispatch? then Round(w, s.kind, s.stops)
    else Became(w, s.i, Piece(w.units[s.i], s, ambient))
  }

  function Run(w: World, steps: seq<Step>, ambient: real): World {
    if steps == [] then w else Apply(Run(w, steps[..|steps| - 1], ambient), steps[|steps| - 1], ambient)
  }

  /** A robot as `main_async` creates it. */
  ghost predicate NewRobot(u: Unit, ambient: real) {
    && u.pc.Asleep? && u.robot.status == Active && u.robot.online && !u.robot.suspended
    && u.robot.task.mission.None? && u.robot.task.progress.None? && !u.robot.task.returning
    && InRange(u.robot.body.battery, 65.0, 100.0) && u.robot.body.speed == 0.0
    && (exists warmth :: InRange(warmth, 1.0, 6.0) && u.robot.body.temp == Clamp(ambient + warmth, 24.0, 50.0))
    && HealthOk(u.robot.health)
  }

  ghost predicate Start(w: World, ambient: real) {
    && (forall i :: 0 <= i < |w.units| ==> NewRobot(w.units[i], ambient))
    && w.queue == [] && w.counter == 1 && w.finished == [] && w.aborted == []
  }

  // ----- which missions exist where

  function HeldOf(u: Unit): multiset<nat> {
    if u.robot.task.mission.Some? then multiset{u.robot.task.mission.value.id} else multiset{}
  }

  function HeldBag(units: seq<Unit>): multiset<nat> {
    if units == [] then multiset{} else HeldBag(units[..|units| - 1]) + HeldOf(units[|units| - 1])
  }

  function QueueBag(queue: seq<Mission>): multiset<nat> {
    if queue == [] then multiset{} else multiset{queue[0].id} + QueueBag(queue[1..])
  }

  function IdsBelow(n: nat): multiset<nat> {
    if n <= 1 then multiset{} else IdsBelow(n - 1) + multiset{n - 1}
  }

  /** Every mission ever built is in exactly one place, counted with multiplicity. */
  ghost predicate Conserved(w: World) {
    w.counter >= 1 &&
    QueueBag(w.queue) + HeldBag(w.units) + multiset(w.finished) + multiset(w.aborted) == IdsBelow(w.counter)
  }

  lemma SwapBags(a: multiset<nat>, b: multiset<nat>, c: multiset<nat>, d: multiset<nat>, more: multiset<nat>)
    requires a + b == c + d
    ensures (a + more) + b == (c + more) + d
  {
    assert (a + more) + b == (a + b) + more;
  }

  lemma {:induction false} HeldUpdate(units: seq<Unit>, i: nat, u: Unit)
    requires i < |units|
    ensures HeldBag(units[i := u]) + HeldOf(units[i]) == HeldBag(units) + HeldOf(u)
  {
    hide HeldOf;
    var n := |units| - 1;
    if i < n {
      HeldUpdate(units[..n], i, u);
      assert units[i := u][..n] == units[..n][i := u];
      SwapBags(HeldBag(units[..n][i := u]), HeldOf(units[i]), HeldBag(units[..n]), HeldOf(u), HeldOf(units[n]));
    } else {
      assert units[i := u][..n] == units[..n];
    }
  }

  lemma {:induction false} QueueAppend(queue: seq<Mission>, m: Mission)
    ensures QueueBag(queue + [m]) == QueueBag(queue) + multiset{m.id}
  {
    if queue == [] { assert queue + [m] == [m]; }
    else {
      assert (queue + [m])[1..] == queue[1..] + [m];
      QueueAppend(queue[1..], m);
    }
  }

  lemma {:induction false} NearestEligible(units: seq<Unit>, m: Mission)
    ensures Nearest(units, m).Some? ==> Eligible(units[Nearest(units, m).value].robot)
  {
    hide Eligible, Gap;
    if units != [] { NearestEligible(units[..|units| - 1], m); }
  }

  /** The chosen robot is a closest eligible one, the earliest among equals; none is chosen only if none is eligible. */
  lemma {:induction false} NearestIsNearest(units: seq<Unit>, m: Mission, k: nat)
    requires k < |units| && Eligible(units[k].robot)
    ensures var best := Nearest(units, m);
            && best.Some? && Eligible(units[best.value].robot)
            && Gap(units[best.value], m) <= Gap(units[k], m)
            && (Gap(units[best.value], m) == Gap(units[k], m) ==> best.value <= k)
  {
    hide Eligible, Gap;
    NearestEligible(units, m);
    var n := |units| - 1;
    if k < n { NearestIsNearest(units[..n], m, k); }
  }

  lemma {:induction false} DispatchConserves(units: seq<Unit>, queue: seq<Mission>)
    ensures var r := Dispatched(units, queue); QueueBag(r.1) + HeldBag(r.0) == QueueBag(queue) + HeldBag(units)
    decreases |queue|
  {
    hide Nearest, HeldBag, Assigned;
    if queue != [] && Nearest(units, queue[0]).Some? {
      var i := Nearest(units, queue[0]).value;
      NearestEligible(units, queue[0]);
      var u := Tasked(units[i], queue[0]);
      HeldUpdate(units, i, u);
      AssignHeld(units[i], queue[0]);
      assert HeldBag(units[i := u]) == HeldBag(units[i := u]) + HeldOf(units[i]);
      DispatchConserves(units[i := u], queue[1..]);
      MoveBag(QueueBag(queue[1..]), HeldBag(units[i := u]), HeldBag(units), multiset{queue[0].id});
    }
  }

  lemma MoveBag(rest: multiset<nat>, after: multiset<nat>, before: multiset<nat>, id: multiset<nat>)
    requires after == before + id
    ensures rest + after == (id + rest) + before
  { }

  lemma AssignHeld(u: Unit, m: Mission)
    requires Eligible(u.robot)
    ensures HeldOf(u) == multiset{} && HeldOf(Tasked(u, m)) == multiset{m.id}
  { }

  lemma Regroup(a: multiset<nat>, b: multiset<nat>, c: multiset<nat>, d: multiset<nat>)
    ensures a + b + c + d == (a + b) + (c + d)
  { }

  lemma Insert(a: multiset<nat>, b: multiset<nat>, id: multiset<nat>, gone: multiset<nat>)
    ensures ((a + id) + b) + gone == ((a + b) + gone) + id
  { }

  lemma Retire(a: multiset<nat>, b: multiset<nat>, id: multiset<nat>, c: multiset<nat>, d: multiset<nat>)
    ensures a + b + (c + id) + d == a + (b + id) + c + d
    ensures a + b + c + (d + id) == a + (b + id) + c + d
  { }

  lemma Cancel(a: multiset<nat>, b: multiset<nat>, common: multiset<nat>)
    requires a + common == b + common
    ensures a == b
  {
    forall x ensures a[x] == b[x] { assert (a + common)[x] == (b + common)[x]; }
  }

  /** A mission counts as finished exactly if the robot dropped it after its last step, and as given up if before. */
  lemma DroppedMissions(w: World, i: nat, u: Unit)
    requires i < |w.units| && w.units[i].robot.task.mission.Some? && u.robot.task.mission.None?
    ensures var m := w.units[i].robot.task.mission.value;
            var v := Became(w, i, u);
            if m.current >= |m.route| then v.finished == w.finished + [m.id] && v.aborted == w.aborted
            else v.aborted == w.aborted + [m.id] && v.finished == w.finished
  { }

  lemma RoundConserves(w: World, kind: Kind, stops: seq<Waypoint>)
    requires Conserved(w)
    ensures Conserved(Round(w, kind, stops))
  {
    hide Dispatched, HeldBag, QueueBag;
    var m := BuildMission(w.counter, kind, stops);
    QueueAppend(w.queue, m);
    DispatchConserves(w.units, w.queue + [m]);
    DispatchConserves(w.units, w.queue);
    var w' := Round(w, kind, stops);
    var gone := multiset(w.finished) + multiset(w.aborted);
    Regroup(QueueBag(w.queue), HeldBag(w.units), multiset(w.finished), multiset(w.aborted));
    Regroup(QueueBag(w'.queue), HeldBag(w'.units), multiset(w.finished), multiset(w.aborted));
    if |w.queue| < 4 { Insert(QueueBag(w.queue), HeldBag(w.units), multiset{m.id}, gone); }
  }

  lemma BecameConserves(w: World, i: nat, u: Unit)
    requires i < |w.units| && Conserved(w) && KeepsOrDrops(w.units[i].robot.task, u.robot.task)
    ensures Conserved(Became(w, i, u))
  {
    hide HeldBag, QueueBag, IdsBelow, MissionDone;
    HeldUpdate(w.units, i, u);
    var t := w.units[i].robot.task;
    if t.mission.Some? && u.robot.task.mission.None? {
      var id := t.mission.value.id;
      assert multiset(w.finished + [id]) == multiset(w.finished) + multiset{id};
      assert multiset(w.aborted + [id]) == multiset(w.aborted) + multiset{id};
      assert HeldBag(w.units) == HeldBag(w.units[i := u]) + multiset{id};
      Retire(QueueBag(w.queue), HeldBag(w.units[i := u]), multiset{id}, multiset(w.finished), multiset(w.aborted));
    } else {
      assert HeldOf(u) == HeldOf(w.units[i]);
      Cancel(HeldBag(w.units[i := u]), HeldBag(w.units), HeldOf(u));
    }
  }

  // ----- the fleet's invariant

  ghost predicate UnitsOk(units: seq<Unit>, ambient: real) {
    forall i :: 0 <= i < |units| ==> UnitOk(units[i], ambient)
  }

  ghost predicate QueueOk(queue: seq<Mission>) {
    forall k :: 0 <= k < |queue| ==> Proper(queue[k]) && queue[k].current == 0
  }

  ghost predicate Inv(w: World, ambient: real) {
    UnitsOk(w.units, ambient) && QueueOk(w.queue) && Conserved(w)
  }

  ghost predicate AllTemperate(units: seq<Unit>, ambient: real) {
    forall i :: 0 <= i < |units| ==> Temperate(units[i], ambient)
  }

  lemma TaskedOk(u: Unit, m: Mission, ambient: real)
    requires UnitOk(u, ambient) && Eligible(u.robot) && Proper(m) && m.current == 0
    ensures UnitOk(Tasked(u, m), ambient)
    ensures Temperate(u, ambient) ==> Temperate(Tasked(u, m), ambient)
  {
    hide ProgressAt, HealthOk, Mild;
    ProgressEnds(0, |m.route|);
  }

  lemma {:induction false} DispatchOk(units: seq<Unit>, queue: seq<Mission>, ambient: real)
    requires UnitsOk(units, ambient) && QueueOk(queue)
    ensures var r := Dispatched(units, queue);
            && |r.0| == |units| && UnitsOk(r.0, ambient) && QueueOk(r.1)
            && (AllTemperate(units, ambient) ==> AllTemperate(r.0, ambient))
    decreases |queue|
  {
    hide Nearest, UnitOk, Temperate, Eligible, Tasked, Proper;
    if queue != [] && Nearest(units, queue[0]).Some? {
      var i := Nearest(units, queue[0]).value;
      NearestEligible(units, queue[0]);
      TaskedOk(units[i], queue[0], ambient);
      DispatchOk(units[i := Tasked(units[i], queue[0])], queue[1..], ambient);
    }
  }

  /**
  Every kind of mission has between two and six steps, visits its points in order, and unless it is an
  inspection ends at the base; only inspections pause.
  */
  lemma BuiltProper(id: nat, kind: Kind, stops: seq<Waypoint>)
    requires EnoughPoints(kind, |stops|)
    ensures var m := BuildMission(id, kind, stops);
            && Proper(m) && m.current == 0 && m.id == id && m.kind == kind
            && (forall i :: 0 <= i < |stops| ==> m.route[i].at == stops[i].at)
            && (if kind == Inspection then m.route == stops
                else |m.route| == |stops| + 1 && m.route[|stops|].at == Point(0.0, 0.0) &&
                     forall i :: 0 <= i < |m.route| ==> m.route[i].pause == 0.0)
  { }

  lemma PieceKeeps(u: Unit, s: Step, ambient: real)
    requires Climate(ambient) && UnitOk(u, ambient)
    requires s.Act? || s.Finish? ==> Plausible(s.draw)
    requires s.Mourn? ==> HealthOk(s.replacement)
    ensures PieceOk(u, Piece(u, s, ambient), ambient, if s.Act? || s.Finish? then s.draw.spike else 0.0)
  {
    hide UnitOk, PieceOk, Woken, Obeyed, Acted, Mourned, Finished, Closed, Plausible, HealthOk;
    match s
    case Dispatch(_, _) => Unmoved(u, ambient);
    case Wake(_, now) => WokenOk(u, ambient, now);
    case Obey(_, action) => ObeyedOk(u, ambient, action);
    case Act(_, d) => ActedOk(u, ambient, d);
    case Mourn(_, delay, h) => MournedOk(u, ambient, delay, h);
    case Finish(_, d) => FinishedOk(u, ambient, d);
    case Close(_) => ClosedOk(u, ambient);
  }

  lemma Unmoved(u: Unit, ambient: real)
    requires UnitOk(u, ambient)
    ensures PieceOk(u, u, ambient, 0.0)
  { }

  predicate Spikeless(s: Step) {
    s.Act? || s.Finish? ==> s.draw.spike == 0.0
  }

  lemma StepKeeps(w: World, s: Step, ambient: real)
    requires Climate(ambient) && Inv(w, ambient)
    ensures Inv(Apply(w, s, ambient), ambient)
    ensures Spikeless(s) && AllTemperate(w.units, ambient) ==> AllTemperate(Apply(w, s, ambient).units, ambient)
  {
    hide UnitOk, Proper, Conserved, Round, Piece, Temperate, Plausible, HealthOk, Triggered, Goal, MissionDone;
    if Possible(w, s) {
      if s.Dispatch? { RoundKeeps(w, s.kind, s.stops, ambient); }
      else {
        PieceKeeps(w.units[s.i], s, ambient);
        BecameConserves(w, s.i, Piece(w.units[s.i], s, ambient));
      }
    }
  }

  lemma RoundKeeps(w: World, kind: Kind, stops: seq<Waypoint>, ambient: real)
    requires Inv(w, ambient) && EnoughPoints(kind, |stops|)
    ensures Inv(Round(w, kind, stops), ambient)
    ensures AllTemperate(w.units, ambient) ==> AllTemperate(Round(w, kind, stops).units, ambient)
  {
    hide UnitsOk, AllTemperate, Proper, Conserved, Dispatched, BuildMission;
    RoundConserves(w, kind, stops);
    BuiltProper(w.counter, kind, stops);
    DispatchOk(w.units, w.queue + [BuildMission(w.counter, kind, stops)], ambient);
    DispatchOk(w.units, w.queue, ambient);
  }

  lemma NewOk(u: Unit, ambient: real)
    requires Climate(ambient) && NewRobot(u, ambient)
    ensures UnitOk(u, ambient) && Temperate(u, ambient)
  { }

  lemma {:induction false} Reachable(w: World, steps: seq<Step>, ambient: real)
    requires Climate(ambient) && Start(w, ambient)
    ensures Inv(Run(w, steps, ambient), ambient)
    ensures (forall k :: 0 <= k < |steps| ==> Spikeless(steps[k])) ==>
        AllTemperate(Run(w, steps, ambient).units, ambient)
  {
    hide Apply, UnitOk, Temperate, NewRobot, Spikeless, Climate;
    if steps == [] {
      forall i | 0 <= i < |w.units| ensures UnitOk(w.units[i], ambient) && Temperate(w.units[i], ambient) {
        NewOk(w.units[i], ambient);
      }
      NoneHeld(w.units, ambient);
    } else {
      var n := |steps| - 1;
      Reachable(w, steps[..n], ambient);
      StepKeeps(Run(w, steps[..n], ambient), steps[n], ambient);
    }
  }

  lemma {:induction false} NoneHeld(units: seq<Unit>, ambient: real)
    requires forall i :: 0 <= i < |units| ==> NewRobot(units[i], ambient)
    ensures HeldBag(units) == multiset{}
  {
    if units != [] {
      assert NewRobot(units[|units| - 1], ambient);
      NoneHeld(units[..|units| - 1], ambient);
    }
  }
}
