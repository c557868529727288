/** What the simulator guarantees over every interleaving of ticks, commands and dispatch rounds. */
module FleetTheorems {
  import opened Prelude
  import opened RobotModel
  import opened RobotSafety
  import opened FleetMissions

  // ----- every mission is in one place

  predicate Holds(u: Unit, id: nat) {
    u.robot.task.mission.Some? && u.robot.task.mission.value.id == id
  }

  ghost predicate Queued(w: World, id: nat) {
    exists k :: 0 <= k < |w.queue| && w.queue[k].id == id
  }

  ghost predicate Held(w: World, id: nat) {
    exists i :: 0 <= i < |w.units| && Holds(w.units[i], id)
  }

  lemma {:induction false} QueueCount(queue: seq<Mission>, id: nat)
    ensures QueueBag(queue)[id] > 0 <==> exists k :: 0 <= k < |queue| && queue[k].id == id
  {
    if queue != [] {
      QueueCount(queue[1..], id);
      if k :| 0 <= k < |queue| && queue[k].id == id { if k > 0 { assert queue[1..][k - 1].id == id; } }
      if k :| 0 <= k < |queue[1..]| && queue[1..][k].id == id { assert queue[k + 1].id == id; }
    }
  }

  lemma {:induction false} HeldCount(units: seq<Unit>, id: nat)
    ensures HeldBag(units)[id] > 0 <==> exists i :: 0 <= i < |units| && Holds(units[i], id)
  {
    if units != [] {
      var n := |units| - 1;
      HeldCount(units[..n], id);
      if i :| 0 <= i < |units| && Holds(units[i], id) { if i < n { assert Holds(units[..n][i], id); } }
      if i :| 0 <= i < n && Holds(units[..n][i], id) { assert Holds(units[i], id); }
    }
  }

  lemma {:induction false} HeldTwice(units: seq<Unit>, i: nat, j: nat, id: nat)
    requires i < j < |units| && Holds(units[i], id) && Holds(units[j], id)
    ensures HeldBag(units)[id] >= 2
  {
    var n := |units| - 1;
    if j < n { HeldTwice(units[..n], i, j, id); }
    else {
      assert Holds(units[..n][i], id);
      HeldCount(units[..n], id);
    }
  }

  lemma {:induction false} QueuedTwice(queue: seq<Mission>, i: nat, j: nat)
    requires i < j < |queue| && queue[i].id == queue[j].id
    ensures QueueBag(queue)[queue[i].id] >= 2
  {
    if i > 0 { QueuedTwice(queue[1..], i - 1, j - 1); }
    else {
      assert queue[1..][j - 1].id == queue[0].id;
      QueueCount(queue[1..], queue[0].id);
    }
  }

  lemma {:induction false} IdsCount(n: nat, id: nat)
    ensures IdsBelow(n)[id] == if 1 <= id < n then 1 else 0
  {
    if n > 1 { IdsCount(n - 1, id); }
  }

  lemma PlaceCounts(w: World, id: nat)
    requires Conserved(w)
    ensures QueueBag(w.queue)[id] + HeldBag(w.units)[id] + multiset(w.finished)[id] + multiset(w.aborted)[id]
            == if 1 <= id < w.counter then 1 else 0
  {
    hide QueueBag, HeldBag, IdsBelow;
    IdsCount(w.counter, id);
    var all := QueueBag(w.queue) + HeldBag(w.units) + multiset(w.finished) + multiset(w.aborted);
    assert all[id] == IdsBelow(w.counter)[id];
  }

  /** Waiting, held, finished or given up: exactly one of these for every mission built. */
  ghost predicate OnePlace(w: World, id: nat) {
    if Queued(w, id) then !Held(w, id) && id !in w.finished && id !in w.aborted
    else if Held(w, id) then id !in w.finished && id !in w.aborted
    else id in w.finished <==> id !in w.aborted
  }

  lemma PlacesApart(w: World, id: nat)
    requires Conserved(w) && 1 <= id < w.counter
    ensures OnePlace(w, id)
  {
    hide QueueBag, HeldBag, IdsBelow, Conserved, Holds;
    PlaceCounts(w, id);
    QueueCount(w.queue, id);
    HeldCount(w.units, id);
    assert id in w.finished <==> multiset(w.finished)[id] > 0;
    assert id in w.aborted <==> multiset(w.aborted)[id] > 0;
  }

  /** No mission is lost, duplicated, or shared by two robots. */
  lemma MissionPlaces(w: World, steps: seq<Step>, ambient: real)
    requires Climate(ambient) && Start(w, ambient)
    ensures var w' := Run(w, steps, ambient);
            && (forall id :: 1 <= id < w'.counter ==> OnePlace(w', id))
            && (forall i, j, id: nat :: 0 <= i < j < |w'.units| ==> !(Holds(w'.units[i], id) && Holds(w'.units[j], id)))
            && (forall i, j :: 0 <= i < j < |w'.queue| ==> w'.queue[i].id != w'.queue[j].id)
  {
    hide Run, UnitsOk, QueueOk, Conserved, QueueBag, HeldBag, OnePlace, Holds, Start;
    Reachable(w, steps, ambient);
    var w' := Run(w, steps, ambient);
    forall id | 1 <= id < w'.counter ensures OnePlace(w', id) { PlacesApart(w', id); }
    forall i, j, id: nat | 0 <= i < j < |w'.units| ensures !(Holds(w'.units[i], id) && Holds(w'.units[j], id)) {
      PlaceCounts(w', id);
      if Holds(w'.units[i], id) && Holds(w'.units[j], id) { HeldTwice(w'.units, i, j, id); }
    }
    forall i, j | 0 <= i < j < |w'.queue| ensures w'.queue[i].id != w'.queue[j].id {
      PlaceCounts(w', w'.queue[i].id);
      if w'.queue[i].id == w'.queue[j].id { QueuedTwice(w'.queue, i, j); }
    }
  }

  // ----- every robot is consistent

  /** No IndexError, no mission while returning, nothing held by a stopped or dead robot. */
  lemma RobotsConsistent(w: World, steps: seq<Step>, ambient: real, i: nat)
    requires Climate(ambient) && Start(w, ambient) && i < |Run(w, steps, ambient).units|
    ensures var u := Run(w, steps, ambient).units[i];
            var t := u.robot.task;
            && !u.pc.Crashed?
            && (t.mission.Some? ==> !t.returning)
            && (t.mission.Some? ==> u.pc.Completing? || t.mission.value.current < |t.mission.value.route|)
            && (Parked(u.robot.status) ==> t.mission.None? && u.robot.body.speed == 0.0)
            && (u.robot.status == Dead ==> u.robot.body.battery <= 5.0 || u.robot.body.temp >= 95.0)
            && (t.progress == Some(100.0) <==> u.pc.Completing?)
  {
    hide Run, ProgressAt, Start, Conserved;
    Reachable(w, steps, ambient);
    var t := Run(w, steps, ambient).units[i].robot.task;
    if t.mission.Some? { ProgressEnds(t.mission.value.current, |t.mission.value.route|); }
  }

  /** The dispatcher always finds a first step to measure from. */
  lemma QueuedMissionsProper(w: World, steps: seq<Step>, ambient: real, k: nat)
    requires Climate(ambient) && Start(w, ambient) && k < |Run(w, steps, ambient).queue|
    ensures var m := Run(w, steps, ambient).queue[k]; 2 <= |m.route| <= 6 && m.current == 0
  {
    hide Run, Start, UnitsOk, Conserved;
    Reachable(w, steps, ambient);
  }

  // ----- dispatch rounds

  /** After a round either no mission waits or no robot is free. */
  lemma {:induction false} DispatchSaturates(units: seq<Unit>, queue: seq<Mission>, k: nat)
    requires k < |Dispatched(units, queue).0|
    ensures Dispatched(units, queue).1 != [] ==> !Eligible(Dispatched(units, queue).0[k].robot)
    decreases |queue|
  {
    hide Nearest, Eligible, Tasked;
    if queue != [] {
      var best := Nearest(units, queue[0]);
      if best.Some? { DispatchSaturates(units[best.value := Tasked(units[best.value], queue[0])], queue[1..], k); }
      else if Eligible(units[k].robot) { NearestIsNearest(units, queue[0], k); }
    }
  }

  /** Online, ACTIVE or LOW POWER, idle, not returning, with charge above 20. */
  predicate PlainlyFree(r: Robot) {
    && r.online && (r.status == Active || r.status == LowPower)
    && r.task.mission.None? && !r.task.returning && r.body.battery > 20.0
  }

  /** The dispatcher takes every free robot for one, and no other. */
  lemma EligibleExactly(r: Robot)
    ensures Eligible(r) <==> PlainlyFree(r)
  { }

  /**
  A mission goes to a free robot than which no free robot is closer to its first stop, the earliest of the closest.
  */
  lemma NearestByDistance(units: seq<Unit>, m: Mission, k: nat)
    requires m.route != [] && k < |units| && PlainlyFree(units[k].robot)
    ensures var best := Nearest(units, m);
            && best.Some? && PlainlyFree(units[best.value].robot)
            && var d, d' := DistSq(m.route[0].at, units[best.value].robot.body.pos),
                DistSq(m.route[0].at, units[k].robot.body.pos);
               d < d' || (d == d' && best.value <= k)
  {
    hide DistSq, Eligible, PlainlyFree;
    EligibleExactly(units[k].robot);
    NearestIsNearest(units, m, k);
    EligibleExactly(units[Nearest(units, m).value].robot);
  }

  ghost predicate FromQueue(queue: seq<Mission>, m: Mission) { exists k :: 0 <= k < |queue| && queue[k] == m }

  /** A round leaves a robot alone, or gives an eligible one a waiting mission. */
  lemma {:induction false} DispatchGives(units: seq<Unit>, queue: seq<Mission>, i: nat)
    requires i < |units|
    ensures var r := Dispatched(units, queue);
            && |r.0| == |units|
            && (r.0[i] == units[i] || (Eligible(units[i].robot) && r.0[i].robot.task.mission.Some? &&
                FromQueue(queue, r.0[i].robot.task.mission.value)))
    decreases |queue|
  {
    hide Nearest;
    if queue != [] && Nearest(units, queue[0]).Some? {
      var b := Nearest(units, queue[0]).value;
      NearestEligible(units, queue[0]);
      var units1 := units[b := Tasked(units[b], queue[0])];
      DispatchGives(units1, queue[1..], i);
      var after := Dispatched(units1, queue[1..]).0[i];
      if after != units1[i] {
        var k :| 0 <= k < |queue[1..]| && queue[1..][k] == after.robot.task.mission.value;
        assert queue[k + 1] == after.robot.task.mission.value;
      } else if i == b {
        assert queue[0] == after.robot.task.mission.value;
      }
    }
  }

  lemma {:induction false} DispatchTakes(units: seq<Unit>, queue: seq<Mission>, k: nat)
    requires k < |Dispatched(units, queue).1|
    ensures FromQueue(queue, Dispatched(units, queue).1[k])
    decreases |queue|
  {
    hide Nearest;
    if queue != [] && Nearest(units, queue[0]).Some? {
      var b := Nearest(units, queue[0]).value;
      var units1 := units[b := Tasked(units[b], queue[0])];
      DispatchTakes(units1, queue[1..], k);
      var m := Dispatched(units1, queue[1..]).1[k];
      var l :| 0 <= l < |queue[1..]| && queue[1..][l] == m;
      assert queue[l + 1] == m;
    } else { assert queue[k] == Dispatched(units, queue).1[k]; }
  }

  // ----- progress over runs

  /** Robot `i` holds mission `id` and has done at least `current` of its steps. */
  ghost predicate Along(w: World, i: nat, id: nat, current: nat, total: nat) {
    i < |w.units| && Holds(w.units[i], id) ==>
      var m := w.units[i].robot.task.mission.value; |m.route| == total && current <= m.current
  }

  /** Robot `i` once held mission `id` at step `current`; the mission is no longer waiting. */
  ghost predicate Underway(w: World, i: nat, id: nat, current: nat, total: nat) {
    1 <= id < w.counter && !Queued(w, id) && Along(w, i, id, current, total)
  }

  lemma RoundUnderway(w: World, kind: Kind, stops: seq<Waypoint>, i: nat, id: nat, current: nat, total: nat)
    requires Underway(w, i, id, current, total)
    ensures Underway(Round(w, kind, stops), i, id, current, total)
  {
    hide Dispatched, BuildMission;
    assert BuildMission(w.counter, kind, stops).id == w.counter by { BuiltId(w.counter, kind, stops); }
    var queue := if |w.queue| < 4 then w.queue + [BuildMission(w.counter, kind, stops)] else w.queue;
    var r := Dispatched(w.units, queue);
    if k :| 0 <= k < |r.1| && r.1[k].id == id {
      DispatchTakes(w.units, queue, k);
      NotWaiting(w, kind, stops, r.1[k]);
    }
    if i < |w.units| {
      DispatchGives(w.units, queue, i);
      if r.0[i] != w.units[i] { NotWaiting(w, kind, stops, r.0[i].robot.task.mission.value); }
    } else { DispatchLength(w.units, queue); }
  }

  lemma BuiltId(id: nat, kind: Kind, stops: seq<Waypoint>)
    ensures BuildMission(id, kind, stops).id == id
  { }

  lemma {:induction false} DispatchLength(units: seq<Unit>, queue: seq<Mission>)
    ensures |Dispatched(units, queue).0| == |units|
    decreases |queue|
  {
    hide Nearest;
    if queue != [] && Nearest(units, queue[0]).Some? {
      var b := Nearest(units, queue[0]).value;
      DispatchLength(units[b := Tasked(units[b], queue[0])], queue[1..]);
    }
  }

  /** A mission in the queue of a round either waited before it or is the new one. */
  lemma NotWaiting(w: World, kind: Kind, stops: seq<Waypoint>, m: Mission)
    requires FromQueue(if |w.queue| < 4 then w.queue + [BuildMission(w.counter, kind, stops)] else w.queue, m)
    ensures Queued(w, m.id) || m.id == w.counter
  {
    hide BuildMission;
    BuiltId(w.counter, kind, stops);
    var queue := if |w.queue| < 4 then w.queue + [BuildMission(w.counter, kind, stops)] else w.queue;
    var k :| 0 <= k < |queue| && queue[k] == m;
    if k < |w.queue| { assert w.queue[k].id == m.id; }
  }

  lemma StepUnderway(w: World, s: Step, ambient: real, i: nat, id: nat, current: nat, total: nat)
    requires Climate(ambient) && Inv(w, ambient) && Underway(w, i, id, current, total)
    ensures Underway(Apply(w, s, ambient), i, id, current, total)
  {
    hide UnitOk, Round, Piece, Plausible, HealthOk, Triggered, Goal, MissionDone, Conserved, QueueOk;
    if Possible(w, s) {
      if s.Dispatch? { RoundUnderway(w, s.kind, s.stops, i, id, current, total); }
      else { PieceKeeps(w.units[s.i], s, ambient); }
    }
  }

  lemma {:induction false} RunUnderway(w: World, steps: seq<Step>, n: nat, ambient: real, i: nat, id: nat, current: nat,
      total: nat)
    requires Climate(ambient) && Start(w, ambient) && n <= |steps|
    requires Underway(Run(w, steps[..n], ambient), i, id, current, total)
    ensures Underway(Run(w, steps, ambient), i, id, current, total)
    decreases |steps|
  {
    hide Apply, Underway, Inv, Start, Climate;
    if n == |steps| { assert steps[..n] == steps; }
    else {
      var init := steps[..|steps| - 1];
      assert init[..n] == steps[..n];
      RunUnderway(w, init, n, ambient, i, id, current, total);
      Reachable(w, init, ambient);
      StepUnderway(Run(w, init, ambient), steps[|steps| - 1], ambient, i, id, current, total);
    }
  }

  /** However long the run, a robot's progress on the mission it holds never decreases. */
  lemma ProgressNeverDrops(w: World, steps: seq<Step>, n: nat, ambient: real, i: nat, id: nat)
    requires Climate(ambient) && Start(w, ambient) && n <= |steps|
    requires var early := Run(w, steps[..n], ambient); i < |early.units| && Holds(early.units[i], id)
    requires var late := Run(w, steps, ambient); i < |late.units| && Holds(late.units[i], id)
    ensures var early := Run(w, steps[..n], ambient).units[i].robot.task.progress;
            var late := Run(w, steps, ambient).units[i].robot.task.progress;
            early.Some? && late.Some? && early.value <= late.value
  {
    hide Run, Start, ProgressAt, QueueOk, ParkedOk, Physical, Conserved;
    var early, late := Run(w, steps[..n], ambient), Run(w, steps, ambient);
    Reachable(w, steps[..n], ambient);
    Reachable(w, steps, ambient);
    var m := early.units[i].robot.task.mission.value;
    HeldNotQueued(early, i, id);
    RunUnderway(w, steps, n, ambient, i, id, m.current, |m.route|);
    assert UnitOk(early.units[i], ambient) && UnitOk(late.units[i], ambient);
    ProgressMonotone(m.current, late.units[i].robot.task.mission.value.current, |m.route|);
  }

  lemma HeldNotQueued(w: World, i: nat, id: nat)
    requires Conserved(w) && i < |w.units| && Holds(w.units[i], id)
    ensures 1 <= id < w.counter && !Queued(w, id)
  {
    hide QueueBag, HeldBag, IdsBelow, Conserved, Holds;
    PlaceCounts(w, id);
    HeldCount(w.units, id);
    QueueCount(w.queue, id);
  }

  // ----- emergency stop

  ghost predicate Frozen(w: World, i: nat, body: Body, health: Health) {
    && i < |w.units|
    && var u := w.units[i];
       && u.robot.status == Stopped && u.robot.body == body && u.robot.health == health
       && u.robot.task.mission.None? && u.robot.task.progress.None? && !u.robot.task.returning
       && !IsDead(u.robot) && (u.pc.Asleep? || u.pc.Polling?)
  }

  predicate Releases(s: Step, i: nat) {
    s.Obey? && s.i == i && (s.action == Resume || s.action == ReturnToBase)
  }

  lemma StepFrozen(w: World, s: Step, ambient: real, i: nat, body: Body, health: Health)
    requires Frozen(w, i, body, health) && body.speed == 0.0 && !Releases(s, i)
    ensures Frozen(Apply(w, s, ambient), i, body, health)
  {
    hide Dispatched, BuildMission, Moved, Triggered, Goal, Plausible, HealthOk, MissionDone;
    if Possible(w, s) && s.Dispatch? {
      var queue := if |w.queue| < 4 then w.queue + [BuildMission(w.counter, s.kind, s.stops)] else w.queue;
      DispatchGives(w.units, queue, i);
    }
  }

  lemma {:induction false} RunFrozen(w: World, steps: seq<Step>, ambient: real, i: nat, body: Body, health: Health)
    requires Frozen(w, i, body, health) && body.speed == 0.0
    requires forall k :: 0 <= k < |steps| ==> !Releases(steps[k], i)
    ensures Frozen(Run(w, steps, ambient), i, body, health)
  {
    hide Apply, Frozen, Releases;
    if steps != [] {
      var n := |steps| - 1;
      RunFrozen(w, steps[..n], ambient, i, body, health);
      StepFrozen(Run(w, steps[..n], ambient), steps[n], ambient, i, body, health);
    }
  }

  /**
  After an EMERGENCY_STOP, a robot within the limits stays stopped, where it is, at the same charge and
  temperature and without a mission, until it is told to resume or return.
  */
  lemma StopHolds(w: World, i: nat, steps: seq<Step>, ambient: real)
    requires i < |w.units| && w.units[i].pc.Polling? && !IsDead(w.units[i].robot)
    requires forall k :: 0 <= k < |steps| ==> !Releases(steps[k], i)
    ensures var w' := Run(Apply(w, Obey(i, EmergencyStop), ambient), steps, ambient);
            && i < |w'.units|
            && var r := w'.units[i].robot;
               && r.status == Stopped && r.task.mission.None? && r.body == w.units[i].robot.body.(speed := 0.0)
  {
    hide Run, MissionDone;
    RunFrozen(Apply(w, Obey(i, EmergencyStop), ambient), steps, ambient, i, w.units[i].robot.body.(speed := 0.0),
        w.units[i].robot.health);
  }

  /** The limits overrule a stop: a robot past them is declared dead at the end of the same poll. */
  lemma StopOverruled(u: Unit, ambient: real, d: Draw)
    requires u.pc.Polling?
    ensures Acted(Obeyed(u, EmergencyStop), ambient, d).robot.status == if IsDead(u.robot) then Dead else Stopped
  { }

  // ----- heat

  /** Whatever spikes occur, no robot is ever colder than its surroundings, too fast, or worn beyond ten percent. */
  lemma PhysicalBounds(w: World, steps: seq<Step>, ambient: real, i: nat)
    requires Climate(ambient) && Start(w, ambient) && i < |Run(w, steps, ambient).units|
    ensures var u := Run(w, steps, ambient).units[i];
            && ambient <= u.robot.body.temp && 0.0 <= u.robot.body.speed <= 2.2 && HealthOk(u.robot.health)
            && (u.pc.Asleep? ==> 0.0 <= u.robot.body.battery <= 100.0 && u.robot.body.temp <= 99.0)
  {
    hide Run, Start, Conserved, Tracked, ParkedOk, HealthOk;
    Reachable(w, steps, ambient);
  }

  /** Without a spike no robot gets past ambient + 10.375, so the 80-degree branches are dead code. */
  lemma ThermalCeiling(w: World, steps: seq<Step>, ambient: real, i: nat)
    requires Climate(ambient) && Start(w, ambient) && i < |Run(w, steps, ambient).units|
    requires forall k :: 0 <= k < |steps| ==> Spikeless(steps[k])
    ensures var u := Run(w, steps, ambient).units[i];
            && u.robot.body.temp <= ambient + 10.375 < 80.0
            && u.robot.status != Overheating && !u.robot.suspended
  {
    hide Run, Start, Conserved, UnitOk;
    Reachable(w, steps, ambient);
  }

  // ----- charging ends

  /** Robot `i` gets to act: it is at the end of its command poll. */
  predicate Acts(w: World, s: Step, i: nat) {
    s.Act? && s.i == i && Possible(w, s) && w.units[i].pc.Polling?
  }

  ghost function ActsIn(w: World, steps: seq<Step>, i: nat, ambient: real): nat {
    if steps == [] then 0
    else
      var n := |steps| - 1;
      ActsIn(w, steps[..n], i, ambient) + if Acts(Run(w, steps[..n], ambient), steps[n], i) then 1 else 0
  }

  /** Still docked after `n` ticks, each of which has gained at least 0.1925 percent. */
  ghost predicate ChargedBy(w: World, i: nat, start: real, n: nat) {
    && i < |w.units| && Docked(w.units[i])
    && w.units[i].robot.body.battery >= start + 0.1925 * n as real
    && (n > 0 ==> w.units[i].robot.body.battery < 100.0)
  }

  lemma DockedPiece(u: Unit, s: Step, ambient: real)
    requires Climate(ambient) && UnitOk(u, ambient) && Temperate(u, ambient) && Docked(u)
    requires !s.Obey? && (s.Act? ==> Plausible(s.draw))
    ensures var v := Piece(u, s, ambient);
            if s.Act? && u.pc.Polling?
            then Full(v) || (Docked(v) && u.robot.body.battery + 0.1925 <= v.robot.body.battery < 100.0)
            else Docked(v) && v.robot.body.battery == u.robot.body.battery
  {
    hide UnitOk, Acted, Mourned, Finished, Woken, Closed, Plausible;
    match s
    case Wake(_, now) => DockedRests(u, now);
    case Close(_) => DockedRests(u, 0.0);
    case Act(_, d) =>
      if u.pc.Polling? {
        DockedPhysical(u, ambient);
        DockedActs(u, ambient, d);
      } else {
        NotTheirTurn(u, s, ambient);
      }
    case Mourn(_, _, _) => NotTheirTurn(u, s, ambient);
    case Finish(_, _) => NotTheirTurn(u, s, ambient);
    case Dispatch(_, _) =>
  }

  lemma DockedPhysical(u: Unit, ambient: real)
    requires UnitOk(u, ambient)
    ensures Physical(u, ambient)
  { }

  lemma NotTheirTurn(u: Unit, s: Step, ambient: real)
    requires Docked(u) && ((s.Act? && !u.pc.Polling?) || s.Mourn? || s.Finish?)
    ensures Piece(u, s, ambient) == u
  { }

  lemma StepCharges(w: World, s: Step, ambient: real, i: nat, start: real, n: nat)
    requires Climate(ambient) && Inv(w, ambient) && AllTemperate(w.units, ambient) && ChargedBy(w, i, start, n)
    requires !(s.Obey? && s.i == i)
    ensures var v := Apply(w, s, ambient);
            i < |v.units| && (Full(v.units[i]) || ChargedBy(v, i, start, n + if Acts(w, s, i) then 1 else 0))
  {
    hide UnitOk, Temperate, Docked, Piece, Dispatched, BuildMission, Plausible, HealthOk, Triggered, Goal, MissionDone,
        Conserved, QueueOk;
    if Possible(w, s) {
      if s.Dispatch? {
        var queue := if |w.queue| < 4 then w.queue + [BuildMission(w.counter, s.kind, s.stops)] else w.queue;
        DispatchGives(w.units, queue, i);
        DockedIneligible(w.units[i]);
      } else if s.i == i { DockedPiece(w.units[i], s, ambient); }
    }
  }

  lemma DockedIneligible(u: Unit)
    requires Docked(u)
    ensures !Eligible(u.robot)
  { }

  lemma {:induction false} RunCharges(w: World, steps: seq<Step>, ambient: real, i: nat, start: real)
    requires Climate(ambient) && Inv(w, ambient) && AllTemperate(w.units, ambient) && ChargedBy(w, i, start, 0)
    requires forall k :: 0 <= k < |steps| ==> Spikeless(steps[k]) && !(steps[k].Obey? && steps[k].i == i)
    ensures Inv(Run(w, steps, ambient), ambient) && AllTemperate(Run(w, steps, ambient).units, ambient)
    ensures ChargedBy(Run(w, steps, ambient), i, start, ActsIn(w, steps, i, ambient)) || FullAlong(w, steps, ambient, i)
  {
    hide Apply, Inv, AllTemperate, ChargedBy, Acts, FullAlong, Spikeless, Climate;
    if steps != [] {
      var n := |steps| - 1;
      RunCharges(w, steps[..n], ambient, i, start);
      var before := Run(w, steps[..n], ambient);
      StepKeeps(before, steps[n], ambient);
      if FullAlong(w, steps[..n], ambient, i) { FullEarlier(w, steps, n, ambient, i); }
      else {
        StepCharges(before, steps[n], ambient, i, start, ActsIn(w, steps[..n], i, ambient));
        if Full(Run(w, steps, ambient).units[i]) { FullNow(w, steps, ambient, i); }
      }
    }
  }

  /** At some moment of the run the robot was fully charged. */
  ghost predicate FullAlong(w: World, steps: seq<Step>, ambient: real, i: nat) {
    exists k :: 0 <= k <= |steps| && FullAt(w, steps[..k], ambient, i)
  }

  ghost predicate FullAt(w: World, steps: seq<Step>, ambient: real, i: nat) {
    i < |Run(w, steps, ambient).units| && Full(Run(w, steps, ambient).units[i])
  }

  lemma FullEarlier(w: World, steps: seq<Step>, n: nat, ambient: real, i: nat)
    requires n <= |steps| && FullAlong(w, steps[..n], ambient, i)
    ensures FullAlong(w, steps, ambient, i)
  {
    hide FullAt;
    var k :| 0 <= k <= n && FullAt(w, steps[..n][..k], ambient, i);
    assert steps[..n][..k] == steps[..k];
  }

  lemma FullNow(w: World, steps: seq<Step>, ambient: real, i: nat)
    requires i < |Run(w, steps, ambient).units| && Full(Run(w, steps, ambient).units[i])
    ensures FullAlong(w, steps, ambient, i)
  {
    hide Run, Full;
    assert steps[..|steps|] == steps;
    assert FullAt(w, steps[..|steps|], ambient, i);
  }

  /**
  However the rest of the fleet interleaves, a docked robot that gets no command and suffers no spike is fully
  charged and active again by its 494th tick.
  */
  lemma ChargingFinishes(w: World, before: seq<Step>, steps: seq<Step>, ambient: real, i: nat)
    requires Climate(ambient) && Start(w, ambient)
    requires forall k :: 0 <= k < |before| ==> Spikeless(before[k])
    requires forall k :: 0 <= k < |steps| ==> Spikeless(steps[k]) && !(steps[k].Obey? && steps[k].i == i)
    requires var now := Run(w, before, ambient); i < |now.units| && Docked(now.units[i])
    ensures var now := Run(w, before, ambient);
            ActsIn(now, steps, i, ambient) >= 494 ==> FullAlong(now, steps, ambient, i)
  {
    hide Run, Start, Inv, AllTemperate, FullAlong, Spikeless;
    Reachable(w, before, ambient);
    var now := Run(w, before, ambient);
    RunCharges(now, steps, ambient, i, now.units[i].robot.body.battery);
  }
}
