/**
The simulator's objects as the source updates them in place. Every method that ends at an await keeps the
robot's invariant and computes the model's piece of the tick, so the theorems about runs are about these objects.
*/
module RobotStates {
  import opened Prelude
  import opened RobotModel
  import opened RobotSafety
  import opened RobotLaws
  import opened FleetMissions
  import opened FleetTheorems

  class RobotState {
    var status: Status
    var online: bool
    var chargingSuspended: bool
    var deadSince: real
    var lastUpdate: real
    var mission: Option<Mission>
    var progress: Option<real>
    var returning: bool
    var pauseUntil: real
    var completed: nat
    var battery: real
    var temperature: real
    var speed: real
    var pos: Point
    var health: Health
    var pc: Pc

    ghost function Value(): Robot
      reads this
    {
      Robot(status, online, chargingSuspended, deadSince, lastUpdate,
            Task(mission, progress, returning, pauseUntil, completed),
            Body(battery, temperature, speed, pos), health)
    }

    ghost function View(): Unit
      reads this
    {
      Unit(Value(), pc)
    }

    /** What every robot keeps between any two awaits. */
    ghost predicate Valid(ambient: real)
      reads this
    {
      UnitOk(View(), ambient)
    }

    constructor (battery: real, temperature: real, health: Health, pos: Point, ghost ambient: real)
      requires InRange(battery, 65.0, 100.0) && ambient <= temperature <= 99.0 && HealthOk(health)
      ensures Valid(ambient)
      ensures View() == Unit(Robot(Active, true, false, 0.0, 0.0, Task(None, None, false, 0.0, 0),
                                   Body(battery, temperature, 0.0, pos), health), Asleep)
    {
      status, online, chargingSuspended, deadSince, lastUpdate := Active, true, false, 0.0, 0.0;
      mission, progress, returning, pauseUntil, completed := None, None, false, 0.0, 0;
      this.battery, this.temperature, speed, this.pos := battery, temperature, 0.0, pos;
      this.health, pc := health, Asleep;
    }

    /** `assign_mission`, as the dispatcher calls it: for an eligible robot and a mission from the queue. */
    method AssignMission(m: Mission, ghost ambient: real)
      requires Valid(ambient) && Candidate() && Proper(m) && m.current == 0
      modifies this
      ensures Valid(ambient) && View() == Tasked(old(View()), m)
      ensures mission == Some(m) && progress == Some(0.0) && status == Active && !returning
      ensures Value().body == old(Value().body) && health == old(health) && pc == old(pc)
    {
      hide UnitOk;
      TaskedOk(View(), m, ambient);
      mission, progress := Some(m), Some(0.0);
      status, pauseUntil, returning := Active, 0.0, false;
    }

    /** `clear_mission`. */
    method ClearMission()
      modifies this`mission, this`progress, this`pauseUntil
      ensures mission.None? && progress.None? && pauseUntil == 0.0
    {
      mission, progress, pauseUntil := None, None, 0.0;
    }

    /** The top of the loop. */
    method Wake(now: real, ghost ambient: real)
      requires Valid(ambient)
      modifies this
      ensures Valid(ambient) && View() == Woken(old(View()), now)
      ensures Value().body == old(Value().body) && Value().task == old(Value().task)
      ensures old(pc).Asleep? ==> lastUpdate == now && pc.Polling? && pc.now == now && 0.1 <= pc.dt <= 2.5
      ensures old(pc).Asleep? && 0.1 <= now - old(lastUpdate) <= 2.5 ==> pc.Polling? && pc.dt == now - old(lastUpdate)
    {
      hide UnitOk;
      WokenOk(View(), ambient, now);
      if pc.Asleep? {
        pc := Polling(now, Clamp(now - lastUpdate, 0.1, 2.5));
        lastUpdate := now;
      }
    }

    /** One claimed command: a stop leaves nothing held at speed 0, a return drops the mission. */
    method Obey(action: Action, ghost ambient: real)
      requires Valid(ambient)
      modifies this
      ensures Valid(ambient) && View() == Obeyed(old(View()), action)
      ensures old(pc).Polling? && action == EmergencyStop ==>
                status == Stopped && speed == 0.0 && mission.None? && !returning
      ensures old(pc).Polling? && action == ReturnToBase ==>
                mission.None? && returning && online && status == Active
      ensures Value().body == old(Value().body).(speed := speed) && health == old(health) && pc == old(pc)
      ensures old(pc).Polling? && action == Resume ==> status == Active && online && Value().task == old(Value().task)
      ensures !old(pc).Polling? || action == OtherAction ==> View() == old(View())
    {
      hide UnitOk;
      ObeyedOk(View(), ambient, action);
      if pc.Polling? {
        match action {
          case ReturnToBase =>
            ClearMission();
            returning, status, online := true, Active, true;
          case EmergencyStop =>
            status, speed := Stopped, 0.0;
            ClearMission();
            returning := false;
          case Resume =>
            status, online := Active, true;
          case OtherAction =>
        }
      }
    }

    /** Low power and top-up triggers. */
    method Trigger()
      modifies this
      ensures Value() == Triggered(old(Value())) && pc == old(pc)
    {
      if battery <= 30.0 && status != Charging {
        status := LowPower;
        if battery <= 25.0 && mission.Some? {
          ClearMission();
          returning := true;
        }
      }
      if mission.None? && battery <= 50.0 && !returning && status != Charging { returning := true; }
    }

    method Burn(ambient: real, dt: real, hot: bool)
      modifies this`battery, this`temperature
      ensures Value() == old(Value()).(body := Burned(old(Value()).body, health, ambient, dt, hot))
    {
      hide LoadHeat, Cooling;
      var motorPenalty := 1.0 + (100.0 - health.motor) / 100.0 * 0.45;
      var batteryPenalty := 1.0 + (100.0 - health.battery) / 100.0 * 0.65;
      var drain := (0.008 + 0.014 * speed) * motorPenalty * batteryPenalty;
      battery := battery - drain * dt * 20.0;
      temperature := temperature + (LoadHeat(health, speed, hot) - Cooling(temperature, ambient, hot)) * dt;
    }

    method Travel(goal: Point, dist: real, dt: real)
      requires dist > 0.0
      modifies this`pos
      ensures Value() == old(Value()).(body := Travelled(old(Value()).body, goal, dist, dt))
    {
      var step := speed * dt;
      pos := Point(pos.x + (goal.x - pos.x) / dist * step, pos.y + (goal.y - pos.y) / dist * step);
    }

    /** Branch 1. */
    method GoHome(ambient: real, dt: real, d: Draw)
      modifies this
      ensures Value() == Homeward(old(Value()), ambient, dt, d) && pc == old(pc)
    {
      hide Burned, Travelled, EffectiveSpeed, Lerp;
      status := if battery <= 20.0 then LowPower else Active;
      if d.dist < 0.5 {
        returning, status, pos, speed := false, Charging, BASE, 0.0;
      } else {
        speed := Lerp(speed, EffectiveSpeed(health.motor, 1.4, d.jitter), 0.22);
        Travel(BASE, d.dist, dt);
        Burn(ambient, dt, false);
      }
    }

    /** Branch 2. */
    method Charge(ambient: real, dt: real)
      requires status == Charging
      modifies this
      ensures Value() == Charged(old(Value()), ambient, dt) && pc == old(pc)
    {
      hide Cooled, ToppedUp, WarmedByCharge;
      speed := 0.0;
      if temperature >= 80.0 && !chargingSuspended { chargingSuspended := true; }
      if chargingSuspended {
        status := Overheating;
        temperature := Cooled(temperature, ambient, 0.08, dt);
        if temperature <= 60.0 { chargingSuspended, status := false, Charging; }
      } else {
        battery := ToppedUp(battery, health, dt);
        temperature := WarmedByCharge(temperature, health, ambient, dt);
        if battery >= 100.0 { status := Active; }
      }
    }

    /** A waypoint is reached. */
    method Reach(now: real, hot: bool)
      requires mission.Some? && mission.value.current < |mission.value.route|
      modifies this`mission, this`progress, this`pauseUntil, this`completed
      ensures Value().task == Reached(old(Value().task), now, hot)
    {
      hide ProgressAt;
      var m := mission.value;
      var step := m.route[m.current];
      m := m.(current := m.current + 1);
      mission := Some(m);
      progress := Some(ProgressAt(m.current, |m.route|));
      if !hot && step.pause > 0.0 { pauseUntil := now + step.pause; }
      if m.current >= |m.route| {
        completed := completed + 1;
        progress := Some(100.0);
      }
    }

    /**
    The moving part of branches 3 and 4. A waypoint within 0.45 is counted, with progress in step and 100
    exactly at the last one; otherwise the way to it shrinks by the step.
    */
    method Advance(now: real, dt: real, d: Draw, hot: bool)
      requires mission.Some? && mission.value.current < |mission.value.route|
      modifies this
      ensures Value() == Advanced(old(Value()), now, dt, d, hot) && pc == old(pc)
      ensures var m := old(mission.value);
              mission == Some(m.(current := if d.dist < 0.45 then m.current + 1 else m.current))
      ensures var step := old(mission.value).route[old(mission.value).current];
              d.dist < 0.45 && !hot && step.pause > 0.0 ==> pauseUntil == now + step.pause
      ensures mission.value.current == |mission.value.route| ==> completed == old(completed) + 1
      ensures old(Tracked(Value().task, false)) ==> Tracked(Value().task, MissionDone(Value().task))
      ensures var goal := old(mission.value).route[old(mission.value).current].at;
              d.dist >= 0.45 && d.dist * d.dist == DistSq(goal, old(pos)) ==>
                DistSq(goal, pos) == (d.dist - speed * dt) * (d.dist - speed * dt)
    {
      hide Travelled, EffectiveSpeed, Lerp, Reached, Tracked, DistSq;
      AdvanceFacts(Value(), now, dt, d, hot);
      var m := mission.value;
      var step := m.route[m.current];
      var target := EffectiveSpeed(health.motor, BaseSpeed(m.kind), d.jitter);
      if hot { target := target / 2.0; }
      speed := Lerp(speed, target, 0.22);
      if d.dist < 0.45 {
        Reach(now, hot);
      } else {
        Travel(step.at, d.dist, dt);
      }
    }

    /** Wear, and perhaps a spike; the geofence report comes next. */
    method Wear(d: Draw)
      modifies this
      ensures View() == Settled(old(Value()), d)
    {
      hide Clamp;
      var load := if mission.Some? then 1.3 else 0.5;
      health := Health(Clamp(health.battery - d.wearBattery * 6.0, 10.0, 100.0),
                       Clamp(health.motor - d.wearMotor * load * 6.0, 10.0, 100.0),
                       Clamp(health.sensor - d.wearSensor * 6.0, 10.0, 100.0),
                       Clamp(health.network - d.wearNetwork * 6.0, 10.0, 100.0));
      temperature := temperature + d.spike;
      pc := Closing;
    }

    method Pursue(ambient: real, now: real, dt: real, d: Draw, hot: bool)
      requires mission.Some?
      modifies this
      ensures View() == OnMission(old(Value()), ambient, now, dt, d, hot)
    {
      hide Advanced, Burned, Settled;
      if mission.value.current >= |mission.value.route| {
        pc := Crashed;
      } else {
        Advance(now, dt, d, hot);
        if MissionDone(Task(mission, progress, returning, pauseUntil, completed)) {
          pc := Completing(dt, hot);
        } else {
          Burn(ambient, dt, hot);
          Wear(d);
        }
      }
    }

    /** Branch 5. */
    method StandBy(ambient: real, dt: real)
      modifies this`speed, this`battery, this`temperature
      ensures Value() == old(Value()).(body := StoodBy(old(Value()).body, health, ambient, dt))
    {
      hide Cooled, Lerp;
      speed := Lerp(speed, 0.0, 0.35);
      var drain := 0.0015 * (1.0 + (100.0 - health.battery) / 100.0 * 0.25);
      battery := battery - drain * dt * 20.0;
      temperature := Cooled(temperature, ambient, 0.04, dt);
    }

    /** The five physics branches. */
    method Move(ambient: real, now: real, dt: real, d: Draw)
      modifies this
      ensures View() == Moved(old(Value()), ambient, now, dt, d)
    {
      hide Homeward, Charged, OnMission, Settled, Burned, StoodBy, Lerp, Cooled;
      if returning {
        GoHome(ambient, dt, d);
        Wear(d);
      } else if status == Charging {
        Charge(ambient, dt);
        Wear(d);
      } else if temperature >= 80.0 {
        status := Overheating;
        if mission.Some? {
          Pursue(ambient, now, dt, d, true);
        } else {
          speed := Lerp(speed, 0.0, 0.35);
          temperature := Cooled(temperature, ambient, 0.06, dt);
          Wear(d);
        }
      } else if mission.Some? {
        if pauseUntil > now {
          if mission.value.current >= |mission.value.route| { pc := Crashed; }
          else {
            speed := Lerp(speed, 0.0, 0.4);
            Burn(ambient, dt, false);
            Wear(d);
          }
        } else {
          Pursue(ambient, now, dt, d, false);
        }
      } else {
        StandBy(ambient, dt);
        Wear(d);
      }
    }

    method ShutDown(now: real)
      modifies this`status, this`online, this`speed, this`deadSince, this`mission, this`progress, this`pauseUntil,
          this`returning
      ensures Value() == Died(old(Value()), now) && pc == old(pc)
    {
      if status != Dead {
        status, online, speed, deadSince := Dead, false, 0.0, now;
        ClearMission();
        returning := false;
      }
    }

    /** From the end of the command poll to the next await. */
    method Act(ambient: real, d: Draw)
      requires Climate(ambient) && Valid(ambient) && Plausible(d)
      modifies this
      ensures Valid(ambient) && View() == Acted(old(View()), ambient, d)
      ensures Laws(old(View()), View(), ambient, d)
      ensures KeepsOrDrops(old(Value().task), Value().task)
      ensures d.spike == 0.0 && old(Temperate(View(), ambient)) ==> Temperate(View(), ambient)
      ensures old(pc).Polling? && old(status) == Stopped && !old(IsDead(Value())) ==>
          View() == old(View()).(pc := Asleep)
    {
      hide Moved, Triggered, Died, UnitOk, KeepsOrDrops, Temperate, Plausible, Laws;
      ActedOk(View(), ambient, d);
      ActedObeysLaws(View(), ambient, d);
      if pc.Polling? {
        var now, dt := pc.now, pc.dt;
        if battery <= 5.0 || temperature >= 95.0 || health.battery < 10.0 || health.motor < 10.0 {
          ShutDown(now);
          pc := Burying(now);
        } else if status == Stopped {
          pc := Asleep;
        } else {
          Trigger();
          Move(ambient, now, dt, d);
        }
      }
    }

    /** The end of a dead robot's tick. */
    method Mourn(ambient: real, delay: real, replacement: Health)
      requires Climate(ambient) && Valid(ambient) && HealthOk(replacement)
      modifies this`battery, this`temperature, this`health, this`status, this`online, this`chargingSuspended, this`pc
      ensures Valid(ambient) && View() == Mourned(old(View()), ambient, delay, replacement)
      ensures old(pc).Burying? ==> pc.Asleep? && (status == Dead || !IsDead(Value()))
      ensures old(pc).Burying? ==>
                if old(pc).now - deadSince >= delay
                then status == Active && online && !chargingSuspended && battery == 100.0 && temperature == ambient &&
                    health == replacement
                else Value() == old(Value())
    {
      hide UnitOk, HealthOk;
      MournedOk(View(), ambient, delay, replacement);
      BuryingIsDead(View(), ambient);
      HealthAboveLimit(replacement);
      if pc.Burying? {
        if pc.now - deadSince >= delay {
          battery, temperature, health := 100.0, ambient, replacement;
          status, online, chargingSuspended := Active, true, false;
        }
        pc := Asleep;
      }
    }

    /** The mission is reported; the rest of the tick. */
    method Finish(ambient: real, d: Draw)
      requires Valid(ambient) && Plausible(d)
      modifies this
      ensures Valid(ambient) && View() == Finished(old(View()), ambient, d)
      ensures old(pc).Completing? ==> mission.None? && progress.None? && completed == old(completed) && pos == old(pos)
      ensures old(pc).Completing? ==> status == if old(pc).hot then old(status) else Active
      ensures d.spike == 0.0 && old(Temperate(View(), ambient)) ==> Temperate(View(), ambient)
    {
      hide Burned, Settled, UnitOk, Temperate, KeepsOrDrops, Plausible;
      FinishedOk(View(), ambient, d);
      ghost var before := View();
      if pc.Completing? {
        var dt, hot := pc.dt, pc.hot;
        ClearMission();
        if !hot { status := Active; }
        Burn(ambient, dt, hot);
        Wear(d);
        SettledTask(before.robot, ambient, dt, hot, d);
      }
    }

    /** Clamp and sleep. */
    method Close(ghost ambient: real)
      requires Climate(ambient) && Valid(ambient)
      modifies this
      ensures Valid(ambient) && View() == Closed(old(View()))
      ensures old(pc).Closing? ==> pc.Asleep? && InRange(battery, 0.0, 100.0)
      ensures old(pc).Closing? ==> ambient <= temperature <= 99.0 && InRange(speed, 0.0, 2.2)
      ensures (0.0 <= old(battery) <= 100.0 ==> battery == old(battery)) && speed == old(speed)
      ensures old(temperature) <= 99.0 ==> temperature == old(temperature)
      ensures Value().task == old(Value().task) && status == old(status) && health == old(health) && pos == old(pos)
    {
      hide HealthOk, Tracked, ParkedOk;
      ClosedOk(View(), ambient);
      if pc.Closing? {
        battery := Clamp(battery, 0.0, 100.0);
        temperature := Clamp(temperature, 22.0, 99.0);
        speed := Clamp(speed, 0.0, 2.2);
        pc := Asleep;
      }
    }

    /** The dispatcher's candidate test. */
    predicate Candidate()
      reads this
      ensures Candidate() <==> Eligible(Value())
    {
      && online && status != Dead && status != Charging && status != Overheating && status != Stopped
      && mission.None? && !returning && battery > 20.0
    }
  }

  lemma BuryingIsDead(u: Unit, ambient: real)
    requires UnitOk(u, ambient)
    ensures u.pc.Burying? ==> u.robot.status == Dead
  { }

  lemma HealthAboveLimit(h: Health)
    requires HealthOk(h)
    ensures h.battery >= 10.0 && h.motor >= 10.0
  { }

  /** The rest of a completing tick leaves the robot where it is, with nothing held. */
  lemma SettledTask(r: Robot, ambient: real, dt: real, hot: bool, d: Draw)
    ensures var r1 := r.(task := Cleared(r.task), status := if hot then r.status else Active);
            var u := Settled(r1.(body := Burned(r1.body, r1.health, ambient, dt, hot)), d);
            u.robot.task == Cleared(r.task) && u.robot.body.pos == r.body.pos && u.robot.status == r1.status
  {
    hide Clamp, LoadHeat, Cooling;
  }

  /** The objects show these values. */
  ghost predicate Shows(robots: seq<RobotState>, units: seq<Unit>)
    reads robots
  {
    |robots| == |units| && forall i :: 0 <= i < |robots| ==> robots[i].View() == units[i]
  }

  /** list.remove. */
  function Removed(queue: seq<Mission>, m: Mission): seq<Mission> {
    if queue == [] then [] else if queue[0] == m then queue[1..] else [queue[0]] + Removed(queue[1..], m)
  }

  class Dispatcher {
    var queue: seq<Mission>
    var counter: nat

    constructor ()
      ensures queue == [] && counter == 1
    {
      queue, counter := [], 1;
    }

    /** The first of the closest candidates, as sorting by distance and taking the head finds it. */
    method Select(robots: seq<RobotState>, m: Mission, ghost units: seq<Unit>) returns (best: Option<nat>)
      requires m.route != [] && Shows(robots, units)
      ensures best == Nearest(units, m)
    {
      hide DistSq;
      best := None;
      var gap := 0.0;
      for i := 0 to |robots|
        invariant best == Nearest(units[..i], m)
        invariant best.Some? ==> gap == Gap(units[best.value], m)
      {
        assert units[..i + 1][..i] == units[..i];
        assert robots[i].View() == units[i];
        if robots[i].Candidate() {
          var g := DistSq(m.route[0].at, robots[i].pos);
          if best.None? || g < gap { best, gap := Some(i), g; }
        }
      }
      assert units[..|units|] == units;
    }

    /** The assignment loop: over a copy of the queue, removing what was assigned. */
    method AssignWaiting(robots: seq<RobotState>, ghost units: seq<Unit>, ghost ambient: real)
      requires Distinct(robots) && Shows(robots, units) && UnitsOk(units, ambient) && QueueOk(queue)
      modifies this`queue, robots
      ensures var r := Dispatched(units, old(queue)); Shows(robots, r.0) && queue == r.1
    {
      hide Nearest, Tasked, Eligible, UnitsOk, QueueOk, UnitOk, Proper;
      var waiting := queue;
      ghost var now := units;
      var k := 0;
      var stuck := false;
      while k < |waiting| && !stuck
        invariant 0 <= k <= |waiting| && queue == waiting[k..]
        invariant Shows(robots, now) && UnitsOk(now, ambient)
        invariant stuck ==> k < |waiting| && Nearest(now, waiting[k]).None?
        invariant Dispatched(now, queue) == Dispatched(units, waiting)
        decreases |waiting| - k, !stuck
      {
        var m := waiting[k];
        QueueHas(waiting, k);
        var best := Select(robots, m, now);
        if best.None? {
          stuck := true;
        } else {
          NearestEligible(now, m);
          TaskNext(now, best.value, m, ambient);
          robots[best.value].AssignMission(m, ambient);
          now := now[best.value := Tasked(now[best.value], m)];
          queue := Removed(queue, m);
          k := k + 1;
        }
      }
    }

    /**
    One pass of `dispatcher_loop`. It keeps every robot and the queue in order, and ends with an empty queue or
    without candidates.
    */
    method DispatchRound(robots: seq<RobotState>, kind: Kind, stops: seq<Waypoint>, ghost before: World,
        ghost ambient: real)
      requires Distinct(robots) && Shows(robots, before.units) && UnitsOk(before.units, ambient)
      requires queue == before.queue && counter == before.counter && QueueOk(queue) && EnoughPoints(kind, |stops|)
      modifies this, robots
      ensures var after := Round(before, kind, stops);
              Shows(robots, after.units) && queue == after.queue && counter == after.counter
      ensures QueueOk(queue) && forall i :: 0 <= i < |robots| ==> robots[i].Valid(ambient)
      ensures queue != [] ==> forall i :: 0 <= i < |robots| ==>
                !(robots[i].online && (robots[i].status == Active || robots[i].status == LowPower) &&
                  robots[i].mission.None? && !robots[i].returning && robots[i].battery > 20.0)
      ensures forall i :: 0 <= i < |robots| && robots[i].View() != old(robots[i].View()) ==>
                && old(robots[i].online && (robots[i].status == Active || robots[i].status == LowPower))
                && old(robots[i].mission.None? && !robots[i].returning && robots[i].battery > 20.0)
                && robots[i].mission.Some? && robots[i].mission.value.current == 0
      ensures counter == old(counter) + if |old(queue)| < 4 then 1 else 0
    {
      hide Dispatched, BuildMission, EnoughPoints, Eligible, UnitsOk, QueueOk, UnitOk, Proper;
      BuiltProper(counter, kind, stops);
      QueueGrows(queue, BuildMission(counter, kind, stops));
      if |queue| < 4 {
        queue := queue + [BuildMission(counter, kind, stops)];
        counter := counter + 1;
      }
      ghost var waiting := queue;
      AssignWaiting(robots, before.units, ambient);
      DispatchOk(before.units, waiting, ambient);
      ghost var after := Dispatched(before.units, waiting).0;
      AllUnits(after, ambient);
      forall i | 0 <= i < |robots| && after[i] != before.units[i]
        ensures Eligible(before.units[i].robot) && after[i].robot.task.mission.Some?
        ensures after[i].robot.task.mission.value.current == 0
      {
        DispatchGives(before.units, waiting, i);
        GivenFresh(waiting, after[i].robot.task.mission.value);
        EligibleExactly(before.units[i].robot);
      }
      forall i | 0 <= i < |robots| ensures Eligible(after[i].robot) <==> PlainlyFree(after[i].robot) {
        EligibleExactly(after[i].robot);
      }
      forall i | 0 <= i < |robots| ensures Eligible(before.units[i].robot) <==> PlainlyFree(before.units[i].robot) {
        EligibleExactly(before.units[i].robot);
      }
      forall i | 0 <= i < |robots| ensures queue != [] ==> !Eligible(after[i].robot) {
        if queue != [] { DispatchSaturates(before.units, waiting, i); }
      }
    }
  }

  lemma QueueHas(queue: seq<Mission>, k: nat)
    requires QueueOk(queue) && k < |queue|
    ensures Proper(queue[k]) && queue[k].current == 0 && queue[k].route != []
  { }

  lemma GivenFresh(queue: seq<Mission>, m: Mission)
    requires QueueOk(queue) && FromQueue(queue, m)
    ensures m.current == 0
  {
    var k :| 0 <= k < |queue| && queue[k] == m;
  }

  lemma QueueGrows(queue: seq<Mission>, m: Mission)
    requires QueueOk(queue)
    ensures Proper(m) && m.current == 0 ==> QueueOk(queue + [m])
  {
    hide Proper;
  }

  lemma TaskNext(units: seq<Unit>, i: nat, m: Mission, ambient: real)
    requires UnitsOk(units, ambient) && i < |units| && Eligible(units[i].robot) && Proper(m) && m.current == 0
    ensures UnitOk(units[i], ambient) && UnitsOk(units[i := Tasked(units[i], m)], ambient)
  {
    hide UnitOk, Eligible, Tasked, Proper;
    TaskedOk(units[i], m, ambient);
  }

  lemma AllUnits(units: seq<Unit>, ambient: real)
    requires UnitsOk(units, ambient)
    ensures forall i :: 0 <= i < |units| ==> UnitOk(units[i], ambient)
  { }
}
