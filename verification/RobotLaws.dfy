/**
What a robot does in a tick, branch by branch, by conditions that can be read off its state before the tick:
who drives, who pauses, who turns back, who charges, who cools, who stays put, and who dies.
*/
module RobotLaws {
  import opened Prelude
  import opened RobotModel
  import opened RobotSafety

  // ----- movement along a mission

  lemma AdvanceFacts(r: Robot, now: real, dt: real, d: Draw, hot: bool)
    requires r.task.mission.Some? && r.task.mission.value.current < |r.task.mission.value.route|
    ensures var r' := Advanced(r, now, dt, d, hot);
            var m := r.task.mission.value;
            && r'.task.mission == Some(m.(current := m.current + if d.dist < 0.45 then 1 else 0))
            && (Tracked(r.task, false) ==> Tracked(r'.task, MissionDone(r'.task)))
            && (d.dist < 0.45 && !hot && m.route[m.current].pause > 0.0 ==>
                  r'.task.pauseUntil == now + m.route[m.current].pause)
            && (r'.task.mission.value.current == |m.route| ==> r'.task.completed == r.task.completed + 1)
            && (d.dist >= 0.45 && d.dist * d.dist == DistSq(m.route[m.current].at, r.body.pos) ==>
                  DistSq(m.route[m.current].at, r'.body.pos)
                  == (d.dist - r'.body.speed * dt) * (d.dist - r'.body.speed * dt))
  {
    hide Travelled, EffectiveSpeed, Lerp, ProgressAt, DistSq;
    var r' := Advanced(r, now, dt, d, hot);
    var goal := r.task.mission.value.route[r.task.mission.value.current].at;
    if Tracked(r.task, false) { ReachedTracked(r.task, now, hot); }
    if d.dist >= 0.45 && d.dist * d.dist == DistSq(goal, r.body.pos) {
      var effective := EffectiveSpeed(r.health.motor, BaseSpeed(r.task.mission.value.kind), d.jitter);
      var b := r.body.(speed := Lerp(r.body.speed, if hot then effective / 2.0 else effective, 0.22));
      TravelKeepsSpeed(b, goal, d.dist, dt);
      TravelApproaches(b, goal, d.dist, dt);
    }
  }

  lemma TravelKeepsSpeed(b: Body, goal: Point, dist: real, dt: real)
    requires dist > 0.0
    ensures Travelled(b, goal, dist, dt).speed == b.speed
  { }

  /** A moving robot's new speed is positive. */
  lemma MovingSpeed(speed: real, motor: real, base: real, jitter: real, hot: bool)
    requires InRange(speed, 0.0, 2.2)
    ensures var effective := EffectiveSpeed(motor, base, jitter);
            var after := Lerp(speed, if hot then effective / 2.0 else effective, 0.22);
            after > 0.0 && Paced(speed, after, hot)
  {
    hide EffectiveSpeed;
    SpeedRange(motor, base, jitter);
  }

  // ----- the laws

  /** Polling, not stopped, and within the limits: the robot will act. */
  predicate Able(u: Unit) {
    u.pc.Polling? && u.robot.status != Stopped && u.robot.body.battery > 5.0 && u.robot.body.temp < 95.0
  }

  /** `dist` is the exact distance from the robot to the goal. */
  predicate Measures(d: Draw, goal: Point, u: Unit) {
    d.dist * d.dist == DistSq(goal, u.robot.body.pos)
  }

  /** The robot has moved towards the goal: what is left is the distance minus the step. */
  predicate Approaches(d: Draw, goal: Point, u: Unit, v: Unit)
    requires u.pc.Polling?
  {
    && v.robot.body.speed > 0.0
    && (Measures(d, goal, u) ==>
          DistSq(goal, v.robot.body.pos)
          == (d.dist - v.robot.body.speed * u.pc.dt) * (d.dist - v.robot.body.speed * u.pc.dt))
  }

  /**
  With a mission, charge above 25 and no pause (pauses end at 80 degrees), it reaches its waypoint or drives to it.
  */
  predicate Drives(u: Unit, v: Unit, d: Draw) {
    var r := u.robot;
    Able(u) && r.status != Charging && r.body.battery > 25.0 && r.task.mission.Some?
    && (r.body.temp >= 80.0 || r.task.pauseUntil <= u.pc.now) ==>
      var m := r.task.mission.value;
      && m.current < |m.route|
      && (d.dist < 0.45 ==> v.robot.task.mission == Some(m.(current := m.current + 1)))
      && (d.dist >= 0.45 ==> v.robot.task.mission == Some(m) && Approaches(d, m.route[m.current].at, u, v))
      && (r.body.temp >= 80.0 ==> v.robot.status == Overheating)
      && Paced(r.body.speed, v.robot.body.speed, r.body.temp >= 80.0)
  }

  /** Speed closes 22 percent of the gap to a target between 0.2 and 2.2, halved while overheating. */
  predicate Paced(before: real, after: real, hot: bool) {
    if hot then 0.78 * before + 0.022 <= after <= 0.78 * before + 0.242
    else 0.78 * before + 0.044 <= after <= 0.78 * before + 0.484
  }

  /** During a pause it stands where it is and keeps its mission. */
  predicate Pauses(u: Unit, v: Unit) {
    var r := u.robot;
    Able(u) && r.status != Charging && r.body.battery > 25.0 && r.task.mission.Some?
    && r.body.temp < 80.0 && r.task.pauseUntil > u.pc.now ==>
      && v.robot.task.mission == r.task.mission && v.robot.body.pos == r.body.pos
      && v.robot.body.speed == 0.6 * r.body.speed
  }

  /** Returning, or too low for what it is doing: at most 25 percent on a mission, at most 50 without one. */
  predicate TurnsBack(r: Robot) {
    || r.task.returning
    || (r.status != Charging && r.body.battery <= (if r.task.mission.Some? then 25.0 else 50.0))
  }

  /** Then it drops its mission and docks within 0.5 of the base, or drives there. */
  predicate GoesHome(u: Unit, v: Unit, d: Draw) {
    Able(u) && TurnsBack(u.robot) ==>
      && v.robot.task.mission.None?
      && (d.dist < 0.5 ==>
            v.robot.status == Charging && !v.robot.task.returning && v.robot.body.pos == Point(0.0, 0.0) &&
                v.robot.body.speed == 0.0)
      && (d.dist >= 0.5 ==>
            && v.robot.task.returning && Approaches(d, Point(0.0, 0.0), u, v)
            && v.robot.status == (if u.robot.body.battery <= 20.0 then LowPower else Active))
  }

  /** On the pad and cool it charges, and is active again when full. */
  predicate Charges(u: Unit, v: Unit) {
    var r := u.robot;
    Able(u) && r.status == Charging && !r.task.returning && r.body.temp < 80.0 && !r.suspended ==>
      && Min(100.0, r.body.battery + 0.1925) <= v.robot.body.battery <= 100.0
      && v.robot.status == (if v.robot.body.battery == 100.0 then Active else Charging)
      && v.robot.body.pos == r.body.pos && v.robot.body.speed == 0.0 && v.robot.task == r.task
  }

  /** Too hot to charge, it only cools, until 60 degrees. */
  predicate Suspends(u: Unit, v: Unit, ambient: real, d: Draw) {
    var r := u.robot;
    var temp := v.robot.body.temp - d.spike;
    Able(u) && r.status == Charging && !r.task.returning && (r.body.temp >= 80.0 || r.suspended) ==>
      && v.robot.body.battery == r.body.battery && v.robot.body.pos == r.body.pos && v.robot.task == r.task
      && temp <= r.body.temp && (r.body.temp > ambient ==> temp < r.body.temp)
      && v.robot.suspended == (temp > 60.0) && v.robot.status == (if temp > 60.0 then Overheating else Charging)
  }

  /** Without a task and with charge above 50 it stays put, coasts down and cools. */
  predicate Idles(u: Unit, v: Unit, ambient: real, d: Draw) {
    var r := u.robot;
    Able(u) && r.status != Charging && r.task.mission.None? && !r.task.returning && r.body.battery > 50.0 ==>
      && v.robot.task == r.task && v.robot.body.pos == r.body.pos && v.robot.body.speed == 0.65 * r.body.speed
      && v.robot.body.battery <= r.body.battery && v.robot.body.temp - d.spike <= r.body.temp
      && v.robot.status == (if r.body.temp >= 80.0 then Overheating else r.status)
  }

  /** At 5 percent or 95 degrees it dies, whatever it was doing. */
  predicate Dies(u: Unit, v: Unit) {
    u.pc.Polling? && (u.robot.body.battery <= 5.0 || u.robot.body.temp >= 95.0) ==>
      && v.robot.status == Dead && v.pc.Burying? && v.robot.task.mission.None? && !v.robot.task.returning
      && v.robot.body == u.robot.body.(speed := 0.0) && (u.robot.status != Dead ==> v.robot.deadSince == u.pc.now)
  }

  predicate Laws(u: Unit, v: Unit, ambient: real, d: Draw) {
    && Drives(u, v, d) && Pauses(u, v) && GoesHome(u, v, d) && Charges(u, v) && Suspends(u, v, ambient, d)
    && Idles(u, v, ambient, d) && Dies(u, v)
  }

  // ----- their proofs

  lemma AbleLives(u: Unit, ambient: real)
    requires UnitOk(u, ambient) && Able(u)
    ensures !IsDead(u.robot) && u.robot.status != Dead && InRange(u.robot.body.speed, 0.0, 2.2) && DtOk(u.pc)
    ensures Tracked(u.robot.task, false)
  { }

  lemma SettledKeeps(r: Robot, d: Draw)
    ensures var v := Settled(r, d);
            && v.robot.task == r.task && v.robot.status == r.status && v.robot.suspended == r.suspended
            && v.robot.body == r.body.(temp := r.body.temp + d.spike) && v.pc.Closing?
  {
    hide Clamp;
  }

  lemma BurnKeeps(b: Body, h: Health, ambient: real, dt: real, hot: bool)
    ensures Burned(b, h, ambient, dt, hot).pos == b.pos && Burned(b, h, ambient, dt, hot).speed == b.speed
  { }

  lemma OnMissionDrives(r: Robot, ambient: real, now: real, dt: real, d: Draw, hot: bool)
    requires r.task.mission.Some? && r.task.mission.value.current < |r.task.mission.value.route|
    requires InRange(r.body.speed, 0.0, 2.2)
    ensures var v := OnMission(r, ambient, now, dt, d, hot);
            var m := r.task.mission.value;
            && (d.dist < 0.45 ==> v.robot.task.mission == Some(m.(current := m.current + 1)))
            && (d.dist >= 0.45 ==> v.robot.task.mission == Some(m))
            && (d.dist >= 0.45 ==> Approaches(d, m.route[m.current].at, Unit(r, Polling(now, dt)), v))
            && v.robot.status == r.status && Paced(r.body.speed, v.robot.body.speed, hot)
  {
    hide Travelled, EffectiveSpeed, Lerp, ProgressAt, Burned, Settled, DistSq, Reached, Paced;
    var m := r.task.mission.value;
    AdvanceFacts(r, now, dt, d, hot);
    MovingSpeed(r.body.speed, r.health.motor, BaseSpeed(m.kind), d.jitter, hot);
    var r1 := Advanced(r, now, dt, d, hot);
    AdvancedSpeed(r, now, dt, d, hot);
    BurnKeeps(r1.body, r1.health, ambient, dt, hot);
    SettledKeeps(r1.(body := Burned(r1.body, r1.health, ambient, dt, hot)), d);
    if MissionDone(r1.task) && d.dist >= 0.45 { NotDone(r, now, dt, d, hot); }
  }

  lemma AdvancedSpeed(r: Robot, now: real, dt: real, d: Draw, hot: bool)
    requires r.task.mission.Some? && r.task.mission.value.current < |r.task.mission.value.route|
    ensures var effective := EffectiveSpeed(r.health.motor, BaseSpeed(r.task.mission.value.kind), d.jitter);
            Advanced(r, now, dt, d, hot).body.speed == Lerp(r.body.speed, if hot then effective / 2.0 else effective,
                0.22)
    ensures Advanced(r, now, dt, d, hot).status == r.status
  {
    hide EffectiveSpeed, Lerp, Reached;
  }

  lemma NotDone(r: Robot, now: real, dt: real, d: Draw, hot: bool)
    requires r.task.mission.Some? && r.task.mission.value.current < |r.task.mission.value.route| && d.dist >= 0.45
    ensures !MissionDone(Advanced(r, now, dt, d, hot).task)
  {
    hide Travelled, EffectiveSpeed, Lerp, Reached;
  }

  lemma DrivesLaw(u: Unit, ambient: real, d: Draw)
    requires UnitOk(u, ambient)
    ensures Drives(u, Acted(u, ambient, d), d)
  {
    hide UnitOk, Homeward, Charged, OnMission, Settled, Burned, StoodBy, CooledDown, Approaches, IsDead, Died,
        Paced;
    var r := u.robot;
    if Able(u) && r.status != Charging && r.body.battery > 25.0 && r.task.mission.Some?
       && (r.body.temp >= 80.0 || r.task.pauseUntil <= u.pc.now) {
      AbleLives(u, ambient);
      var r1 := Triggered(r);
      assert r1.task == r.task && r1.body == r.body;
      var hot := r.body.temp >= 80.0;
      var r2 := if hot then r1.(status := Overheating) else r1;
      OnMissionDrives(r2, ambient, u.pc.now, u.pc.dt, d, hot);
      var m := r.task.mission.value;
      if d.dist >= 0.45 {
        SameApproach(d, m.route[m.current].at, Unit(r2, Polling(u.pc.now, u.pc.dt)), u, Acted(u, ambient, d));
      }
    }
  }

  lemma SameApproach(d: Draw, goal: Point, u: Unit, u': Unit, v: Unit)
    requires u.pc.Polling? && u'.pc.Polling? && u.pc.dt == u'.pc.dt && u.robot.body == u'.robot.body
    ensures Approaches(d, goal, u, v) <==> Approaches(d, goal, u', v)
  {
    hide DistSq;
  }

  lemma PausesLaw(u: Unit, ambient: real, d: Draw)
    requires UnitOk(u, ambient)
    ensures Pauses(u, Acted(u, ambient, d))
  {
    hide UnitOk, Homeward, Charged, OnMission, Settled, Burned, StoodBy, CooledDown, IsDead, Died;
    var r := u.robot;
    if Able(u) && r.status != Charging && r.body.battery > 25.0 && r.task.mission.Some?
       && r.body.temp < 80.0 && r.task.pauseUntil > u.pc.now {
      AbleLives(u, ambient);
      var r1 := Triggered(r);
      var slow := r1.body.(speed := Lerp(r1.body.speed, 0.0, 0.4));
      BurnKeeps(slow, r1.health, ambient, u.pc.dt, false);
      SettledKeeps(r1.(body := Burned(slow, r1.health, ambient, u.pc.dt, false)), d);
    }
  }

  lemma HomewardApproaches(r: Robot, ambient: real, now: real, dt: real, d: Draw)
    requires InRange(r.body.speed, 0.0, 2.2) && d.dist >= 0.5
    ensures Approaches(d, Point(0.0, 0.0), Unit(r, Polling(now, dt)), Settled(Homeward(r, ambient, dt, d), d))
  {
    hide Travelled, EffectiveSpeed, Burned, Settled, DistSq;
    MovingSpeed(r.body.speed, r.health.motor, 1.4, d.jitter, false);
    var b := r.body.(speed := Lerp(r.body.speed, EffectiveSpeed(r.health.motor, 1.4, d.jitter), 0.22));
    var moved := Travelled(b, BASE, d.dist, dt);
    TravelKeepsSpeed(b, BASE, d.dist, dt);
    if d.dist * d.dist == DistSq(BASE, r.body.pos) { TravelApproaches(b, BASE, d.dist, dt); }
    BurnKeeps(moved, r.health, ambient, dt, false);
    SettledKeeps(Homeward(r, ambient, dt, d), d);
  }

  lemma TurnedBack(r: Robot)
    requires Tracked(r.task, false) && TurnsBack(r)
    ensures var r1 := Triggered(r);
            r1.task.returning && r1.task.mission.None? && r1.body == r.body && r1.health == r.health
  { }

  lemma GoesHomeLaw(u: Unit, ambient: real, d: Draw)
    requires UnitOk(u, ambient)
    ensures GoesHome(u, Acted(u, ambient, d), d)
  {
    hide UnitOk, Triggered, Burned, Travelled, Settled, EffectiveSpeed, Lerp, Approaches, IsDead, Died, Tracked, DistSq,
        TurnsBack;
    if Able(u) && TurnsBack(u.robot) {
      AbleLives(u, ambient);
      TurnedBack(u.robot);
      var r1 := Triggered(u.robot);
      SettledKeeps(Homeward(r1, ambient, u.pc.dt, d), d);
      if d.dist >= 0.5 {
        HomewardApproaches(r1, ambient, u.pc.now, u.pc.dt, d);
        SameApproach(d, Point(0.0, 0.0), Unit(r1, Polling(u.pc.now, u.pc.dt)), u, Acted(u, ambient, d));
      }
    }
  }

  lemma PadUntriggered(r: Robot)
    requires r.status == Charging
    ensures Triggered(r) == r
  { }

  lemma ChargesLaw(u: Unit, ambient: real, d: Draw)
    requires UnitOk(u, ambient)
    ensures Charges(u, Acted(u, ambient, d))
  {
    hide UnitOk, Triggered, Settled, ToppedUp, WarmedByCharge, IsDead, Died, Tracked, Min;
    var r := u.robot;
    if Able(u) && r.status == Charging && !r.task.returning && r.body.temp < 80.0 && !r.suspended {
      AbleLives(u, ambient);
      PadUntriggered(r);
      ChargedFull(u, ambient);
      ChargeFills(r.body.battery, r.health, u.pc.dt);
      SettledKeeps(Charged(r, ambient, u.pc.dt), d);
    }
  }

  lemma ChargedFull(u: Unit, ambient: real)
    requires UnitOk(u, ambient) && u.pc.Polling?
    ensures InRange(u.robot.body.battery, 0.0, 100.0)
  { }

  lemma CoolsDown(temp: real, ambient: real, rate: real, dt: real)
    requires temp >= ambient && rate > 0.0 && InRange(dt, 0.1, 2.5)
    ensures Cooled(temp, ambient, rate, dt) <= temp && (temp > ambient ==> Cooled(temp, ambient, rate, dt) < temp)
  {
    Product(rate * (temp - ambient), dt);
    Product(rate, temp - ambient);
    if temp > ambient { assert rate * (temp - ambient) > 0.0; assert rate * (temp - ambient) * dt > 0.0; }
  }

  lemma PhysicalTemp(u: Unit, ambient: real)
    requires UnitOk(u, ambient)
    ensures u.robot.body.temp >= ambient && HealthOk(u.robot.health)
  { }

  lemma SuspendsLaw(u: Unit, ambient: real, d: Draw)
    requires UnitOk(u, ambient)
    ensures Suspends(u, Acted(u, ambient, d), ambient, d)
  {
    hide UnitOk, Triggered, Settled, Cooled, IsDead, Died, Tracked, HealthOk;
    var r := u.robot;
    if Able(u) && r.status == Charging && !r.task.returning && (r.body.temp >= 80.0 || r.suspended) {
      AbleLives(u, ambient);
      PadUntriggered(r);
      PhysicalTemp(u, ambient);
      CoolsDown(r.body.temp, ambient, 0.08, u.pc.dt);
      SettledKeeps(Charged(r, ambient, u.pc.dt), d);
    }
  }

  lemma StandsBy(b: Body, h: Health, ambient: real, dt: real)
    requires HealthOk(h) && b.temp >= ambient && InRange(dt, 0.1, 2.5)
    ensures var s := StoodBy(b, h, ambient, dt);
            s.battery <= b.battery && s.temp <= b.temp && s.pos == b.pos && s.speed == 0.65 * b.speed
    ensures var s := CooledDown(b, ambient, dt);
            s.battery == b.battery && s.temp <= b.temp && s.pos == b.pos && s.speed == 0.65 * b.speed
  {
    hide Cooled;
    CoolsDown(b.temp, ambient, 0.04, dt);
    CoolsDown(b.temp, ambient, 0.06, dt);
    Product(0.0015 * (1.0 + (100.0 - h.battery) / 100.0 * 0.25), dt);
  }

  lemma IdlesLaw(u: Unit, ambient: real, d: Draw)
    requires UnitOk(u, ambient)
    ensures Idles(u, Acted(u, ambient, d), ambient, d)
  {
    hide UnitOk, Settled, StoodBy, CooledDown, IsDead, Died, Tracked, HealthOk;
    var r := u.robot;
    if Able(u) && r.status != Charging && r.task.mission.None? && !r.task.returning && r.body.battery > 50.0 {
      AbleLives(u, ambient);
      PhysicalTemp(u, ambient);
      StandsBy(r.body, r.health, ambient, u.pc.dt);
      SettledKeeps(r.(body := StoodBy(r.body, r.health, ambient, u.pc.dt)), d);
      SettledKeeps(r.(status := Overheating, body := CooledDown(r.body, ambient, u.pc.dt)), d);
    }
  }

  lemma DiesLaw(u: Unit, ambient: real, d: Draw)
    requires UnitOk(u, ambient)
    ensures Dies(u, Acted(u, ambient, d))
  {
    hide Moved, Triggered, ProgressAt, HealthOk;
  }

  /** A tick obeys every law. */
  lemma ActedObeysLaws(u: Unit, ambient: real, d: Draw)
    requires UnitOk(u, ambient)
    ensures Laws(u, Acted(u, ambient, d), ambient, d)
  {
    hide UnitOk, Acted, Drives, Pauses, GoesHome, Charges, Suspends, Idles, Dies;
    DrivesLaw(u, ambient, d);
    PausesLaw(u, ambient, d);
    GoesHomeLaw(u, ambient, d);
    ChargesLaw(u, ambient, d);
    SuspendsLaw(u, ambient, d);
    IdlesLaw(u, ambient, d);
    DiesLaw(u, ambient, d);
  }

  // ----- wear

  /** Every component above the floor wears in every tick that ends in the geofence check, and none recovers. */
  lemma TickWears(r: Robot, d: Draw)
    requires HealthOk(r.health) && Plausible(d)
    ensures var h := Worn(r, d).health;
            && h.battery <= r.health.battery && (r.health.battery > 10.0 ==> h.battery < r.health.battery)
            && h.motor <= r.health.motor && (r.health.motor > 10.0 ==> h.motor < r.health.motor)
            && h.sensor <= r.health.sensor && (r.health.sensor > 10.0 ==> h.sensor < r.health.sensor)
            && h.network <= r.health.network && (r.health.network > 10.0 ==> h.network < r.health.network)
            && Worn(r, d).body == r.body.(temp := r.body.temp + d.spike)
  { }
}
