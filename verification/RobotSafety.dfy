/** What every piece of a robot's tick keeps: mission bookkeeping, parked robots, physical bounds. */
module RobotSafety {
  import opened Prelude
  import opened RobotModel

  // ----- progress

  lemma RoundMonotone(x: real, y: real)
    requires x <= y
    ensures RoundHalfEven(x) <= RoundHalfEven(y)
  { }

  lemma RoundClose(x: real)
    ensures x - 0.5 <= RoundHalfEven(x) as real <= x + 0.5
  { }

  lemma ShareMonotone(a: nat, b: nat, total: nat)
    requires a <= b && total > 0
    ensures Share(a, total) <= Share(b, total)
  {
    var w := 100.0 / total as real;
    Product((b - a) as real, w);
    assert b as real * w - a as real * w == (b - a) as real * w;
  }

  lemma ShareEnds(total: nat)
    requires 1 <= total <= 6
    ensures Share(0, total) == 0.0 && Share(total, total) == 100.0 && Share(total - 1, total) <= 90.0
  {
    if total <= 3 {
      if total == 1 { } else if total == 2 { } else { }
    } else {
      if total == 4 { } else if total == 5 { } else { }
    }
  }

  /** Progress starts at zero and is 100 exactly when every step is done. */
  lemma ProgressEnds(current: nat, total: nat)
    requires 1 <= total <= 6 && current <= total
    ensures ProgressAt(0, total) == 0.0
    ensures ProgressAt(current, total) == 100.0 <==> current == total
    ensures 0.0 <= ProgressAt(current, total) <= 100.0
  {
    hide RoundHalfEven, Share;
    ShareEnds(total);
    ShareMonotone(0, current, total);
    ShareMonotone(current, total, total);
    if current < total { ShareMonotone(current, total - 1, total); }
    RoundClose(Share(current, total) * 10.0);
    RoundClose(0.0);
  }

  lemma ProgressMonotone(a: nat, b: nat, total: nat)
    requires a <= b && total > 0
    ensures ProgressAt(a, total) <= ProgressAt(b, total)
  {
    hide RoundHalfEven;
    ShareMonotone(a, b, total);
    RoundMonotone(Min(100.0, Share(a, total)) * 10.0, Min(100.0, Share(b, total)) * 10.0);
  }

  // ----- the invariant of one robot

  ghost predicate Proper(m: Mission) {
    2 <= |m.route| <= 6 && m.current <= |m.route|
  }

  /** A mission is never held while returning, its step index is in range, and progress is in step with it. */
  ghost predicate Tracked(t: Task, completing: bool) {
    match t.mission
    case None => t.progress.None? && !completing
    case Some(m) =>
      && !t.returning && Proper(m)
      && (m.current == |m.route| <==> completing)
      && t.progress == Some(ProgressAt(m.current, |m.route|))
  }

  predicate Parked(s: Status) { s == Stopped || s == Dead }

  /** A stopped or dead robot holds nothing and stands still; only a robot past the limits is dead. */
  ghost predicate ParkedOk(u: Unit) {
    && (Parked(u.robot.status) ==> u.robot.task.mission.None? && !u.robot.task.returning && u.robot.body.speed == 0.0)
    && (u.robot.status == Dead ==> IsDead(u.robot) && !u.robot.online)
    && (u.pc.Completing? || u.pc.Closing? ==> !Parked(u.robot.status))
    && (u.pc.Burying? ==> u.robot.status == Dead)
    && !u.pc.Crashed?
  }

  predicate HealthOk(h: Health) {
    InRange(h.battery, 10.0, 100.0) && InRange(h.motor, 10.0, 100.0) && InRange(h.sensor, 10.0, 100.0) &&
        InRange(h.network, 10.0, 100.0)
  }

  predicate DtOk(pc: Pc) {
    && (pc.Polling? ==> InRange(pc.dt, 0.1, 2.5))
    && (pc.Completing? ==> InRange(pc.dt, 0.1, 2.5))
  }

  /** Never colder than the surroundings, never faster than 2.2; whole numbers only between ticks. */
  ghost predicate Physical(u: Unit, ambient: real) {
    && InRange(u.robot.body.speed, 0.0, 2.2)
    && HealthOk(u.robot.health)
    && u.robot.body.temp >= ambient
    && DtOk(u.pc)
    && (u.pc.Asleep? || u.pc.Polling? || u.pc.Burying? ==>
        InRange(u.robot.body.battery, 0.0, 100.0) && u.robot.body.temp <= 99.0)
  }

  predicate Climate(ambient: real) { InRange(ambient, 22.0, 50.0) }

  // ----- arithmetic of heat

  lemma Product(a: real, b: real)
    requires a >= 0.0 && b >= 0.0
    ensures a * b >= 0.0
  { }

  /** Relaxation towards ambient cannot overshoot it. */
  lemma HeatLow(excess: real, rate: real, heat: real, dt: real)
    requires excess >= 0.0 && heat >= 0.0 && 0.0 <= dt <= 2.5 && 0.0 <= rate <= 0.1
    ensures excess + (heat - rate * excess) * dt >= 0.0
  {
    Product(0.1 - rate, dt);
    var kept := 1.0 - rate * dt;
    Product(excess, kept);
    Product(heat, dt);
    assert excess + (heat - rate * excess) * dt == excess * kept + heat * dt;
  }

  /** A bound whose cooling outweighs the heat is kept. */
  lemma HeatHigh(excess: real, rate: real, heat: real, dt: real, bound: real)
    requires 0.0 <= excess <= bound && heat <= rate * bound && 0.0 <= dt <= 2.5 && 0.0 <= rate <= 0.1
    ensures excess + (heat - rate * excess) * dt <= bound
  {
    Product(0.1 - rate, dt);
    var kept := 1.0 - rate * dt;
    Product(bound - excess, kept);
    Product(rate * bound - heat, dt);
    assert bound - (excess + (heat - rate * excess) * dt) == (bound - excess) * kept + (rate * bound - heat) * dt;
  }

  lemma LerpRange(a: real, b: real, t: real)
    requires InRange(a, 0.0, 2.2) && InRange(b, 0.0, 2.2) && 0.0 <= t <= 1.0
    ensures InRange(Lerp(a, b, t), 0.0, 2.2)
  {
    Product(a, 1.0 - t);
    Product(b, t);
    Product(2.2 - a, 1.0 - t);
    Product(2.2 - b, t);
    assert Lerp(a, b, t) == a * (1.0 - t) + b * t;
    assert 2.2 - Lerp(a, b, t) == (2.2 - a) * (1.0 - t) + (2.2 - b) * t;
  }

  /** Heating while moving: at least nothing, at most 0.2075 degrees per second. */
  lemma LoadRange(h: Health, speed: real, hot: bool)
    requires HealthOk(h) && InRange(speed, 0.0, 2.2)
    ensures 0.0 <= LoadHeat(h, speed, hot) <= 0.2075
  { }

  // ----- temperature, branch by branch

  /** The largest excess over ambient that heating without spikes can reach. */
  const HEAT_CAP: real := 10.375

  ghost predicate Warm(temp: real, ambient: real) { temp >= ambient }

  ghost predicate Mild(temp: real, ambient: real) { temp <= ambient + HEAT_CAP }

  lemma BurnTemp(b: Body, h: Health, ambient: real, dt: real, hot: bool)
    requires HealthOk(h) && InRange(b.speed, 0.0, 2.2) && InRange(dt, 0.1, 2.5) && Warm(b.temp, ambient)
    ensures Warm(Burned(b, h, ambient, dt, hot).temp, ambient)
    ensures Mild(b.temp, ambient) ==> Mild(Burned(b, h, ambient, dt, hot).temp, ambient)
  {
    hide LoadHeat, HealthOk;
    LoadRange(h, b.speed, hot);
    var excess, heat, rate := b.temp - ambient, LoadHeat(h, b.speed, hot), if hot then 0.045 else 0.02;
    assert Burned(b, h, ambient, dt, hot).temp == b.temp + (heat - rate * excess) * dt;
    assert Cooling(b.temp, ambient, hot) == rate * excess;
    HeatLow(excess, rate, heat, dt);
    if Mild(b.temp, ambient) { HeatHigh(excess, rate, heat, dt, HEAT_CAP); }
  }

  lemma ChargeTemp(r: Robot, ambient: real, dt: real)
    requires HealthOk(r.health) && InRange(dt, 0.1, 2.5) && Warm(r.body.temp, ambient)
    ensures Warm(Charged(r, ambient, dt).body.temp, ambient)
    ensures Mild(r.body.temp, ambient) ==> Mild(Charged(r, ambient, dt).body.temp, ambient)
  {
    hide Clamp;
    var excess, heat := r.body.temp - ambient, ChargingHeat(r.health);
    assert 0.0 <= heat <= 0.228;
    HeatLow(excess, 0.08, 0.0, dt);
    HeatLow(excess, 0.035, heat, dt);
    if Mild(r.body.temp, ambient) {
      HeatHigh(excess, 0.08, 0.0, dt, HEAT_CAP);
      HeatHigh(excess, 0.035, heat, dt, HEAT_CAP);
    }
  }

  lemma IdleTemp(temp: real, rate: real, ambient: real, dt: real)
    requires InRange(dt, 0.1, 2.5) && Warm(temp, ambient) && 0.0 <= rate <= 0.1
    ensures Warm(temp - rate * (temp - ambient) * dt, ambient)
    ensures Mild(temp, ambient) ==> Mild(temp - rate * (temp - ambient) * dt, ambient)
  {
    HeatLow(temp - ambient, rate, 0.0, dt);
    if Mild(temp, ambient) { HeatHigh(temp - ambient, rate, 0.0, dt, HEAT_CAP); }
  }

  // ----- energy

  /** Moving always costs charge: at least 0.016 percent a tick. */
  lemma BurnDrains(b: Body, h: Health, ambient: real, dt: real, hot: bool)
    requires HealthOk(h) && InRange(b.speed, 0.0, 2.2) && InRange(dt, 0.1, 2.5)
    ensures Burned(b, h, ambient, dt, hot).battery <= b.battery - 0.016
  {
    hide LoadHeat, Cooling;
    var motorPenalty := 1.0 + (100.0 - h.motor) / 100.0 * 0.45;
    var batteryPenalty := 1.0 + (100.0 - h.battery) / 100.0 * 0.65;
    var load := 0.008 + 0.014 * b.speed;
    AtLeast(load, motorPenalty, 0.008, 1.0);
    AtLeast(load * motorPenalty, batteryPenalty, 0.008, 1.0);
    AtLeast(load * motorPenalty * batteryPenalty, dt, 0.008, 0.1);
  }

  /** A robot at ambient temperature warms up by moving; one at 80 degrees or more cools at its halved speed. */
  lemma BurnHeats(b: Body, h: Health, ambient: real, dt: real)
    requires Climate(ambient) && HealthOk(h) && InRange(b.speed, 0.0, 2.2) && InRange(dt, 0.1, 2.5)
    ensures b.temp == ambient ==> Burned(b, h, ambient, dt, false).temp >= ambient + 0.0055
    ensures b.temp >= 80.0 ==> Burned(b, h, ambient, dt, true).temp <= b.temp - 0.1286
  {
    if b.temp == ambient {
      assert Cooling(b.temp, ambient, false) == 0.0;
      assert LoadHeat(h, b.speed, false) >= 0.055;
      AtLeast(LoadHeat(h, b.speed, false), dt, 0.055, 0.1);
    }
    if b.temp >= 80.0 {
      var net := Cooling(b.temp, ambient, true) - LoadHeat(h, b.speed, true);
      assert Cooling(b.temp, ambient, true) >= 0.045 * 30.0;
      assert LoadHeat(h, b.speed, true) <= 0.064;
      AtLeast(net, dt, 1.286, 0.1);
      assert Burned(b, h, ambient, dt, true).temp == b.temp - net * dt;
    }
  }

  /** Wear only slows a robot down, to 45 percent at worst; a new one drives at its mission's speed. */
  lemma SpeedWears(kind: Kind, motor: real, motor': real, jitter: real)
    requires motor <= motor' && InRange(jitter, -0.08, 0.12)
    ensures EffectiveSpeed(motor, BaseSpeed(kind), jitter) <= EffectiveSpeed(motor', BaseSpeed(kind), jitter)
    ensures EffectiveSpeed(100.0, BaseSpeed(Patrol), jitter) == 1.1 + jitter
    ensures EffectiveSpeed(100.0, BaseSpeed(Delivery), jitter) == 1.8 + jitter
    ensures EffectiveSpeed(100.0, BaseSpeed(Inspection), jitter) == 0.95 + jitter
    ensures motor <= 45.0 ==> EffectiveSpeed(motor, BaseSpeed(Delivery), jitter) == 0.81 + jitter
  {
    Product(BaseSpeed(kind), Clamp(motor' / 100.0, 0.45, 1.0) - Clamp(motor / 100.0, 0.45, 1.0));
  }

  lemma AtLeast(a: real, b: real, x: real, y: real)
    requires a >= x >= 0.0 && b >= y >= 0.0
    ensures a * b >= x * y
  {
    Product(a - x, b);
    Product(x, b - y);
    assert a * b - x * y == (a - x) * b + x * (b - y);
  }

  /** A charging tick gains at least 0.1925 percent, whatever the battery's health, up to full. */
  lemma ChargeFills(battery: real, h: Health, dt: real)
    requires InRange(battery, 0.0, 100.0) && InRange(dt, 0.1, 2.5)
    ensures Min(100.0, battery + 0.1925) <= ToppedUp(battery, h, dt) <= 100.0
  {
    var rate := Clamp(h.battery / 100.0, 0.55, 1.0);
    AtLeast(0.35 * rate, dt, 0.1925, 0.1);
  }

  // ----- movement

  lemma ScaledSquares(dx: real, dy: real, k: real)
    ensures (dx - dx * k) * (dx - dx * k) + (dy - dy * k) * (dy - dy * k) == (1.0 - k) * (1.0 - k) * (dx * dx + dy * dy)
  {
    var m := 1.0 - k;
    assert dx - dx * k == dx * m && dy - dy * k == dy * m;
    assert (dx * m) * (dx * m) == m * m * (dx * dx);
    assert (dy * m) * (dy * m) == m * m * (dy * dy);
  }

  /** A move of length speed * dt along the line to the goal: what is left is the difference, overshoot included. */
  lemma TravelApproaches(b: Body, goal: Point, dist: real, dt: real)
    requires dist > 0.0 && dist * dist == DistSq(goal, b.pos)
    ensures DistSq(goal, Travelled(b, goal, dist, dt).pos) == (dist - b.speed * dt) * (dist - b.speed * dt)
  {
    var step := b.speed * dt;
    var k := step / dist;
    var dx, dy := goal.x - b.pos.x, goal.y - b.pos.y;
    assert k * dist == step;
    ShareOf(dx, dist, step);
    ShareOf(dy, dist, step);
    ScaledSquares(dx, dy, k);
    var left := 1.0 - k;
    assert left * dist == dist - step;
    assert left * left * (dist * dist) == (left * dist) * (left * dist);
    var after := Travelled(b, goal, dist, dt).pos;
    assert goal.x - after.x == dx - dx * k && goal.y - after.y == dy - dy * k;
  }

  lemma ShareOf(d: real, dist: real, step: real)
    requires dist > 0.0
    ensures d / dist * step == d * (step / dist)
  {
    var u := d / dist;
    assert u * dist == d;
    var k := step / dist;
    assert k * dist == step;
    assert u * step == u * (k * dist) == (u * dist) * k;
  }

  // ----- what a branch may do to body and health

  /** The body after a branch: still physical, and mild if it was. */
  ghost predicate BodyOk(b: Body, b': Body, ambient: real) {
    && InRange(b'.speed, 0.0, 2.2) && Warm(b'.temp, ambient)
    && (Mild(b.temp, ambient) ==> Mild(b'.temp, ambient))
  }

  ghost predicate Ready(r: Robot, ambient: real, dt: real) {
    HealthOk(r.health) && InRange(r.body.speed, 0.0, 2.2) && Warm(r.body.temp, ambient) && InRange(dt, 0.1, 2.5)
  }

  lemma HomewardOk(r: Robot, ambient: real, dt: real, d: Draw)
    requires Ready(r, ambient, dt) && Plausible(d)
    ensures BodyOk(r.body, Homeward(r, ambient, dt, d).body, ambient) && Homeward(r, ambient, dt, d).health == r.health
  {
    hide HealthOk, LoadHeat, Cooling, Lerp, EffectiveSpeed, Burned;
    if d.dist >= 0.5 {
      var target := EffectiveSpeed(r.health.motor, 1.4, d.jitter);
      assert InRange(target, 0.0, 2.2) by { SpeedRange(r.health.motor, 1.4, d.jitter); }
      LerpRange(r.body.speed, target, 0.22);
      var b := Travelled(r.body.(speed := Lerp(r.body.speed, target, 0.22)), BASE, d.dist, dt);
      BurnTemp(b, r.health, ambient, dt, false);
      BurnSpeed(b, r.health, ambient, dt, false);
    }
  }

  lemma BurnSpeed(b: Body, h: Health, ambient: real, dt: real, hot: bool)
    ensures Burned(b, h, ambient, dt, hot).speed == b.speed
  { }

  lemma SpeedRange(motor: real, base: real, jitter: real)
    ensures InRange(EffectiveSpeed(motor, base, jitter), 0.2, 2.2)
  { }

  lemma ChargedOk(r: Robot, ambient: real, dt: real)
    requires Ready(r, ambient, dt)
    ensures BodyOk(r.body, Charged(r, ambient, dt).body, ambient) && Charged(r, ambient, dt).health == r.health
  {
    hide HealthOk, Clamp, ChargingHeat;
    ChargeTemp(r, ambient, dt);
  }

  lemma StandOk(r: Robot, ambient: real, dt: real)
    requires Ready(r, ambient, dt)
    ensures BodyOk(r.body, CooledDown(r.body, ambient, dt), ambient)
    ensures BodyOk(r.body, StoodBy(r.body, r.health, ambient, dt), ambient)
  {
    hide HealthOk, Lerp;
    LerpRange(r.body.speed, 0.0, 0.35);
    IdleTemp(r.body.temp, 0.06, ambient, dt);
    IdleTemp(r.body.temp, 0.04, ambient, dt);
  }

  lemma PauseOk(r: Robot, ambient: real, dt: real)
    requires Ready(r, ambient, dt)
    ensures BodyOk(r.body, Burned(r.body.(speed := Lerp(r.body.speed, 0.0, 0.4)), r.health, ambient, dt, false),
        ambient)
  {
    hide HealthOk, Lerp, Burned;
    LerpRange(r.body.speed, 0.0, 0.4);
    var b := r.body.(speed := Lerp(r.body.speed, 0.0, 0.4));
    BurnTemp(b, r.health, ambient, dt, false);
    BurnSpeed(b, r.health, ambient, dt, false);
  }

  /** Advancing keeps temperature, health and status; the mission advances by at most one step. */
  lemma AdvancedOk(r: Robot, now: real, dt: real, d: Draw, hot: bool)
    requires InRange(r.body.speed, 0.0, 2.2) && Plausible(d)
    requires r.task.mission.Some? && r.task.mission.value.current < |r.task.mission.value.route|
    ensures var r' := Advanced(r, now, dt, d, hot);
            && InRange(r'.body.speed, 0.0, 2.2) && r'.body.temp == r.body.temp && r'.body.battery == r.body.battery
            && r'.health == r.health && r'.status == r.status && r'.online == r.online && r'.suspended == r.suspended
            && r'.task == (if d.dist < 0.45 then Reached(r.task, now, hot) else r.task)
  {
    hide Lerp, EffectiveSpeed, Reached;
    var effective := EffectiveSpeed(r.health.motor, BaseSpeed(r.task.mission.value.kind), d.jitter);
    SpeedRange(r.health.motor, BaseSpeed(r.task.mission.value.kind), d.jitter);
    LerpRange(r.body.speed, effective, 0.22);
    LerpRange(r.body.speed, effective / 2.0, 0.22);
  }

  lemma ReachedTracked(t: Task, now: real, hot: bool)
    requires Tracked(t, false) && t.mission.Some?
    ensures var t' := Reached(t, now, hot);
            && t'.mission == Some(t.mission.value.(current := t.mission.value.current + 1))
            && Tracked(t', MissionDone(t'))
  {
    hide ProgressAt;
    var m := t.mission.value;
    if m.current + 1 == |m.route| { ProgressEnds(|m.route|, |m.route|); }
  }

  lemma TriggeredOk(r: Robot)
    requires Tracked(r.task, false) && !Parked(r.status)
    ensures var r' := Triggered(r);
            && Tracked(r'.task, false) && !Parked(r'.status)
            && r'.body == r.body && r'.health == r.health && r'.suspended == r.suspended
            && (r'.task.mission == r.task.mission || r'.task.mission.None?)
            && (r'.status == r.status || r'.status == LowPower)
  { }

  // ----- whole pieces of the tick

  ghost predicate UnitOk(u: Unit, ambient: real) {
    Tracked(u.robot.task, u.pc.Completing?) && ParkedOk(u) && Physical(u, ambient)
  }

  /** No heat the robot did not make itself: below the cap, and no trace of the 80-degree branches. */
  ghost predicate Temperate(u: Unit, ambient: real) {
    && Mild(u.robot.body.temp, ambient) && !u.robot.suspended && u.robot.status != Overheating
    && (u.pc.Completing? ==> !u.pc.hot)
  }

  /** The robot still has its mission, perhaps further along, or none. */
  ghost predicate KeepsOrDrops(t: Task, t': Task) {
    || t'.mission.None?
    || (&& t.mission.Some? && t'.mission.value.id == t.mission.value.id
        && t'.mission.value.route == t.mission.value.route
        && t.mission.value.current <= t'.mission.value.current)
  }

  /** One piece of a tick takes `u` to `u'`, with or without a temperature spike. */
  ghost predicate PieceOk(u: Unit, u': Unit, ambient: real, spike: real) {
    && UnitOk(u', ambient)
    && KeepsOrDrops(u.robot.task, u'.robot.task)
    && (Temperate(u, ambient) && spike == 0.0 ==> Temperate(u', ambient))
  }

  lemma WornOk(r: Robot, r': Robot, ambient: real, d: Draw)
    requires HealthOk(r'.health) && Plausible(d) && BodyOk(r.body, r'.body, ambient)
    ensures var w := Worn(r', d);
            && HealthOk(w.health) && InRange(w.body.speed, 0.0, 2.2) && w.body.temp >= ambient
            && w.task == r'.task && w.status == r'.status && w.suspended == r'.suspended && w.online == r'.online
            && (d.spike == 0.0 && Mild(r.body.temp, ambient) ==> Mild(w.body.temp, ambient))
  {
    hide Clamp;
  }

  /** A branch's result, worn and handed to the geofence check. */
  lemma SettledOk(u: Unit, r': Robot, ambient: real, d: Draw)
    requires HealthOk(r'.health) && Plausible(d) && BodyOk(u.robot.body, r'.body, ambient)
    requires Tracked(r'.task, false) && !Parked(r'.status) && KeepsOrDrops(u.robot.task, r'.task)
    requires Temperate(u, ambient) ==> !r'.suspended && r'.status != Overheating
    ensures PieceOk(u, Settled(r', d), ambient, d.spike)
  {
    hide Worn, Tracked, Plausible, HealthOk;
    WornOk(u.robot, r', ambient, d);
  }

  lemma OnMissionOk(u: Unit, r: Robot, ambient: real, now: real, dt: real, d: Draw, hot: bool)
    requires Ready(r, ambient, dt) && Plausible(d) && r.body == u.robot.body && r.health == u.robot.health
    requires r.task.mission.Some? && Tracked(r.task, false) && !Parked(r.status) && KeepsOrDrops(u.robot.task, r.task)
    requires Temperate(u, ambient) ==> !hot && !r.suspended && r.status != Overheating
    ensures PieceOk(u, OnMission(r, ambient, now, dt, d, hot), ambient, d.spike)
  {
    hide Advanced, Reached, Burned, Plausible, HealthOk, ProgressAt;
    AdvancedOk(r, now, dt, d, hot);
    ReachedTracked(r.task, now, hot);
    var r1 := Advanced(r, now, dt, d, hot);
    if !MissionDone(r1.task) {
      BurnTemp(r1.body, r1.health, ambient, dt, hot);
      BurnSpeed(r1.body, r1.health, ambient, dt, hot);
      SettledOk(u, r1.(body := Burned(r1.body, r1.health, ambient, dt, hot)), ambient, d);
    }
  }

  lemma MovedOk(u: Unit, r: Robot, ambient: real, now: real, dt: real, d: Draw)
    requires Climate(ambient) && Ready(r, ambient, dt) && Plausible(d) && r.body == u.robot.body &&
        r.health == u.robot.health
    requires Tracked(r.task, false) && !Parked(r.status) && KeepsOrDrops(u.robot.task, r.task)
    requires Temperate(u, ambient) ==> !r.suspended && r.status != Overheating
    ensures PieceOk(u, Moved(r, ambient, now, dt, d), ambient, d.spike)
  {
    hide Homeward, Charged, CooledDown, StoodBy, Burned, OnMission, Plausible, HealthOk, ProgressAt, Settled, PieceOk,
        Lerp, Warm, BodyOk;
    if r.task.returning {
      HomewardOk(r, ambient, dt, d);
      HomewardTask(r, ambient, dt, d);
      SettledOk(u, Homeward(r, ambient, dt, d), ambient, d);
    } else if r.status == Charging {
      ChargedOk(r, ambient, dt);
      ChargedTask(r, ambient, dt);
      SettledOk(u, Charged(r, ambient, dt), ambient, d);
    } else if r.body.temp >= 80.0 {
      StandOk(r, ambient, dt);
      if r.task.mission.None? {
        SettledOk(u, r.(status := Overheating, body := CooledDown(r.body, ambient, dt)), ambient, d);
      }
      else { OnMissionOk(u, r.(status := Overheating), ambient, now, dt, d, true); }
    } else if r.task.mission.Some? {
      if r.task.pauseUntil > now {
        PauseOk(r, ambient, dt);
        SettledOk(u, r.(body := Burned(r.body.(speed := Lerp(r.body.speed, 0.0, 0.4)), r.health, ambient, dt, false)),
            ambient, d);
      } else { OnMissionOk(u, r, ambient, now, dt, d, false); }
    } else {
      StandOk(r, ambient, dt);
      SettledOk(u, r.(body := StoodBy(r.body, r.health, ambient, dt)), ambient, d);
    }
  }

  lemma HomewardTask(r: Robot, ambient: real, dt: real, d: Draw)
    ensures var r' := Homeward(r, ambient, dt, d);
            && r'.task.mission == r.task.mission && r'.task.progress == r.task.progress && r'.suspended == r.suspended
            && (r'.task.returning ==> r.task.returning)
            && !Parked(r'.status) && r'.status != Overheating
  {
    hide Burned, Travelled, Lerp, EffectiveSpeed;
  }

  /** While mild, charging is never suspended. */
  lemma ChargedTask(r: Robot, ambient: real, dt: real)
    ensures var r' := Charged(r, ambient, dt);
            && r'.task == r.task && !Parked(r'.status)
            && (r.body.temp < 80.0 && !r.suspended ==> !r'.suspended && r'.status != Overheating)
  {
    hide Clamp, ChargingHeat;
  }

  // ----- every piece

  lemma WokenOk(u: Unit, ambient: real, now: real)
    requires UnitOk(u, ambient)
    ensures PieceOk(u, Woken(u, now), ambient, 0.0)
  { }

  lemma ObeyedOk(u: Unit, ambient: real, action: Action)
    requires UnitOk(u, ambient)
    ensures PieceOk(u, Obeyed(u, action), ambient, 0.0)
  { }

  lemma ActedOk(u: Unit, ambient: real, d: Draw)
    requires Climate(ambient) && UnitOk(u, ambient) && Plausible(d)
    ensures PieceOk(u, Acted(u, ambient, d), ambient, d.spike)
  {
    hide Moved, Triggered, Plausible, HealthOk, ProgressAt;
    if u.pc.Polling? && !IsDead(u.robot) && u.robot.status != Stopped {
      TriggeredOk(u.robot);
      MovedOk(u, Triggered(u.robot), ambient, u.pc.now, u.pc.dt, d);
    }
  }

  lemma MournedOk(u: Unit, ambient: real, delay: real, fresh': Health)
    requires Climate(ambient) && UnitOk(u, ambient) && HealthOk(fresh')
    ensures PieceOk(u, Mourned(u, ambient, delay, fresh'), ambient, 0.0)
  {
    hide HealthOk, ProgressAt;
  }

  lemma FinishedOk(u: Unit, ambient: real, d: Draw)
    requires UnitOk(u, ambient) && Plausible(d)
    ensures PieceOk(u, Finished(u, ambient, d), ambient, d.spike)
  {
    hide Settled, Burned, Plausible, HealthOk, ProgressAt;
    if u.pc.Completing? {
      var r := u.robot.(task := Cleared(u.robot.task), status := if u.pc.hot then u.robot.status else Active);
      BurnTemp(r.body, r.health, ambient, u.pc.dt, u.pc.hot);
      BurnSpeed(r.body, r.health, ambient, u.pc.dt, u.pc.hot);
      SettledOk(u, r.(body := Burned(r.body, r.health, ambient, u.pc.dt, u.pc.hot)), ambient, d);
    }
  }

  lemma ClosedOk(u: Unit, ambient: real)
    requires Climate(ambient) && UnitOk(u, ambient)
    ensures PieceOk(u, Closed(u), ambient, 0.0)
  {
    hide HealthOk, ProgressAt;
  }

  // ----- charging

  /** On the pad and charging. */
  ghost predicate Docked(u: Unit) {
    && u.robot.status == Charging && !u.robot.task.returning && 5.0 < u.robot.body.battery <= 100.0
    && (u.pc.Asleep? || u.pc.Polling? || u.pc.Closing?)
  }

  /** Just fully charged. */
  predicate Full(u: Unit) {
    u.robot.status == Active && u.robot.body.battery == 100.0
  }

  /** A charging tick gains at least 0.1925 percent or fills the battery. */
  lemma DockedActs(u: Unit, ambient: real, d: Draw)
    requires Climate(ambient) && Docked(u) && Physical(u, ambient) && Temperate(u, ambient) && u.pc.Polling? &&
        Plausible(d)
    ensures var v := Acted(u, ambient, d);
            Full(v) || (Docked(v) && u.robot.body.battery + 0.1925 <= v.robot.body.battery < 100.0)
  {
    hide Homeward, OnMission, Burned, StoodBy, CooledDown, ToppedUp, WarmedByCharge, Plausible, Clamp;
    ChargeFills(u.robot.body.battery, u.robot.health, u.pc.dt);
  }

  /** Waking and falling asleep change nothing about a docked robot. */
  lemma DockedRests(u: Unit, now: real)
    requires Docked(u)
    ensures Docked(Woken(u, now)) && Woken(u, now).robot.body == u.robot.body
    ensures Docked(Closed(u)) && Closed(u).robot.body.battery == u.robot.body.battery
  { }
}
