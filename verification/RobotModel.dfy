/**
One simulated robot: its commands, its DEAD and STOPPED rules, its missions and its five physics branches
(simulator/robot_sim.py). A tick is cut where the source awaits; random draws, the clock and distances
(math.hypot) are inputs, and arithmetic is over exact reals.
*/
module RobotModel {
  import opened Prelude

  datatype Status = Active | LowPower | Charging | Overheating | Stopped | Dead

  datatype Point = Point(x: real, y: real)

  const BASE := Point(0.0, 0.0)

  datatype Kind = Patrol | Delivery | Inspection

  datatype Waypoint = Waypoint(at: Point, pause: real)

  datatype Mission = Mission(id: nat, kind: Kind, route: seq<Waypoint>, current: nat)

  datatype Task = Task(mission: Option<Mission>, progress: Option<real>, returning: bool, pauseUntil: real,
      completed: nat)

  datatype Body = Body(battery: real, temp: real, speed: real, pos: Point)

  datatype Health = Health(battery: real, motor: real, sensor: real, network: real)

  datatype Robot = Robot(
    status: Status, online: bool, suspended: bool, deadSince: real, lastUpdate: real,
    task: Task, body: Body, health: Health)

  /** Where the robot's loop is suspended. `Crashed`: an IndexError has ended it. */
  datatype Pc =
    | Asleep
    | Polling(now: real, dt: real)
    | Burying(now: real)
    | Completing(dt: real, hot: bool)
    | Closing
    | Crashed

  datatype Unit = Unit(robot: Robot, pc: Pc)

  datatype Action = ReturnToBase | EmergencyStop | Resume | OtherAction

  /** One tick's random draws, and the distance to the robot's goal. */
  datatype Draw = Draw(dist: real, jitter: real, wearBattery: real, wearMotor: real, wearSensor: real,
      wearNetwork: real, spike: real)

  predicate InRange(v: real, lo: real, hi: real) {
    lo <= v <= hi
  }

  /** The ranges of the source's random calls; a spike is rare, so usually absent. */
  predicate Plausible(d: Draw) {
    && d.dist >= 0.0 && InRange(d.jitter, -0.08, 0.12)
    && InRange(d.wearBattery, 0.0006, 0.0012) && InRange(d.wearMotor, 0.0008, 0.0014)
    && InRange(d.wearSensor, 0.0005, 0.0010) && InRange(d.wearNetwork, 0.0006, 0.0011)
    && (d.spike == 0.0 || InRange(d.spike, 4.0, 9.0))
  }

  function DistSq(p: Point, q: Point): real {
    (p.x - q.x) * (p.x - q.x) + (p.y - q.y) * (p.y - q.y)
  }

  // ----- arithmetic

  function Max(a: real, b: real): real { if a >= b then a else b }

  function Min(a: real, b: real): real { if a <= b then a else b }

  function Clamp(v: real, lo: real, hi: real): (r: real)
    ensures lo <= hi ==> lo <= r <= hi && (lo <= v <= hi ==> r == v)
  {
    Max(lo, Min(hi, v))
  }

  function Lerp(a: real, b: real, t: real): real { a + (b - a) * t }

  /** Python's round: to the nearest, ties to the even neighbour. */
  function RoundHalfEven(x: real): int {
    var f := x.Floor;
    var part := x - f as real;
    if part < 0.5 then f else if part > 0.5 then f + 1 else if f % 2 == 0 then f else f + 1
  }

  function Round1(x: real): real { RoundHalfEven(x * 10.0) as real / 10.0 }

  /** `current_step * progress_weight`. */
  function Share(current: nat, total: nat): real
    requires total > 0
  {
    current as real * (100.0 / total as real)
  }

  /** Mission progress in percent after `current` of `total` steps. */
  function ProgressAt(current: nat, total: nat): real
    requires total > 0
  {
    Round1(Min(100.0, Share(current, total)))
  }

  function EffectiveSpeed(motor: real, base: real, jitter: real): real {
    Clamp(base * Clamp(motor / 100.0, 0.45, 1.0) + jitter, 0.2, 2.2)
  }

  function BaseSpeed(kind: Kind): real {
    match kind
    case Patrol => 1.1
    case Delivery => 1.8
    case Inspection => 0.95
  }

  // ----- missions

  /** How many random points each kind of mission draws. */
  predicate EnoughPoints(kind: Kind, n: nat) {
    match kind
    case Patrol => 3 <= n <= 5
    case Delivery => n == 2
    case Inspection => 2 <= n <= 4
  }

  /** `build_mission`. Only inspections pause; patrols and deliveries end at the base. */
  function BuildMission(id: nat, kind: Kind, stops: seq<Waypoint>): Mission {
    var route :=
      if kind == Inspection then stops
      else seq(|stops|, i requires 0 <= i < |stops| => stops[i].(pause := 0.0)) + [Waypoint(BASE, 0.0)];
    Mission(id, kind, route, 0)
  }

  /** `assign_mission`. */
  function Assigned(r: Robot, m: Mission): Robot {
    r.(status := Active, task := Task(Some(m), Some(0.0), false, 0.0, r.task.completed))
  }

  /** `clear_mission`. */
  function Cleared(t: Task): Task {
    t.(mission := None, progress := None, pauseUntil := 0.0)
  }

  // ----- commands, death and repair

  function Commanded(r: Robot, action: Action): Robot {
    match action
    case ReturnToBase => r.(task := Cleared(r.task).(returning := true), status := Active, online := true)
    case EmergencyStop =>
      r.(status := Stopped, body := r.body.(speed := 0.0), task := Cleared(r.task).(returning := false))
    case Resume => r.(status := Active, online := true)
    case OtherAction => r
  }

  predicate IsDead(r: Robot) {
    r.body.battery <= 5.0 || r.body.temp >= 95.0 || r.health.battery < 10.0 || r.health.motor < 10.0
  }

  function Died(r: Robot, now: real): Robot {
    if r.status == Dead then r
    else r.(status := Dead, online := false, body := r.body.(speed := 0.0), deadSince := now,
            task := Cleared(r.task).(returning := false))
  }

  /** The repair crew installs a replacement unit of little service age. */
  function Repaired(r: Robot, ambient: real, fresh': Health): Robot {
    r.(body := r.body.(battery := 100.0, temp := ambient), health := fresh',
       status := Active, online := true, suspended := false)
  }

  // ----- physics

  /** Low power and top-up triggers. */
  function Triggered(r: Robot): Robot {
    var r1 :=
      if r.body.battery <= 30.0 && r.status != Charging then
        var low := r.(status := LowPower);
        if r.body.battery <= 25.0 && r.task.mission.Some?
        then low.(task := Cleared(r.task).(returning := true)) else low
      else r;
    if r1.task.mission.None? && r1.body.battery <= 50.0 && !r1.task.returning && r1.status != Charging
    then r1.(task := r1.task.(returning := true)) else r1
  }

  /** Where the tick's movement heads. */
  function Goal(r: Robot): Point {
    if r.task.returning then BASE
    else if r.task.mission.Some? && r.task.mission.value.current < |r.task.mission.value.route|
    then r.task.mission.value.route[r.task.mission.value.current].at
    else r.body.pos
  }

  function Travelled(b: Body, goal: Point, dist: real, dt: real): Body
    requires dist > 0.0
  {
    var step := b.speed * dt;
    b.(pos := Point(b.pos.x + (goal.x - b.pos.x) / dist * step, b.pos.y + (goal.y - b.pos.y) / dist * step))
  }

  function LoadHeat(h: Health, speed: real, hot: bool): real {
    if hot then 0.02 + 0.02 * speed else 0.055 + 0.055 * speed + (100.0 - h.motor) / 100.0 * 0.035
  }

  function Cooling(temp: real, ambient: real, hot: bool): real {
    if hot then 0.045 * (temp - ambient) else 0.02 * Max(0.0, temp - ambient)
  }

  /** Battery drain and heat of a moving robot. */
  function Burned(b: Body, h: Health, ambient: real, dt: real, hot: bool): Body {
    var motorPenalty := 1.0 + (100.0 - h.motor) / 100.0 * 0.45;
    var batteryPenalty := 1.0 + (100.0 - h.battery) / 100.0 * 0.65;
    var drain := (0.008 + 0.014 * b.speed) * motorPenalty * batteryPenalty;
    b.(battery := b.battery - drain * dt * 20.0,
       temp := b.temp + (LoadHeat(h, b.speed, hot) - Cooling(b.temp, ambient, hot)) * dt)
  }

  /** Branch 1: on the way to the charging pad. */
  function Homeward(r: Robot, ambient: real, dt: real, d: Draw): Robot {
    if d.dist < 0.5 then
      r.(status := Charging, body := r.body.(pos := BASE, speed := 0.0), task := r.task.(returning := false))
    else
      var speed := Lerp(r.body.speed, EffectiveSpeed(r.health.motor, 1.4, d.jitter), 0.22);
      r.(status := if r.body.battery <= 20.0 then LowPower else Active,
         body := Burned(Travelled(r.body.(speed := speed), BASE, d.dist, dt), r.health, ambient, dt, false))
  }

  /** Passive cooling towards ambient. */
  function Cooled(temp: real, ambient: real, rate: real, dt: real): real { temp - rate * (temp - ambient) * dt }

  function ToppedUp(battery: real, h: Health, dt: real): real {
    Clamp(battery + 0.35 * Clamp(h.battery / 100.0, 0.55, 1.0) * dt * 10.0, 0.0, 100.0)
  }

  function WarmedByCharge(temp: real, h: Health, ambient: real, dt: real): real {
    temp + (ChargingHeat(h) - 0.035 * (temp - ambient)) * dt
  }

  function ChargingHeat(h: Health): real { 0.12 * (1.0 + (100.0 - h.battery) / 100.0) }

  /** Branch 2: charging, unless suspended by heat. */
  function Charged(r: Robot, ambient: real, dt: real): Robot {
    if r.suspended || r.body.temp >= 80.0 then
      var temp := Cooled(r.body.temp, ambient, 0.08, dt);
      r.(status := if temp <= 60.0 then Charging else Overheating, suspended := temp > 60.0,
         body := r.body.(speed := 0.0, temp := temp))
    else
      var battery := ToppedUp(r.body.battery, r.health, dt);
      var temp := WarmedByCharge(r.body.temp, r.health, ambient, dt);
      r.(status := if battery >= 100.0 then Active else Charging,
         body := r.body.(speed := 0.0, battery := battery, temp := temp))
  }

  /** Branch 3 without a mission. */
  function CooledDown(b: Body, ambient: real, dt: real): Body {
    b.(speed := Lerp(b.speed, 0.0, 0.35), temp := Cooled(b.temp, ambient, 0.06, dt))
  }

  /** Branch 5. */
  function StoodBy(b: Body, h: Health, ambient: real, dt: real): Body {
    var drain := 0.0015 * (1.0 + (100.0 - h.battery) / 100.0 * 0.25);
    b.(speed := Lerp(b.speed, 0.0, 0.35), battery := b.battery - drain * dt * 20.0,
       temp := Cooled(b.temp, ambient, 0.04, dt))
  }

  /** A waypoint was reached: count it, pause there (not while overheating), and note completion. */
  function Reached(t: Task, now: real, hot: bool): Task
    requires t.mission.Some? && t.mission.value.current < |t.mission.value.route|
  {
    var m := t.mission.value;
    var next := m.current + 1;
    var pause := m.route[m.current].pause;
    var t1 := t.(mission := Some(m.(current := next)), progress := Some(ProgressAt(next, |m.route|)),
                 pauseUntil := if !hot && pause > 0.0 then now + pause else t.pauseUntil);
    if next >= |m.route| then t1.(completed := t.completed + 1, progress := Some(100.0)) else t1
  }

  /** Branches 3 and 4 up to the point where a completed mission is reported. */
  function Advanced(r: Robot, now: real, dt: real, d: Draw, hot: bool): Robot
    requires r.task.mission.Some? && r.task.mission.value.current < |r.task.mission.value.route|
  {
    var m := r.task.mission.value;
    var effective := EffectiveSpeed(r.health.motor, BaseSpeed(m.kind), d.jitter);
    var b := r.body.(speed := Lerp(r.body.speed, if hot then effective / 2.0 else effective, 0.22));
    if d.dist < 0.45 then r.(body := b, task := Reached(r.task, now, hot))
    else r.(body := Travelled(b, m.route[m.current].at, d.dist, dt))
  }

  function Worn(r: Robot, d: Draw): Robot {
    var h := r.health;
    var load := if r.task.mission.Some? then 1.3 else 0.5;
    r.(health := Health(Clamp(h.battery - d.wearBattery * 6.0, 10.0, 100.0),
                        Clamp(h.motor - d.wearMotor * load * 6.0, 10.0, 100.0),
                        Clamp(h.sensor - d.wearSensor * 6.0, 10.0, 100.0),
                        Clamp(h.network - d.wearNetwork * 6.0, 10.0, 100.0)),
       body := r.body.(temp := r.body.temp + d.spike))
  }

  function Settled(r: Robot, d: Draw): Unit { Unit(Worn(r, d), Closing) }

  predicate MissionDone(t: Task) {
    t.mission.Some? && t.mission.value.current >= |t.mission.value.route|
  }

  /** Branch 3 or 4 with a mission; a finished mission is reported before the rest of the tick. */
  function OnMission(r: Robot, ambient: real, now: real, dt: real, d: Draw, hot: bool): Unit
    requires r.task.mission.Some?
  {
    if r.task.mission.value.current >= |r.task.mission.value.route| then Unit(r, Crashed)
    else
      var r1 := Advanced(r, now, dt, d, hot);
      if MissionDone(r1.task) then Unit(r1, Completing(dt, hot))
      else Settled(r1.(body := Burned(r1.body, r1.health, ambient, dt, hot)), d)
  }

  function Moved(r: Robot, ambient: real, now: real, dt: real, d: Draw): Unit {
    if r.task.returning then Settled(Homeward(r, ambient, dt, d), d)
    else if r.status == Charging then Settled(Charged(r, ambient, dt), d)
    else if r.body.temp >= 80.0 then
      var hot := r.(status := Overheating);
      if r.task.mission.None? then Settled(hot.(body := CooledDown(r.body, ambient, dt)), d)
      else OnMission(hot, ambient, now, dt, d, true)
    else if r.task.mission.Some? then
      if r.task.pauseUntil > now then
        var slow := r.body.(speed := Lerp(r.body.speed, 0.0, 0.4));
        if r.task.mission.value.current >= |r.task.mission.value.route| then Unit(r, Crashed)
        else Settled(r.(body := Burned(slow, r.health, ambient, dt, false)), d)
      else OnMission(r, ambient, now, dt, d, false)
    else Settled(r.(body := StoodBy(r.body, r.health, ambient, dt)), d)
  }

  // ----- one robot's loop, cut at its awaits

  /** Top of the loop, up to the command poll. */
  function Woken(u: Unit, now: real): Unit {
    if !u.pc.Asleep? then u
    else Unit(u.robot.(lastUpdate := now), Polling(now, Clamp(now - u.robot.lastUpdate, 0.1, 2.5)))
  }

  function Obeyed(u: Unit, action: Action): Unit {
    if u.pc.Polling? then u.(robot := Commanded(u.robot, action)) else u
  }

  /** From the end of the poll to the next await. */
  function Acted(u: Unit, ambient: real, d: Draw): Unit {
    if !u.pc.Polling? then u
    else if IsDead(u.robot) then Unit(Died(u.robot, u.pc.now), Burying(u.pc.now))
    else if u.robot.status == Stopped then u.(pc := Asleep)
    else Moved(Triggered(u.robot), ambient, u.pc.now, u.pc.dt, d)
  }

  /** The end of a dead robot's tick; it is repaired after `delay` seconds. */
  function Mourned(u: Unit, ambient: real, delay: real, fresh': Health): Unit {
    if !u.pc.Burying? then u
    else Unit(if u.pc.now - u.robot.deadSince >= delay then Repaired(u.robot, ambient, fresh') else u.robot, Asleep)
  }

  /** A completed mission has been reported: drop it and do the rest of the tick. */
  function Finished(u: Unit, ambient: real, d: Draw): Unit {
    if !u.pc.Completing? then u
    else
      var r := u.robot.(task := Cleared(u.robot.task), status := if u.pc.hot then u.robot.status else Active);
      Settled(r.(body := Burned(r.body, r.health, ambient, u.pc.dt, u.pc.hot)), d)
  }

  /** The geofence report is out: clamp and go to sleep. */
  function Closed(u: Unit): Unit {
    if !u.pc.Closing? then u
    else
      var b := u.robot.body;
      Unit(u.robot.(body := Body(Clamp(b.battery, 0.0, 100.0), Clamp(b.temp, 22.0, 99.0), Clamp(b.speed, 0.0, 2.2),
          b.pos)), Asleep)
  }
}
