/**
Every actor on the command table, as a state machine over atomic database and network steps:
operators creating commands, pollers claiming them, robots patching their status, the expiry
scanner, and the robot loops that apply what a claim returned.

The database is PostgreSQL at READ COMMITTED. An UPDATE that matches takes the row's lock and
keeps its new version private until the transaction commits; an UPDATE on a locked row waits,
so its step is not enabled. Reads see committed rows only. A step that is not enabled leaves the
world unchanged, so every sequence of steps is a run, with any number of actors mid-request.
The Redis lock around the scanner is not modelled: nothing below depends on it.
*/
module CommandProtocol {
  import opened Prelude
  import opened CommandModel

  type Pid = nat
  type Loop = nat

  datatype Via = ViaCreate | ViaPatch | ViaClaim | ViaScan

  /** One committed status of one command, and the request that committed it. */
  datatype Entry = Entry(status: Status, writer: Pid, via: Via)

  datatype Notice = Notice(id: Id, status: Status)

  datatype Answer = Ok(reported: Status) | NotFound | Invalid | Conflict

  /** POST /commands/{robot} */
  datatype CreateState =
    | CreateStart(robot: int, req: CreateRequest)
    | CreateInsert(robot: int, req: CreateRequest, id: Id, row: Row)
    | CreateLookup(robot: int, req: CreateRequest)
    | CreateAnnounce(robot: int, req: CreateRequest, id: Id)
    | CreateEnd(robot: int, req: CreateRequest, found: Option<Id>)

  /** PATCH /commands/{id}/status */
  datatype PatchState =
    | PatchStart(id: Id, req: UpdateRequest)
    | PatchRead(id: Id, req: UpdateRequest, seen: Row)
    | PatchReady(id: Id, req: UpdateRequest, seen: Row, now: Time)
    | PatchWrote(id: Id, req: UpdateRequest, row: Row)
    | PatchMissed(id: Id, req: UpdateRequest)
    | PatchCommitted(id: Id, req: UpdateRequest)
    | PatchAnnounce(id: Id, req: UpdateRequest, seen: Row)
    | PatchEnd(id: Id, req: UpdateRequest, answer: Answer)

  /** POST /commands/{robot}/claim, then the robot loop working through the answer */
  datatype ClaimState =
    | ClaimLoop(robot: int, claimed: seq<Id>)
    | ClaimFound(robot: int, claimed: seq<Id>, id: Id, seen: Row)
    | ClaimReady(robot: int, claimed: seq<Id>, id: Id, seen: Row, now: Time)
    | ClaimWrote(robot: int, claimed: seq<Id>, id: Id, row: Row)
    | ClaimCommitted(robot: int, claimed: seq<Id>, id: Id)
    | ClaimReturned(robot: int, claimed: seq<Id>)
    | Handling(loop: Loop, claimed: seq<Id>)

  /** scan_for_timeouts */
  datatype ScanState =
    | ScanStart
    | ScanStamped(now: Time)
    | ScanWrite(now: Time, begun: Time, todo: seq<Id>, hits: seq<Id>, writes: map<Id, Row>)
    | ScanAnnounce(todo: seq<Id>)
    | ScanEnd

  /** `Dead`: crashed, cancelled, or its connection lost; an open transaction is rolled back. */
  datatype Proc =
    | Create(create: CreateState)
    | Patch(patch: PatchState)
    | Claim(claim: ClaimState)
    | Scan(scan: ScanState)
    | Dead

  /**
  `table` is the committed state. `hist`, `notices`, `applied` and `replayed` record what happened:
  committed statuses per command, broadcasts sent, actions the robots applied, and hits of the robots'
  "already processed" branch. `processed` is each robot loop's list of recent command ids.
  */
  datatype World = World(
    clock: Time,
    table: map<Id, Row>,
    hist: map<Id, seq<Entry>>,
    procs: map<Pid, Proc>,
    notices: seq<Notice>,
    processed: map<Loop, seq<Id>>,
    applied: seq<Id>,
    replayed: seq<Id>)

  function Init(clock: Time): World {
    World(clock, map[], map[], map[], [], map[], [], [])
  }

  /** What a request leaves to chance: a uuid, the database's pick, a row order, a delivery. */
  datatype Choice = Plain | FreshId(id: Id) | Pick(id: Id) | Rows(ids: seq<Id>) | DeliverTo(loop: Loop)

  datatype Step =
    | Tick(now: Time)
    | Spawn(pid: Pid, start: Proc)
    | Advance(pid: Pid, choice: Choice)
    | Kill(pid: Pid)

  /** Row versions written by an open transaction; their ids are the row locks it holds. */
  function Writes(p: Proc): map<Id, Row> {
    match p
    case Patch(PatchWrote(id, _, row)) => map[id := row]
    case Claim(ClaimWrote(_, _, id, row)) => map[id := row]
    case Scan(ScanWrite(_, _, _, _, writes)) => writes
    case _ => map[]
  }

  predicate Locked(w: World, pid: Pid, id: Id) {
    exists q :: q in w.procs && q != pid && id in Writes(w.procs[q])
  }

  /** The ids of creators that have drawn a uuid and not inserted yet. */
  predicate Drew(p: Proc, id: Id) {
    p.Create? && p.create.CreateInsert? && p.create.id == id
  }

  predicate Unused(w: World, id: Id) {
    id !in w.table && forall q :: q in w.procs ==> !Drew(w.procs[q], id)
  }

  predicate Matches(row: Row, robot: int, key: Option<string>) {
    row.robot == robot && row.key == key
  }

  /** What one step of one process does to the world. */
  datatype Effect =
    | Stay                                    // not enabled: waiting for a lock, or finished
    | Move(next: Proc)
    | Tell(next: Proc, notice: Notice)        // broadcast
    | Publish(via: Via, next: Proc)           // commit the open transaction
    | Add(id: Id, row: Row, next: Proc)       // commit an INSERT
    | Take(loop: Loop, todo: seq<Id>)         // the robot loop handles one command

  function CreateStep(w: World, s: CreateState, c: Choice): Effect {
    match s
    case CreateStart(robot, req) =>
      if c.FreshId? && Unused(w, c.id)
      then Move(Create(CreateInsert(robot, req, c.id, NewRow(robot, req, w.clock))))
      else Stay
    case CreateInsert(robot, req, id, row) =>
      if KeyTaken(w.table, robot, req.key) then Move(Create(CreateLookup(robot, req)))
      else Add(id, row, Create(CreateAnnounce(robot, req, id)))
    case CreateLookup(robot, req) =>
      if c.Pick? && c.id in w.table && Matches(w.table[c.id], robot, req.key)
      then Move(Create(CreateEnd(robot, req, Some(c.id))))
      else if c.Plain? && forall id :: id in w.table ==> !Matches(w.table[id], robot, req.key)
      then Move(Create(CreateEnd(robot, req, None)))
      else Stay
    case CreateAnnounce(robot, req, id) =>
      Tell(Create(CreateEnd(robot, req, Some(id))), Notice(id, Pending))
    case _ => Stay
  }

  /** The checks `update_status` makes on the row it read, then the clock reading. */
  function Decide(id: Id, req: UpdateRequest, seen: Row, now: Time): PatchState {
    if seen.status == req.status then PatchEnd(id, req, Ok(seen.status))
    else if Terminal(seen.status) then PatchEnd(id, req, Invalid)
    else if !Allowed(seen.status, req.status) then PatchEnd(id, req, Invalid)
    else PatchReady(id, req, seen, now)
  }

  function PatchStep(w: World, pid: Pid, s: PatchState): Effect {
    match s
    case PatchStart(id, req) =>
      Move(Patch(if id in w.table then PatchRead(id, req, w.table[id]) else PatchEnd(id, req, NotFound)))
    case PatchRead(id, req, seen) =>
      Move(Patch(Decide(id, req, seen, w.clock)))
    case PatchReady(id, req, seen, now) =>
      if Locked(w, pid, id) then Stay
      else if id in w.table && w.table[id].status == seen.status
      then Move(Patch(PatchWrote(id, req, Transition(w.table[id], req, now))))
      else Move(Patch(PatchMissed(id, req)))
    case PatchWrote(id, req, _) =>
      Publish(ViaPatch, Patch(PatchCommitted(id, req)))
    case PatchMissed(id, req) =>
      Move(Patch(PatchEnd(id, req,
        if id !in w.table then NotFound
        else if w.table[id].status == req.status then Ok(req.status)
        else Conflict)))
    case PatchCommitted(id, req) =>
      Move(Patch(if id in w.table then PatchAnnounce(id, req, w.table[id]) else PatchEnd(id, req, NotFound)))
    case PatchAnnounce(id, req, seen) =>
      Tell(Patch(PatchEnd(id, req, Ok(seen.status))), Notice(id, seen.status))
    case _ => Stay
  }

  function ClaimStep(w: World, pid: Pid, s: ClaimState, c: Choice): Effect {
    match s
    case ClaimLoop(robot, claimed) =>
      if c.Pick? && Oldest(w.table, robot, c.id)
      then Move(Claim(ClaimFound(robot, claimed, c.id, w.table[c.id])))
      else if c.Plain? && PendingFor(w.table, robot) == {}
      then Move(Claim(ClaimReturned(robot, claimed)))
      else Stay
    case ClaimFound(robot, claimed, id, seen) =>
      Move(Claim(ClaimReady(robot, claimed, id, seen, w.clock)))
    case ClaimReady(robot, claimed, id, seen, now) =>
      if Locked(w, pid, id) then Stay
      else if id in w.table && w.table[id].status == Pending
      then Move(Claim(ClaimWrote(robot, claimed, id, DispatchRow(w.table[id], now))))
      else Move(Claim(ClaimLoop(robot, claimed)))
    case ClaimWrote(robot, claimed, id, _) =>
      Publish(ViaClaim, Claim(ClaimCommitted(robot, claimed, id)))
    case ClaimCommitted(robot, claimed, id) =>
      Tell(Claim(ClaimLoop(robot, claimed + [id])), Notice(id, Dispatched))
    case ClaimReturned(robot, claimed) =>
      if c.DeliverTo? then Move(Claim(Handling(c.loop, claimed))) else Stay
    case Handling(loop, todo) =>
      if todo == [] then Stay else Take(loop, todo)
  }

  ghost function ScanStep(w: World, pid: Pid, s: ScanState, c: Choice): Effect {
    match s
    case ScanStart => Move(Scan(ScanStamped(w.clock)))
    case ScanStamped(now) =>
      if c.Rows? && Distinct(c.ids) && Elements(c.ids) == Expired(w.table, now)
      then Move(Scan(ScanWrite(now, w.clock, c.ids, [], map[])))
      else Stay
    case ScanWrite(now, begun, todo, hits, writes) =>
      if todo == [] then (if hits == [] then Move(Scan(ScanEnd)) else Publish(ViaScan, Scan(ScanAnnounce(hits))))
      else
        var id := todo[0];
        if Locked(w, pid, id) then Stay
        else if id in w.table && !Terminal(w.table[id].status)
        then Move(Scan(ScanWrite(now, begun, todo[1..], hits + [id], writes[id := TimeoutRow(w.table[id], begun)])))
        else Move(Scan(ScanWrite(now, begun, todo[1..], hits, writes)))
    case ScanAnnounce(todo) =>
      if todo == [] then Move(Scan(ScanEnd))
      else Tell(Scan(ScanAnnounce(todo[1..])), Notice(todo[0], Timeout))
    case _ => Stay
  }

  predicate Starting(p: Proc) {
    match p
    case Create(s) => s.CreateStart?
    case Patch(s) => s.PatchStart?
    case Claim(s) => s.ClaimLoop? && s.claimed == []
    case Scan(s) => s.ScanStart?
    case Dead => false
  }

  ghost function StepOf(w: World, pid: Pid, p: Proc, c: Choice): Effect {
    match p
    case Create(s) => CreateStep(w, s, c)
    case Patch(s) => PatchStep(w, pid, s)
    case Claim(s) => ClaimStep(w, pid, s, c)
    case Scan(s) => ScanStep(w, pid, s, c)
    case Dead => Stay
  }

  // ----- effects on the world

  function Go(w: World, pid: Pid, p: Proc): World {
    w.(procs := w.procs[pid := p])
  }

  /** Publish a transaction: its row versions become the committed ones. */
  function Commit(w: World, pid: Pid, via: Via, next: Proc): World
    requires pid in w.procs
  {
    var writes := Writes(w.procs[pid]);
    w.(table := w.table + writes,
       hist := map id | id in w.hist ::
         if id in writes then w.hist[id] + [Entry(writes[id].status, pid, via)] else w.hist[id],
       procs := w.procs[pid := next])
  }

  function Insert(w: World, pid: Pid, id: Id, row: Row, next: Proc): World {
    w.(table := w.table[id := row],
       hist := w.hist[id := [Entry(Pending, pid, ViaCreate)]],
       procs := w.procs[pid := next])
  }

  function Recent(w: World, loop: Loop): seq<Id> {
    if loop in w.processed then w.processed[loop] else []
  }

  /** `processed_command_ids`: append, then keep the newest hundred. */
  function Remember(ids: seq<Id>, id: Id): seq<Id> {
    var longer := ids + [id];
    if |longer| > 100 then longer[1..] else longer
  }

  /** The robot loop takes the next command of a claim answer. */
  function Handle(w: World, pid: Pid, loop: Loop, todo: seq<Id>): World
    requires todo != []
  {
    var id := todo[0];
    var next := Go(w, pid, Claim(Handling(loop, todo[1..])));
    if id in Recent(w, loop) then next.(replayed := w.replayed + [id])
    else next.(applied := w.applied + [id],
               processed := w.processed[loop := Remember(Recent(w, loop), id)])
  }

  function Perform(w: World, pid: Pid, e: Effect): World
    requires pid in w.procs
  {
    match e
    case Stay => w
    case Move(next) => Go(w, pid, next)
    case Tell(next, notice) => Go(w, pid, next).(notices := w.notices + [notice])
    case Publish(via, next) => Commit(w, pid, via, next)
    case Add(id, row, next) => Insert(w, pid, id, row, next)
    case Take(loop, todo) => if todo == [] then w else Handle(w, pid, loop, todo)
  }

  ghost function Apply(w: World, s: Step): World {
    match s
    case Tick(now) => w.(clock := now)
    case Spawn(pid, start) => if pid !in w.procs && Starting(start) then Go(w, pid, start) else w
    case Advance(pid, c) => if pid in w.procs then Perform(w, pid, StepOf(w, pid, w.procs[pid], c)) else w
    case Kill(pid) => if pid in w.procs then Go(w, pid, Dead) else w
  }

  ghost function Run(w: World, steps: seq<Step>): World
    decreases |steps|
  {
    if steps == [] then w else Run(Apply(w, steps[0]), steps[1..])
  }
}
