/**
The lifecycle stamps under a clock that never runs backwards. `now` is read after the row, and a
matching compare-and-set means the row is still the one that was read, so each stage is stamped
after the stages before it. The scanner is the exception: it stamps its transaction's start, which
may precede a stage committed during the scan.
*/
module CommandTimes {
  import opened Prelude
  import opened CommandModel
  import opened CommandProtocol
  import opened CommandSafety
  import opened CommandRuns
  import opened CommandTheorems

  predicate NoLater(a: Option<Time>, b: Option<Time>) {
    a.Some? && b.Some? ==> a.value <= b.value
  }

  predicate By(a: Option<Time>, t: Time) {
    a.Some? ==> a.value <= t
  }

  /** created <= dispatched <= acknowledged <= started, over the stamps that are set. */
  predicate StagesOrdered(row: Row) {
    && NoLater(Some(row.created), row.dispatched) && NoLater(Some(row.created), row.acknowledged)
    && NoLater(Some(row.created), row.started) && NoLater(row.dispatched, row.acknowledged)
    && NoLater(row.dispatched, row.started) && NoLater(row.acknowledged, row.started)
  }

  /** Every stage stamp is at most `t`. */
  predicate StagesBy(row: Row, t: Time) {
    row.created <= t && By(row.dispatched, t) && By(row.acknowledged, t) && By(row.started, t)
  }

  /** completed comes after every stage. */
  predicate EndOrdered(row: Row) {
    row.completed.Some? ==> StagesBy(row, row.completed.value)
  }

  predicate Overdue(row: Row, t: Time) {
    row.expires.Some? && row.expires.value < t
  }

  /** The deadline had passed when the command was stamped as completed. */
  predicate EndedOverdue(row: Row) {
    row.completed.Some? && Overdue(row, row.completed.value)
  }

  /** A row as the transaction of kind `via` leaves it. */
  predicate Timely(row: Row, via: Via, clock: Time) {
    && StagesOrdered(row) && StagesBy(row, clock) && By(row.completed, clock)
    && NoLater(Some(row.created), row.completed)
    && (via != ViaScan ==> EndOrdered(row))
    && (via == ViaScan ==> EndedOverdue(row))
  }

  ghost predicate RowsTimely(w: World) {
    forall id :: id in w.table && id in w.hist && w.hist[id] != [] ==>
      Timely(w.table[id], w.hist[id][|w.hist[id]| - 1].via, w.clock)
  }

  ghost predicate CreateTimely(s: CreateState, clock: Time) {
    s.CreateInsert? ==> s.row.created <= clock
  }

  ghost predicate PatchTimely(s: PatchState, clock: Time) {
    match s
    case PatchRead(_, _, seen) => StagesOrdered(seen) && StagesBy(seen, clock)
    case PatchReady(_, _, seen, now) => StagesOrdered(seen) && StagesBy(seen, now) && now <= clock
    case PatchWrote(_, _, row) => Timely(row, ViaPatch, clock)
    case _ => true
  }

  ghost predicate ClaimTimely(s: ClaimState, clock: Time) {
    match s
    case ClaimFound(_, _, _, seen) => StagesBy(seen, clock)
    case ClaimReady(_, _, _, seen, now) => StagesBy(seen, now) && now <= clock
    case ClaimWrote(_, _, _, row) => Timely(row, ViaClaim, clock)
    case _ => true
  }

  ghost predicate ScanTimely(table: Table, s: ScanState, clock: Time) {
    match s
    case ScanStamped(now) => now <= clock
    case ScanWrite(now, begun, todo, _, writes) =>
      && now <= begun <= clock
      && (forall id :: id in todo && id in table ==> table[id].created <= begun && Overdue(table[id], now))
      && (forall id :: id in writes ==> Timely(writes[id], ViaScan, clock))
    case _ => true
  }

  ghost predicate ProcTimely(table: Table, p: Proc, clock: Time) {
    match p
    case Create(s) => CreateTimely(s, clock)
    case Patch(s) => PatchTimely(s, clock)
    case Claim(s) => ClaimTimely(s, clock)
    case Scan(s) => ScanTimely(table, s, clock)
    case Dead => true
  }

  ghost predicate ProcsTimely(w: World) {
    forall pid :: pid in w.procs ==> ProcTimely(w.table, w.procs[pid], w.clock)
  }

  ghost predicate TimeInv(w: World) {
    RowsTimely(w) && ProcsTimely(w)
  }

  // ----- stamping

  /** A transition made by a reader of the row keeps the stages in order. */
  lemma TransitionTimely(row: Row, h: seq<Entry>, req: UpdateRequest, now: Time, clock: Time)
    requires RowOk(row, h) && Allowed(row.status, req.status)
    requires StagesOrdered(row) && StagesBy(row, now) && now <= clock
    ensures Timely(Transition(row, req, now), ViaPatch, clock)
  {
    hide RowOk;
    LaterStagesUnset(row, h);
  }

  /** A row in an early state carries no stamp of a later one. */
  lemma LaterStagesUnset(row: Row, h: seq<Entry>)
    requires RowOk(row, h)
    ensures Rank(row.status) < 1 ==> row.dispatched.None?
    ensures Rank(row.status) < 2 ==> row.acknowledged.None?
    ensures Rank(row.status) < 3 ==> row.started.None?
    ensures Rank(row.status) < 4 ==> row.completed.None?
  {
    forall s | Visited(h, s) ensures Rank(s) <= Rank(row.status) {
      var i :| 0 <= i < |h| && h[i].status == s;
      if i < |h| - 1 { PathClimbs(h, i, |h| - 1); }
    }
  }

  lemma DispatchTimely(row: Row, h: seq<Entry>, now: Time, clock: Time)
    requires RowOk(row, h) && row.status == Pending && StagesBy(row, now) && now <= clock
    ensures Timely(DispatchRow(row, now), ViaClaim, clock)
  {
    LaterStagesUnset(row, h);
  }

  // ----- steps

  ghost predicate EffectTimely(w: World, p: Proc, e: Effect) {
    match e
    case Stay => true
    case Move(next) => ProcTimely(w.table, next, w.clock)
    case Tell(next, _) => ProcTimely(w.table, next, w.clock)
    case Publish(via, next) => CommitTimely(Writes(p), via, w.clock) && !Stamped(next)
    case Add(_, row, next) => Timely(row, ViaCreate, w.clock) && !Stamped(next)
    case Take(_, _) => true
  }

  ghost predicate CommitTimely(writes: Table, via: Via, clock: Time) {
    forall id :: id in writes ==> Timely(writes[id], via, clock)
  }

  /** States that carry a clock reading. */
  ghost predicate Stamped(p: Proc) {
    match p
    case Create(s) => s.CreateInsert?
    case Patch(s) => s.PatchRead? || s.PatchReady? || s.PatchWrote?
    case Claim(s) => s.ClaimFound? || s.ClaimReady? || s.ClaimWrote?
    case Scan(s) => s.ScanStamped? || s.ScanWrite?
    case Dead => false
  }

  lemma CreateStepTimely(w: World, s: CreateState, c: Choice)
    requires CreateOk(w.table, s) && CreateTimely(s, w.clock)
    ensures EffectTimely(w, Create(s), CreateStep(w, s, c))
  { }

  lemma PatchStepTimely(w: World, pid: Pid, s: PatchState)
    requires PatchOk(w.table, w.hist, s) && PatchTimely(s, w.clock)
    requires s.id in w.table ==> RowReady(w, s.id)
    ensures EffectTimely(w, Patch(s), PatchStep(w, pid, s))
  {
    hide Timely, RowOk, StagesOrdered, StagesBy, Transition;
    if s.PatchReady? && w.table[s.id].status == s.seen.status {
      TransitionTimely(w.table[s.id], w.hist[s.id], s.req, s.now, w.clock);
    }
  }

  ghost predicate RowReady(w: World, id: Id) {
    && id in w.table && id in w.hist && RowOk(w.table[id], w.hist[id])
    && StagesOrdered(w.table[id]) && StagesBy(w.table[id], w.clock)
  }

  lemma ClaimStepTimely(w: World, pid: Pid, s: ClaimState, c: Choice)
    requires ClaimOk(w.table, s) && ClaimTimely(s, w.clock)
    requires forall id :: id in w.table ==> RowReady(w, id)
    ensures EffectTimely(w, Claim(s), ClaimStep(w, pid, s, c))
  {
    hide Timely, RowOk, StagesOrdered, StagesBy, DispatchRow;
    if s.ClaimReady? && w.table[s.id].status == Pending {
      DispatchTimely(w.table[s.id], w.hist[s.id], s.now, w.clock);
    }
  }

  lemma ScanStepTimely(w: World, pid: Pid, s: ScanState, c: Choice)
    requires ScanOk(w.table, w.hist, s) && ScanTimely(w.table, s, w.clock)
    requires forall id :: id in w.table ==> RowReady(w, id)
    ensures EffectTimely(w, Scan(s), ScanStep(w, pid, s, c))
  {
    hide RowOk, Visited, LegalWrite, Locked, Timely, TimeoutRow, HasVisited;
    if s.ScanWrite? && s.todo != [] {
      assert s.todo[0] in s.todo && forall k :: k in s.todo[1..] ==> k in s.todo;
      TimeoutTimely(w.table[s.todo[0]], s.now, s.begun, w.clock);
    } else if s.ScanStamped? && c.Rows? && Elements(c.ids) == Expired(w.table, s.now) {
      assert forall id :: id in c.ids ==> id in Expired(w.table, s.now);
    }
  }

  lemma TimeoutTimely(row: Row, now: Time, begun: Time, clock: Time)
    requires StagesOrdered(row) && StagesBy(row, clock) && row.created <= begun && Overdue(row, now) &&
        now <= begun <= clock
    ensures Timely(TimeoutRow(row, begun), ViaScan, clock)
  { }

  lemma StepTimely(w: World, pid: Pid, c: Choice)
    requires Inv(w) && TimeInv(w) && pid in w.procs
    ensures EffectTimely(w, w.procs[pid], StepOf(w, pid, w.procs[pid], c))
  {
    hide KeysUnique, Disjoint, EntriesOk, NoticesOk, AppliedOk, EffectTimely, RowOk, CreateOk, PatchOk, ClaimOk, ScanOk,
         CreateTimely, PatchTimely, ClaimTimely, ScanTimely;
    assert ProcOk(w.table, w.hist, pid, w.procs[pid]);
    AllReady(w);
    match w.procs[pid]
    case Create(s) => CreateStepTimely(w, s, c);
    case Patch(s) => PatchStepTimely(w, pid, s);
    case Claim(s) => ClaimStepTimely(w, pid, s, c);
    case Scan(s) => ScanStepTimely(w, pid, s, c);
    case Dead => StayTimely(w);
  }

  lemma StayTimely(w: World)
    ensures EffectTimely(w, Dead, Stay)
  { }

  lemma AllReady(w: World)
    requires TableOk(w.table, w.hist) && RowsTimely(w)
    ensures forall id :: id in w.table ==> RowReady(w, id)
  {
    hide StagesOrdered, StagesBy, EndOrdered, EndedOverdue;
    forall id | id in w.table ensures RowReady(w, id) {
      assert RowOk(w.table[id], w.hist[id]);
    }
  }

  lemma TimelyStays(row: Row, via: Via, t: Time, t': Time)
    requires Timely(row, via, t) && t <= t'
    ensures Timely(row, via, t')
  { }

  lemma ProcTimelyStays(table: Table, table': Table, p: Proc, t: Time, t': Time)
    requires ProcTimely(table, p, t) && t <= t'
    requires p.Scan? && p.scan.ScanWrite? ==> forall id :: id in p.scan.todo ==> id in table
    requires forall id :: id in table ==> id in table' && SameIdentity(table[id], table'[id])
    ensures ProcTimely(table', p, t')
  { }

  lemma UnstampedTimely(table: Table, p: Proc, t: Time)
    requires !Stamped(p)
    ensures ProcTimely(table, p, t)
  { }

  lemma OthersTimely(w: World, v: World, pid: Pid)
    requires ProcsOk(w.table, w.hist, w.procs) && ProcsTimely(w) && w.clock <= v.clock
    requires forall id :: id in w.table ==> id in v.table && SameIdentity(w.table[id], v.table[id])
    requires v.procs.Keys <= w.procs.Keys + {pid}
    requires forall q :: q in v.procs && q != pid ==> v.procs[q] == w.procs[q]
    requires pid in v.procs ==> ProcTimely(v.table, v.procs[pid], v.clock)
    ensures ProcsTimely(v)
  {
    hide ProcTimely, PatchOk, CreateOk, ClaimOk, ClaimsOk;
    forall q | q in v.procs && q != pid ensures ProcTimely(v.table, v.procs[q], v.clock) {
      assert ProcOk(w.table, w.hist, q, w.procs[q]);
      ProcTimelyStays(w.table, v.table, w.procs[q], w.clock, v.clock);
    }
  }

  lemma RowsTimelyStay(w: World, v: World, writes: Table, via: Via)
    requires RowsTimely(w) && CommitTimely(writes, via, v.clock) && w.clock <= v.clock
    requires forall id :: id in v.table && id in v.hist ==>
               if id in writes then v.table[id] == writes[id] && v.hist[id] != [] &&
                   v.hist[id][|v.hist[id]| - 1].via == via
               else id in w.table && id in w.hist && v.table[id] == w.table[id] && v.hist[id] == w.hist[id]
    ensures RowsTimely(v)
  {
    hide StagesOrdered, StagesBy, EndOrdered, NoLater, By, Overdue, Timely;
    forall id | id in v.table && id in v.hist && v.hist[id] != []
      ensures Timely(v.table[id], v.hist[id][|v.hist[id]| - 1].via, v.clock)
    {
      if id !in writes { TimelyStays(w.table[id], w.hist[id][|w.hist[id]| - 1].via, w.clock, v.clock); }
    }
  }

  lemma PerformTimely(w: World, pid: Pid, e: Effect)
    requires TableOk(w.table, w.hist) && ProcsOk(w.table, w.hist, w.procs) && TimeInv(w) && pid in w.procs
    requires EffectTimely(w, w.procs[pid], e) && Later(w, Perform(w, pid, e))
    ensures TimeInv(Perform(w, pid, e))
  {
    hide TableOk, KeysUnique, Disjoint, EntriesOk, NoticesOk, AppliedOk, ProcsOk, RowsTimely, ProcsTimely, ProcTimely,
         Timely, CommitTimely, MoveOk, CommitOk, AddOk, SameIdentity, Stamped, Writes;
    var v := Perform(w, pid, e);
    match e
    case Stay =>
    case Move(next) =>
      OthersTimely(w, v, pid);
      RowsTimelyStay(w, v, map[], ViaPatch) by { NoWrites(ViaPatch, v.clock); }
    case Tell(next, _) =>
      OthersTimely(w, v, pid);
      RowsTimelyStay(w, v, map[], ViaPatch) by { NoWrites(ViaPatch, v.clock); }
    case Publish(via, next) =>
      UnstampedTimely(v.table, next, v.clock);
      OthersTimely(w, v, pid);
      RowsTimelyStay(w, v, Writes(w.procs[pid]), via);
    case Add(id, row, next) =>
      UnstampedTimely(v.table, next, v.clock);
      OthersTimely(w, v, pid);
      RowsTimelyStay(w, v, map[id := row], ViaCreate) by { OneWrite(id, row, ViaCreate, v.clock); }
    case Take(loop, todo) =>
      if todo != [] {
        HandlingTimely(v.table, v.procs[pid], v.clock);
        OthersTimely(w, v, pid);
        RowsTimelyStay(w, v, map[], ViaPatch) by { NoWrites(ViaPatch, v.clock); }
      }
  }

  lemma NoWrites(via: Via, clock: Time)
    ensures CommitTimely(map[], via, clock)
  { }

  lemma OneWrite(id: Id, row: Row, via: Via, clock: Time)
    requires Timely(row, via, clock)
    ensures CommitTimely(map[id := row], via, clock)
  { }

  lemma HandlingTimely(table: Table, p: Proc, clock: Time)
    requires p.Claim? && p.claim.Handling?
    ensures ProcTimely(table, p, clock)
  { }

  // ----- runs with a clock that never runs backwards

  ghost predicate Forward(w: World, steps: seq<Step>)
    decreases |steps|
  {
    steps == [] || ((steps[0].Tick? ==> w.clock <= steps[0].now) && Forward(Apply(w, steps[0]), steps[1..]))
  }

  lemma StepKeepsTime(w: World, s: Step)
    requires Inv(w) && TimeInv(w) && (s.Tick? ==> w.clock <= s.now)
    ensures TimeInv(Apply(w, s))
  {
    hide TableOk, KeysUnique, Disjoint, EntriesOk, NoticesOk, AppliedOk, ProcsOk, RowsTimely, ProcsTimely, ProcTimely,
         Stamped, StepOf, Perform, EffectOk, EffectTimely, Later;
    match s
    case Tick(now) => TickKeepsTime(w, now);
    case Spawn(pid, start) => if pid !in w.procs && Starting(start) { GoTimely(w, pid, start); }
    case Advance(pid, c) =>
      if pid in w.procs {
        StepTimely(w, pid, c);
        StepLater(w, s);
        PerformTimely(w, pid, StepOf(w, pid, w.procs[pid], c));
      }
    case Kill(pid) => if pid in w.procs { GoTimely(w, pid, Dead); }
  }

  lemma TickKeepsTime(w: World, now: Time)
    requires ProcsOk(w.table, w.hist, w.procs) && TimeInv(w) && w.clock <= now
    ensures TimeInv(w.(clock := now))
  {
    hide ProcsOk, RowsTimely, ProcsTimely, ProcTimely, Timely, CommitTimely;
    var v := w.(clock := now);
    NoWrites(ViaPatch, now);
    RowsTimelyStay(w, v, map[], ViaPatch);
    TickProcs(w, now);
  }

  lemma TickProcs(w: World, now: Time)
    requires ProcsOk(w.table, w.hist, w.procs) && ProcsTimely(w) && w.clock <= now
    ensures ProcsTimely(w.(clock := now))
  {
    hide ProcTimely, PatchOk, CreateOk, ClaimOk, ClaimsOk;
    forall q | q in w.procs ensures ProcTimely(w.table, w.procs[q], now) {
      assert ProcOk(w.table, w.hist, q, w.procs[q]);
      ProcTimelyStays(w.table, w.table, w.procs[q], w.clock, now);
    }
  }

  lemma GoTimely(w: World, pid: Pid, next: Proc)
    requires ProcsOk(w.table, w.hist, w.procs) && TimeInv(w) && (Starting(next) || next.Dead?)
    ensures TimeInv(Go(w, pid, next))
  {
    hide ProcsOk, ProcTimely, Timely;
    UnstampedTimely(w.table, next, w.clock);
    OthersTimely(w, Go(w, pid, next), pid);
  }

  lemma {:induction false} RunKeepsTime(w: World, steps: seq<Step>)
    requires Inv(w) && TimeInv(w) && Forward(w, steps)
    ensures Inv(Run(w, steps)) && TimeInv(Run(w, steps))
    decreases |steps|
  {
    hide Inv, TimeInv, Apply;
    if steps != [] {
      StepKeeps(w, steps[0]);
      StepKeepsTime(w, steps[0]);
      RunKeepsTime(Apply(w, steps[0]), steps[1..]);
    }
  }

  lemma InitTimely(clock: Time)
    ensures Inv(Init(clock)) && TimeInv(Init(clock))
  { }

  /**
  created <= dispatched <= acknowledged <= started always; completed follows them all unless the
  scanner ended the command, and even then it follows created and the command's deadline.
  */
  lemma StampsInOrder(clock: Time, steps: seq<Step>, id: Id)
    requires Forward(Init(clock), steps) && id in Run(Init(clock), steps).table
    ensures var w := Run(Init(clock), steps);
            && id in w.hist && w.hist[id] != []
            && StagesOrdered(w.table[id])
            && NoLater(Some(w.table[id].created), w.table[id].completed)
            && (if w.hist[id][|w.hist[id]| - 1].via == ViaScan then EndedOverdue(w.table[id])
                else EndOrdered(w.table[id]))
  {
    hide KeysUnique, ProcsOk, Disjoint, EntriesOk, NoticesOk, AppliedOk, Run, Forward, ProcsTimely, StagesOrdered,
        StagesBy, NoLater;
    InitTimely(clock);
    RunKeepsTime(Init(clock), steps);
    var w := Run(Init(clock), steps);
    assert RowOk(w.table[id], w.hist[id]);
    assert Timely(w.table[id], w.hist[id][|w.hist[id]| - 1].via, w.clock);
  }

  // ----- why the scanner is excepted

  lemma {:induction false} RunSnoc(w: World, steps: seq<Step>, s: Step)
    requires Forward(w, steps) && (s.Tick? ==> Run(w, steps).clock <= s.now)
    ensures Run(w, steps + [s]) == Apply(Run(w, steps), s) && Forward(w, steps + [s])
    decreases |steps|
  {
    hide Apply;
    if steps == [] {
      assert (steps + [s])[1..] == [];
    } else {
      RunSnoc(Apply(w, steps[0]), steps[1..], s);
      assert (steps + [s])[1..] == steps[1..] + [s];
    }
  }

  const ORDER := CreateRequest("RESUME", Some(5), None)

  /** The command of the example: five seconds for robot 7, created at time 0. */
  function Short(): Row {
    NewRow(7, ORDER, 0)
  }

  /** A scene: one command, its committed statuses, a creator that is done, and perhaps a scanner and a poller. */
  function Scene(row: Row, hist: seq<Entry>, procs: map<Pid, Proc>, clock: Time): World {
    World(clock, map["c" := row], map["c" := hist], procs, [], map[], [], [])
  }

  function Cast(scan: ScanState, poll: ClaimState): map<Pid, Proc> {
    map[0 := Create(CreateAnnounce(7, ORDER, "c")), 1 := Scan(scan), 2 := Claim(poll)]
  }

  function Created(): seq<Entry> { [Entry(Pending, 0, ViaCreate)] }

  function Claimed(): seq<Entry> { Created() + [Entry(Dispatched, 2, ViaClaim)] }

  function Ended(): seq<Entry> { Claimed() + [Entry(Timeout, 1, ViaScan)] }

  lemma CreatedRun() returns (steps: seq<Step>)
    ensures Forward(Init(0), steps)
    ensures Run(Init(0), steps) == Scene(Short(), Created(), map[0 := Create(CreateAnnounce(7, ORDER, "c"))], 0)
  {
    var spawn := Spawn(0, Create(CreateStart(7, ORDER)));
    steps := [];
    RunSnoc(Init(0), steps, spawn);
    steps := steps + [spawn];
    RunSnoc(Init(0), steps, Advance(0, FreshId("c")));
    steps := steps + [Advance(0, FreshId("c"))];
    RunSnoc(Init(0), steps, Advance(0, Plain));
    steps := steps + [Advance(0, Plain)];
  }

  lemma Entering()
    ensures var w := Scene(Short(), Created(), map[0 := Create(CreateAnnounce(7, ORDER, "c"))], 0);
            Apply(Apply(Apply(w, Tick(10)), Spawn(1, Scan(ScanStart))), Spawn(2, Claim(ClaimLoop(7, []))))
            == Scene(Short(), Created(), Cast(ScanStart, ClaimLoop(7, [])), 10)
  { }

  lemma ScanStamps(poll: ClaimState)
    ensures Apply(Scene(Short(), Created(), Cast(ScanStart, poll), 10), Advance(1, Plain))
            == Scene(Short(), Created(), Cast(ScanStamped(10), poll), 10)
  {
    assert Cast(ScanStart, poll)[1 := Scan(ScanStamped(10))] == Cast(ScanStamped(10), poll);
  }

  /** The scanner's state once it has selected the command. */
  function Selected(): ScanState { ScanWrite(10, 10, ["c"], [], map[]) }

  lemma ScanSelects(poll: ClaimState)
    ensures Apply(Scene(Short(), Created(), Cast(ScanStamped(10), poll), 10), Advance(1, Rows(["c"])))
            == Scene(Short(), Created(), Cast(Selected(), poll), 10)
  {
    assert Elements(["c"]) == {"c"} == Expired(map["c" := Short()], 10);
    assert Cast(ScanStamped(10), poll)[1 := Scan(Selected())] == Cast(Selected(), poll);
  }

  lemma PollMoves(poll: ClaimState, next: ClaimState, clock: Time)
    ensures Go(Scene(Short(), Created(), Cast(Selected(), poll), clock), 2, Claim(next))
            == Scene(Short(), Created(), Cast(Selected(), next), clock)
  {
    assert Cast(Selected(), poll)[2 := Claim(next)] == Cast(Selected(), next);
  }

  lemma PollFinds()
    ensures Apply(Scene(Short(), Created(), Cast(Selected(), ClaimLoop(7, [])), 20), Advance(2, Pick("c")))
            == Scene(Short(), Created(), Cast(Selected(), ClaimFound(7, [], "c", Short())), 20)
  {
    assert PendingFor(map["c" := Short()], 7) == {"c"};
    PollMoves(ClaimLoop(7, []), ClaimFound(7, [], "c", Short()), 20);
  }

  lemma PollStamps()
    ensures Apply(Scene(Short(), Created(), Cast(Selected(), ClaimFound(7, [], "c", Short())), 20), Advance(2, Plain))
            == Scene(Short(), Created(), Cast(Selected(), ClaimReady(7, [], "c", Short(), 20)), 20)
  {
    PollMoves(ClaimFound(7, [], "c", Short()), ClaimReady(7, [], "c", Short(), 20), 20);
  }

  lemma PollWrites()
    ensures var w := Scene(Short(), Created(), Cast(Selected(), ClaimReady(7, [], "c", Short(), 20)), 20);
            Apply(w, Advance(2, Plain))
            == Scene(Short(), Created(), Cast(Selected(), ClaimWrote(7, [], "c", DispatchRow(Short(), 20))), 20)
  {
    PollMoves(ClaimReady(7, [], "c", Short(), 20), ClaimWrote(7, [], "c", DispatchRow(Short(), 20)), 20);
  }

  /** What the claim and then the scan commit. */
  function Dispatching(): ClaimState { ClaimWrote(7, [], "c", DispatchRow(Short(), 20)) }

  function Announcing(): ClaimState { ClaimCommitted(7, [], "c") }

  function Expiring(): ScanState { ScanWrite(10, 10, [], ["c"], map["c" := TimeoutRow(DispatchRow(Short(), 20), 10)]) }

  lemma PollCommits()
    ensures Apply(Scene(Short(), Created(), Cast(Selected(), Dispatching()), 20), Advance(2, Plain))
            == Scene(DispatchRow(Short(), 20), Claimed(), Cast(Selected(), Announcing()), 20)
  {
    assert Cast(Selected(), Dispatching())[2 := Claim(Announcing())] == Cast(Selected(), Announcing());
    assert map["c" := Short()] + map["c" := DispatchRow(Short(), 20)] == map["c" := DispatchRow(Short(), 20)];
  }

  lemma ScanWrites()
    ensures Apply(Scene(DispatchRow(Short(), 20), Claimed(), Cast(Selected(), Announcing()), 20), Advance(1, Plain))
            == Scene(DispatchRow(Short(), 20), Claimed(), Cast(Expiring(), Announcing()), 20)
  {
    assert ["c"][1..] == [] && [] + ["c"] == ["c"];
    assert Cast(Selected(), Announcing())[1 := Scan(Expiring())] == Cast(Expiring(), Announcing());
  }

  lemma ScanCommits()
    ensures Apply(Scene(DispatchRow(Short(), 20), Claimed(), Cast(Expiring(), Announcing()), 20), Advance(1, Plain))
            == Scene(TimeoutRow(DispatchRow(Short(), 20), 10), Ended(), Cast(ScanAnnounce(["c"]), Announcing()), 20)
  {
    var row := DispatchRow(Short(), 20);
    assert Cast(Expiring(), Announcing())[1 := Scan(ScanAnnounce(["c"]))] == Cast(ScanAnnounce(["c"]), Announcing());
    assert map["c" := row] + map["c" := TimeoutRow(row, 10)] == map["c" := TimeoutRow(row, 10)];
  }

  lemma Ticks(procs: map<Pid, Proc>)
    ensures Apply(Scene(Short(), Created(), procs, 10), Tick(20)) == Scene(Short(), Created(), procs, 20)
    ensures Scene(Short(), Created(), procs, 10).clock == 10
  { }

  /** The scanner has selected the command, ten seconds before the poller's claim. */
  lemma SelectedRun() returns (steps: seq<Step>)
    ensures Forward(Init(0), steps)
    ensures Run(Init(0), steps) == Scene(Short(), Created(), Cast(Selected(), ClaimLoop(7, [])), 20)
  {
    hide Run, Apply, Forward;
    steps := CreatedRun();
    Entering();
    RunSnoc(Init(0), steps, Tick(10));
    steps := steps + [Tick(10)];
    RunSnoc(Init(0), steps, Spawn(1, Scan(ScanStart)));
    steps := steps + [Spawn(1, Scan(ScanStart))];
    RunSnoc(Init(0), steps, Spawn(2, Claim(ClaimLoop(7, []))));
    steps := steps + [Spawn(2, Claim(ClaimLoop(7, [])))];
    ScanStamps(ClaimLoop(7, []));
    RunSnoc(Init(0), steps, Advance(1, Plain));
    steps := steps + [Advance(1, Plain)];
    ScanSelects(ClaimLoop(7, []));
    RunSnoc(Init(0), steps, Advance(1, Rows(["c"])));
    steps := steps + [Advance(1, Rows(["c"]))];
    Ticks(Cast(Selected(), ClaimLoop(7, [])));
    RunSnoc(Init(0), steps, Tick(20));
    steps := steps + [Tick(20)];
  }

  /** The claim is committed while the scan is under way. */
  lemma ClaimedRun() returns (steps: seq<Step>)
    ensures Forward(Init(0), steps)
    ensures Run(Init(0), steps) == Scene(DispatchRow(Short(), 20), Claimed(), Cast(Selected(), Announcing()), 20)
  {
    hide Run, Apply, Forward, Scene, Cast, Selected;
    steps := SelectedRun();
    PollFinds();
    RunSnoc(Init(0), steps, Advance(2, Pick("c")));
    steps := steps + [Advance(2, Pick("c"))];
    PollStamps();
    RunSnoc(Init(0), steps, Advance(2, Plain));
    steps := steps + [Advance(2, Plain)];
    PollWrites();
    RunSnoc(Init(0), steps, Advance(2, Plain));
    steps := steps + [Advance(2, Plain)];
    PollCommits();
    RunSnoc(Init(0), steps, Advance(2, Plain));
    steps := steps + [Advance(2, Plain)];
  }

  /** A claim committed between the scanner's SELECT and its UPDATE is stamped after completed_at. */
  lemma ScannerStampsEarly()
    ensures exists steps ::
              var w := Run(Init(0), steps);
              && Forward(Init(0), steps) && "c" in w.table
              && w.table["c"].status == Timeout && !EndOrdered(w.table["c"])
  {
    hide Run, Apply, Forward, Cast, Selected, Expiring, Announcing;
    var steps := ClaimedRun();
    ScanWrites();
    RunSnoc(Init(0), steps, Advance(1, Plain));
    steps := steps + [Advance(1, Plain)];
    ScanCommits();
    RunSnoc(Init(0), steps, Advance(1, Plain));
    steps := steps + [Advance(1, Plain)];
    var w := Run(Init(0), steps);
    assert w.table["c"] == TimeoutRow(DispatchRow(Short(), 20), 10);
  }
}
