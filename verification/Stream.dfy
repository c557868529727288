/**
The telemetry stream and its consumer group: several workers read, persist and acknowledge batches,
crash and retry, take over idle entries, while Redis trims the stream (backend/app/worker.py).

Each Redis command and each database commit is one step. The worker is at-least-once: a batch whose
commit succeeded but whose XACK did not happen is read and persisted again.
*/
module Stream {
  import opened Prelude
  import opened Roster

  type Consumer = nat
  type Entry = nat

  /** A persisted row, with the entry it came from and the delivery (by number) that wrote it. */
  datatype Stored = Stored(entry: Entry, delivery: nat, reading: Reading)

  datatype Worker =
    | Idle
    | Holding(delivery: nat, batch: seq<Msg>)
    | Writing(delivery: nat, batch: seq<Msg>, rows: seq<Stored>, done: nat)   // row-by-row mode only
    | Acking(delivery: nat, batch: seq<Msg>)

  /**
  `entries[low..]` is what the stream still holds and `entries[next..]` what the group has not been given.
  `deliveries` lists the entries of every batch ever handed to a worker. `acked`, `full`, `dropped` and
  `marks` record what happened to entries; `full` maps an entry that was acknowledged from a batch with
  its content to the delivery that acknowledged it.
  */
  datatype World = World(
    entries: seq<Body>, low: nat, next: nat,
    pending: map<Entry, Consumer>, acked: set<Entry>, full: map<Entry, nat>, dropped: set<Entry>,
    workers: map<Consumer, Worker>,
    deliveries: seq<seq<Entry>>,
    rows: seq<Stored>, roster: RosterTable,
    marks: Marks)

  /**
  `ended`: deliveries that failed or sent their XACK. `lost`: entries whose row was committed by a delivery
  that failed before XACK. `late`: entries whose row was committed by a delivery that sent XACK when the
  entry was no longer pending. `contested`: entries taken over (or purged) while another worker held them.
  */
  datatype Marks = Marks(ended: set<nat>, lost: set<Entry>, late: set<Entry>, contested: set<Entry>)

  function Init(): World {
    World([], 0, 0, map[], {}, map[], {}, map[], [], [], map[], Marks({}, {}, {}, {}))
  }

  datatype Step =
    | XAdd(body: Body)
    | Trim(low: nat)
    | Join(c: Consumer)
    | ReadOwn(c: Consumer, ids: seq<Entry>)            // XREADGROUP 0: own pending entries again
    | ReadNew(c: Consumer, count: nat)                 // XREADGROUP >
    | AutoClaim(c: Consumer, taken: set<Entry>, purge: set<Entry>)
    | Begin(c: Consumer, clock: nat -> Time)           // row-by-row: parse, no transaction yet
    | CommitBatch(c: Consumer, clock: nat -> Time)     // batch mode: rows and roster in one transaction
    | CommitRow(c: Consumer)
    | CommitRoster(c: Consumer)
    | XAck(c: Consumer)
    | Fail(c: Consumer)                                // crash, error or cancellation; state is lost

  function WorkerOf(w: World, c: Consumer): Worker {
    if c in w.workers then w.workers[c] else Idle
  }

  function Set(w: World, c: Consumer, s: Worker): World {
    w.(workers := w.workers[c := s])
  }

  /** What Redis returns for an entry: no fields once it has been trimmed. */
  function Fetch(w: World, e: Entry): Msg {
    Msg(e, if w.low <= e < |w.entries| then Some(w.entries[e]) else None)
  }

  function FetchAll(w: World, ids: seq<Entry>): seq<Msg> {
    seq(|ids|, i requires 0 <= i < |ids| => Fetch(w, ids[i]))
  }

  function Deliver(w: World, c: Consumer, ids: seq<Entry>): World {
    Set(w.(deliveries := w.deliveries + [ids]), c, Holding(|w.deliveries|, FetchAll(w, ids)))
  }

  ghost predicate Increasing(ids: seq<Entry>) {
    forall i, j :: 0 <= i < j < |ids| ==> ids[i] < ids[j]
  }

  /** Entries a worker has in memory. */
  function Held(s: Worker): set<Entry> {
    if s.Idle? then {} else set m | m in s.batch :: m.entry
  }

  predicate HeldElsewhere(w: World, c: Consumer, e: Entry) {
    exists d :: d in w.workers && d != c && e in Held(w.workers[d])
  }

  function Carried(batch: seq<Msg>): set<Entry> {
    set m | m in batch && Carries(m) :: m.entry
  }

  function EntriesOf(rows: seq<Stored>): set<Entry> {
    set r | r in rows :: r.entry
  }

  /** Entries whose row the worker's current delivery has already committed. */
  function Wrote(s: Worker): set<Entry> {
    match s
    case Acking(_, batch) => Carried(batch)
    case Writing(_, _, rows, done) => EntriesOf(if done <= |rows| then rows[..done] else rows)
    case _ => {}
  }

  /** The rows of a batch, tagged with their entries. */
  function ToRows(batch: seq<Msg>, delivery: nat, clock: nat -> Time): seq<Stored> {
    if batch == [] then []
    else
      var rest := ToRows(batch[..|batch| - 1], delivery, clock);
      var m := batch[|batch| - 1];
      if Carries(m) then rest + [Stored(m.entry, delivery, ToReading(m.body.value, clock(|batch| - 1)))] else rest
  }

  function ReadingsOf(rows: seq<Stored>): seq<Reading> {
    seq(|rows|, i requires 0 <= i < |rows| => rows[i].reading)
  }

  predicate Poisoned(batch: seq<Msg>) {
    exists i :: 0 <= i < |batch| && Poison(batch[i])
  }

  /** Entries from `a` up to but not including `b`. */
  function Range(a: nat, b: nat): seq<Entry> {
    if a >= b then [] else seq(b - a, i => a + i)
  }

  /** The first entry the group has neither been given nor lost to trimming. */
  function First(w: World): Entry {
    if w.next < w.low then w.low else w.next
  }

  function SeenIn(roster: RosterTable, rows: seq<Stored>): RosterTable {
    if rows == [] then roster else MarkSeen(roster, Latest(ReadingsOf(rows)))
  }

  // ----- steps

  function Trimmed(w: World, low: nat): World {
    if w.low <= low <= |w.entries|
    then w.(low := low, dropped := w.dropped + Elements(Range(First(w), low)))
    else w
  }

  function NewBatch(w: World, c: Consumer, count: nat): World {
    var from := First(w);
    if WorkerOf(w, c).Idle? && count <= 100 && from + count <= |w.entries| && count > 0
    then Deliver(w.(next := from + count,
                    pending := map e | e in w.pending.Keys + Elements(Range(from, from + count)) ::
                                 if e in w.pending then w.pending[e] else c),
                 c, Range(from, from + count))
    else w
  }

  ghost function OwnBatch(w: World, c: Consumer, ids: seq<Entry>): World {
    if WorkerOf(w, c).Idle? && 0 < |ids| <= 100 && Increasing(ids) &&
        (forall e :: e in ids ==> e in w.pending && w.pending[e] == c)
    then Deliver(w, c, ids)
    else w
  }

  /** Idle entries move to `c`; Redis 7 instead deletes those whose content was trimmed. */
  function Claimed(w: World, c: Consumer, ids: set<Entry>, purge: set<Entry>): World {
    if WorkerOf(w, c).Idle? && ids <= w.pending.Keys && purge <= w.pending.Keys - ids &&
        (forall e :: e in purge ==> e < w.low)
    then w.(pending := map e | e in w.pending.Keys - purge :: if e in ids then c else w.pending[e],
            dropped := w.dropped + purge,
            marks := w.marks.(contested := w.marks.contested + (set e | e in ids + purge && HeldElsewhere(w, c, e))))
    else w
  }

  function Persisted(w: World, c: Consumer, clock: nat -> Time): World {
    var s := WorkerOf(w, c);
    if !s.Holding? then w
    else if Poisoned(s.batch) then Set(w, c, Idle)
    else
      var rows := ToRows(s.batch, s.delivery, clock);
      Set(w.(rows := w.rows + rows, roster := SeenIn(w.roster, rows)), c, Acking(s.delivery, s.batch))
  }

  function Begun(w: World, c: Consumer, clock: nat -> Time): World {
    var s := WorkerOf(w, c);
    if !s.Holding? then w
    else if Poisoned(s.batch) then Set(w, c, Idle)
    else Set(w, c, Writing(s.delivery, s.batch, ToRows(s.batch, s.delivery, clock), 0))
  }

  function RowCommitted(w: World, c: Consumer): World {
    var s := WorkerOf(w, c);
    if s.Writing? && s.done < |s.rows|
    then Set(w.(rows := w.rows + [s.rows[s.done]]), c, s.(done := s.done + 1))
    else w
  }

  function RosterCommitted(w: World, c: Consumer): World {
    var s := WorkerOf(w, c);
    if s.Writing? && s.done == |s.rows|
    then Set(w.(roster := SeenIn(w.roster, s.rows)), c, Acking(s.delivery, s.batch))
    else w
  }

  /** XACK removes the ids from the group's pending list, whichever consumer they belong to by now. */
  function Acknowledged(w: World, c: Consumer): World {
    var s := WorkerOf(w, c);
    if !s.Acking? then w
    else
      var ids := Held(s) * w.pending.Keys;
      var seen := set m | m in s.batch && m.body.Some? && m.entry in w.pending :: m.entry;
      Set(w.(pending := map e | e in w.pending.Keys - ids :: w.pending[e],
             acked := w.acked + ids,
             full := map e | e in w.full.Keys + seen :: if e in seen then s.delivery else w.full[e],
             marks := w.marks.(ended := w.marks.ended + {s.delivery},
                 late := w.marks.late + (Wrote(s) - w.pending.Keys))),
          c, Idle)
  }

  function Failed(w: World, c: Consumer): World {
    if c in w.workers && !w.workers[c].Idle? then
      var s := w.workers[c];
      Set(w.(marks := w.marks.(ended := w.marks.ended + {s.delivery}, lost := w.marks.lost + Wrote(s))), c, Idle)
    else w
  }

  ghost function Apply(w: World, s: Step): World {
    match s
    case XAdd(body) => w.(entries := w.entries + [body])
    case Trim(low) => Trimmed(w, low)
    case Join(c) => if c in w.workers then w else Set(w, c, Idle)
    case ReadOwn(c, ids) => if c in w.workers then OwnBatch(w, c, ids) else w
    case ReadNew(c, count) => if c in w.workers then NewBatch(w, c, count) else w
    case AutoClaim(c, taken, purge) => if c in w.workers then Claimed(w, c, taken, purge) else w
    case Begin(c, clock) => if c in w.workers then Begun(w, c, clock) else w
    case CommitBatch(c, clock) => if c in w.workers then Persisted(w, c, clock) else w
    case CommitRow(c) => RowCommitted(w, c)
    case CommitRoster(c) => RosterCommitted(w, c)
    case XAck(c) => Acknowledged(w, c)
    case Fail(c) => Failed(w, c)
  }

  ghost function Run(w: World, steps: seq<Step>): World
    decreases |steps|
  {
    if steps == [] then w else Run(Apply(w, steps[0]), steps[1..])
  }
}
