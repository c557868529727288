/** What the telemetry pipeline guarantees over every run, and what it does not. */
module StreamTheorems {
  import opened Prelude
  import opened Roster
  import opened Stream
  import opened StreamSafety

  /** Every entry is exactly one of undelivered, pending (for one consumer), acknowledged, or lost to trimming. */
  lemma EntryFates(steps: seq<Step>, e: Entry)
    requires e < |Run(Init(), steps).entries|
    ensures var w := Run(Init(), steps);
            && (Undelivered(w, e) || e in w.pending || e in w.acked || e in w.dropped)
            && !(Undelivered(w, e) && (e in w.pending || e in w.acked || e in w.dropped))
            && !(e in w.pending && e in w.acked) && !(e in w.pending && e in w.dropped) &&
                !(e in w.acked && e in w.dropped)
  {
    hide Run, DeliveriesOk, WorkersOk, RowsOk, Backed, MarksOk, AckedOk, Traced, Owned;
    Reachable(steps);
  }

  ghost predicate Stores(rows: seq<Stored>, e: Entry) {
    exists k :: 0 <= k < |rows| && rows[k].entry == e
  }

  /** Some worker has committed a row of the entry and not yet sent its XACK. */
  ghost predicate Underway(w: World, e: Entry) {
    exists c :: c in w.workers && e in Wrote(w.workers[c])
  }

  lemma RowStores(rows: seq<Stored>, e: Entry, d: nat)
    requires HasRow(rows, e, d)
    ensures Stores(rows, e)
  {
    var k :| 0 <= k < |rows| && rows[k].entry == e && rows[k].delivery == d;
  }

  lemma UnderwayRow(w: World, e: Entry) returns (d: nat)
    requires Backed(w) && MarksOk(w) && Underway(w, e)
    ensures HasRow(w.rows, e, d) && d !in w.marks.ended
  {
    hide HasRow;
    var c :| c in w.workers && e in Wrote(w.workers[c]);
    assert !w.workers[c].Idle?;
    d := w.workers[c].delivery;
  }

  /**
  When a reading has been persisted: exactly if a batch with its content was acknowledged, or a delivery that
  had committed it failed or acknowledged too late, or one has committed it and is about to acknowledge.
  */
  lemma StoredExactly(steps: seq<Step>, e: Entry)
    requires var w := Run(Init(), steps); e < |w.entries| && w.entries[e].Telemetry?
    ensures var w := Run(Init(), steps);
            Stores(w.rows, e) <==> e in w.full || e in w.marks.lost || e in w.marks.late || Underway(w, e)
  {
    hide Run, Fates, DeliveriesOk, WorkersOk, RowsOk, Owned, HasRow, Wrote;
    Reachable(steps);
    var w := Run(Init(), steps);
    if Stores(w.rows, e) {
      var k :| 0 <= k < |w.rows| && w.rows[k].entry == e;
      assert Explained(w, w.rows[k]);
    }
    if e in w.full { RowStores(w.rows, e, w.full[e]); }
    if e in w.marks.lost || e in w.marks.late {
      assert Another(w, e);
      var d :| d in w.marks.ended && HasRow(w.rows, e, d);
      RowStores(w.rows, e, d);
    }
    if Underway(w, e) {
      var d := UnderwayRow(w, e);
      RowStores(w.rows, e, d);
    }
  }

  /** An acknowledged entry that nobody took over is held by nobody. */
  lemma AckedUnheld(w: World, e: Entry)
    requires Fates(w) && WorkersOk(w) && Owned(w) && e in w.acked && e !in w.marks.contested
    ensures !Underway(w, e)
  {
    hide WorkerOk, Wrote, Held;
    if Underway(w, e) {
      var c :| c in w.workers && e in Wrote(w.workers[c]);
      WroteIsHeld(w, w.workers[c], e);
    }
  }

  /**
  What an acknowledgement says about a reading. Without its content it had been trimmed; and if no other worker
  took it over meanwhile, it is stored exactly if its content was there or an earlier delivery lost it after the commit.
  */
  lemma AckedMeansPersisted(steps: seq<Step>, e: Entry)
    requires var w := Run(Init(), steps); e in w.acked && e < |w.entries| && w.entries[e].Telemetry?
    ensures var w := Run(Init(), steps); if e in w.full then Stores(w.rows, e) else e < w.low
    ensures var w := Run(Init(), steps);
            e !in w.marks.contested ==> (Stores(w.rows, e) <==> e in w.full || e in w.marks.lost)
    ensures Run(Init(), steps).low == 0 ==> Stores(Run(Init(), steps).rows, e)
  {
    hide Run, Fates, DeliveriesOk, WorkersOk, RowsOk, Backed, MarksOk, Traced, Stores, Wrote, Held, Underway;
    Reachable(steps);
    StoredExactly(steps, e);
    var w := Run(Init(), steps);
    if e !in w.marks.contested { AckedUnheld(w, e); }
  }

  ghost predicate OneRow(rows: seq<Stored>, e: Entry) {
    exists k :: 0 <= k < |rows| && rows[k].entry == e && forall l :: 0 <= l < |rows| && rows[l].entry == e ==> l == k
  }

  lemma TwoDeliveries(rows: seq<Stored>, e: Entry, d: nat, d': nat)
    requires HasRow(rows, e, d) && HasRow(rows, e, d') && d != d'
    ensures !OneRow(rows, e)
  {
    var k :| 0 <= k < |rows| && rows[k].entry == e && rows[k].delivery == d;
    var l :| 0 <= l < |rows| && rows[l].entry == e && rows[l].delivery == d';
    assert k != l;
  }

  lemma OnlyAcknowledged(w: World, e: Entry)
    requires RowsOk(w) && Traced(w) && e in w.full && HasRow(w.rows, e, w.full[e])
    requires e !in w.marks.lost && e !in w.marks.late && !Underway(w, e)
    ensures OneRow(w.rows, e)
  {
    hide Wrote, RowOk;
    var k :| 0 <= k < |w.rows| && w.rows[k].entry == e && w.rows[k].delivery == w.full[e];
    forall l | 0 <= l < |w.rows| && w.rows[l].entry == e ensures l == k {
      assert Explained(w, w.rows[l]);
      assert w.rows[l].delivery == w.full[e];
    }
  }

  /**
  A reading acknowledged with its content has exactly one row if and only if no delivery committed it and then
  failed, none committed it and acknowledged it after somebody else, and none is about to.
  */
  lemma ExactlyOnce(steps: seq<Step>, e: Entry)
    requires var w := Run(Init(), steps); e in w.full && e < |w.entries| && w.entries[e].Telemetry?
    ensures var w := Run(Init(), steps);
            OneRow(w.rows, e) <==> e !in w.marks.lost && e !in w.marks.late && !Underway(w, e)
  {
    hide Run, Fates, DeliveriesOk, WorkersOk, Owned, HasRow, Wrote, OneRow, Underway;
    Reachable(steps);
    var w := Run(Init(), steps);
    if e in w.marks.lost || e in w.marks.late {
      assert Another(w, e);
      var d :| d in w.marks.ended && HasRow(w.rows, e, d) && w.full[e] != d;
      TwoDeliveries(w.rows, e, d, w.full[e]);
    } else if Underway(w, e) {
      var d := UnderwayRow(w, e);
      TwoDeliveries(w.rows, e, d, w.full[e]);
    } else {
      OnlyAcknowledged(w, e);
    }
  }

  /** For a reading nobody took over while it was held, a crash between commit and XACK alone decides. */
  lemma OnceUnlessCrashed(steps: seq<Step>, e: Entry)
    requires var w := Run(Init(), steps); e in w.full && e < |w.entries| && w.entries[e].Telemetry?
    requires e !in Run(Init(), steps).marks.contested
    ensures var w := Run(Init(), steps); OneRow(w.rows, e) <==> e !in w.marks.lost
  {
    hide Run, Fates, DeliveriesOk, WorkersOk, RowsOk, Backed, MarksOk, Traced, OneRow, Wrote, Held, Underway;
    Reachable(steps);
    ExactlyOnce(steps, e);
    AckedUnheld(Run(Init(), steps), e);
  }

  // ----- never more rows than deliveries

  ghost function RowsOf(w: World, e: Entry): set<nat> {
    set k | 0 <= k < |w.rows| && w.rows[k].entry == e
  }

  ghost function DeliveriesOf(w: World, e: Entry): set<nat> {
    set t | 0 <= t < |w.deliveries| && e in w.deliveries[t]
  }

  lemma {:induction false} Injection(rows: seq<Stored>, ks: set<nat>, ts: set<nat>)
    requires forall k :: k in ks ==> k < |rows| && rows[k].delivery in ts
    requires forall k, l :: k in ks && l in ks && k != l ==> rows[k].delivery != rows[l].delivery
    ensures |ks| <= |ts|
    decreases |ks|
  {
    if ks != {} {
      var k :| k in ks;
      Injection(rows, ks - {k}, ts - {rows[k].delivery});
    }
  }

  /** However often a batch is replayed, an entry has at most one row per time it was delivered. */
  lemma RowsWithinDeliveries(steps: seq<Step>, e: Entry)
    ensures |RowsOf(Run(Init(), steps), e)| <= |DeliveriesOf(Run(Init(), steps), e)|
  {
    hide Run, Fates, DeliveriesOk, WorkersOk, Backed, MarksOk, AckedOk, Traced, Owned;
    Reachable(steps);
    var w := Run(Init(), steps);
    forall k | k in RowsOf(w, e) ensures w.rows[k].delivery in DeliveriesOf(w, e) { assert RowOk(w, w.rows[k]); }
    Injection(w.rows, RowsOf(w, e), DeliveriesOf(w, e));
  }

  // ----- what the rows say

  ghost predicate RowCopies(entries: seq<Body>, r: Stored) {
    r.entry < |entries| && Copied(entries[r.entry], r.reading)
  }

  ghost predicate AllCopies(entries: seq<Body>, rows: seq<Stored>) {
    forall k :: 0 <= k < |rows| ==> RowCopies(entries, rows[k])
  }

  ghost predicate Faithful(w: World) {
    && AllCopies(w.entries, w.rows)
    && (forall c :: c in w.workers && w.workers[c].Writing? ==> AllCopies(w.entries, w.workers[c].rows))
  }

  lemma {:induction false} ToRowsCopy(entries: seq<Body>, batch: seq<Msg>, delivery: nat, clock: nat -> Time)
    requires forall m :: m in batch && Carries(m) ==> m.entry < |entries| && m.body.value == entries[m.entry]
    ensures AllCopies(entries, ToRows(batch, delivery, clock))
  {
    if batch != [] {
      var n := |batch| - 1;
      assert forall m :: m in batch[..n] ==> m in batch;
      ToRowsCopy(entries, batch[..n], delivery, clock);
      assert batch[n] in batch;
    }
  }

  lemma HeldCopies(w: World, c: Consumer, clock: nat -> Time)
    requires WorkersOk(w) && c in w.workers && w.workers[c].Holding?
    ensures AllCopies(w.entries, ToRows(w.workers[c].batch, w.workers[c].delivery, clock))
  {
    hide AllCopies, Increasing;
    var s := w.workers[c];
    assert WorkerOk(w, s);
    forall m | m in s.batch && Carries(m) ensures m.entry < |w.entries| && m.body.value == w.entries[m.entry] {
      assert MsgOk(w, m);
    }
    ToRowsCopy(w.entries, s.batch, s.delivery, clock);
  }

  lemma CopiesStay(entries: seq<Body>, more: seq<Body>, rows: seq<Stored>)
    requires AllCopies(entries, rows) && entries <= more
    ensures AllCopies(more, rows)
  {
    hide Copied;
    forall k | 0 <= k < |rows| ensures RowCopies(more, rows[k]) { assert RowCopies(entries, rows[k]); }
  }

  lemma CopiesMore(entries: seq<Body>, rows: seq<Stored>, added: seq<Stored>)
    requires AllCopies(entries, rows) && AllCopies(entries, added)
    ensures AllCopies(entries, rows + added)
  {
    hide RowCopies;
  }

  lemma WritingCopies(w: World, s: Step)
    requires WorkersOk(w) && Faithful(w) && Writes(s)
    ensures Faithful(Apply(w, s))
  {
    hide WorkersOk, AllCopies, ToRows, SeenIn, Poisoned;
    match s
    case Begin(c, clock) => if c in w.workers && w.workers[c].Holding? { HeldCopies(w, c, clock); }
    case CommitBatch(c, clock) =>
      if c in w.workers && w.workers[c].Holding? {
        HeldCopies(w, c, clock);
        CopiesMore(w.entries, w.rows, ToRows(w.workers[c].batch, w.workers[c].delivery, clock));
      }
    case CommitRow(c) =>
      if c in w.workers && w.workers[c].Writing? && w.workers[c].done < |w.workers[c].rows| {
        OneCopies(w.entries, w.workers[c].rows, w.workers[c].done);
        CopiesMore(w.entries, w.rows, [w.workers[c].rows[w.workers[c].done]]);
      }
    case CommitRoster(_) =>
  }

  lemma OneCopies(entries: seq<Body>, rows: seq<Stored>, k: nat)
    requires AllCopies(entries, rows) && k < |rows|
    ensures AllCopies(entries, [rows[k]])
  { }

  lemma StepFaithful(w: World, s: Step)
    requires WorkersOk(w) && Faithful(w)
    ensures Faithful(Apply(w, s))
  {
    hide WorkersOk, AllCopies, Range, Elements, HeldElsewhere, Increasing, Wrote, FetchAll,
         Begun, Persisted, RowCommitted, RosterCommitted;
    if Writes(s) { WritingCopies(w, s); }
    else if s.XAdd? {
      CopiesStay(w.entries, w.entries + [s.body], w.rows);
      forall c | c in w.workers && w.workers[c].Writing? ensures AllCopies(w.entries + [s.body], w.workers[c].rows) {
        CopiesStay(w.entries, w.entries + [s.body], w.workers[c].rows);
      }
    }
  }

  lemma {:induction false} RunFaithful(w: World, steps: seq<Step>)
    requires Inv(w) && Faithful(w)
    ensures Faithful(Run(w, steps))
    decreases |steps|
  {
    hide Fates, DeliveriesOk, WorkersOk, RowsOk, Backed, MarksOk, AckedOk, Traced, Owned, Faithful, Apply;
    if steps != [] {
      StepKeeps(w, steps[0]);
      StepFaithful(w, steps[0]);
      RunFaithful(Apply(w, steps[0]), steps[1..]);
    }
  }

  lemma InitFaithful()
    ensures Inv(Init()) && Faithful(Init())
  { }

  /** In every run each row repeats its message: all measured columns, the robot or 0, and the time if it had one. */
  lemma RowsRepeatMessages(steps: seq<Step>, k: nat)
    requires k < |Run(Init(), steps).rows|
    ensures var w := Run(Init(), steps);
            var r := w.rows[k];
            && r.entry < |w.entries| && w.entries[r.entry].Telemetry?
            && var b := w.entries[r.entry];
               && r.reading.data == b.data && r.reading.robot == (if b.robot.Some? then b.robot.value else 0)
               && (b.at.Some? ==> r.reading.at == b.at.value)
  {
    hide Run, Inv;
    InitFaithful();
    RunFaithful(Init(), steps);
    assert RowCopies(Run(Init(), steps).entries, Run(Init(), steps).rows[k]);
  }

  // ----- the roster, in batch mode

  /** OPT_BATCH_INSERT on: no worker starts writing row by row. */
  ghost predicate BatchMode(steps: seq<Step>) {
    forall i :: 0 <= i < |steps| ==> !steps[i].Begin?
  }

  ghost predicate RosterExact(w: World) {
    && (forall c :: c in w.workers ==> !w.workers[c].Writing?)
    && IsRosterOf(w.roster, ReadingsOf(w.rows))
  }

  lemma BatchKeepsRoster(w: World, c: Consumer, clock: nat -> Time)
    requires RosterExact(w)
    ensures RosterExact(Persisted(w, c, clock))
  {
    hide IsRosterOf, ToRows, MarkSeen, Latest, Poisoned;
    var s := WorkerOf(w, c);
    if s.Holding? && !Poisoned(s.batch) {
      var rows := ToRows(s.batch, s.delivery, clock);
      assert ReadingsOf(w.rows + rows) == ReadingsOf(w.rows) + ReadingsOf(rows);
      if rows == [] { assert w.rows + rows == w.rows; }
      else { SeenExtends(w.roster, ReadingsOf(w.rows), ReadingsOf(rows)); }
    }
  }

  lemma StepKeepsRoster(w: World, s: Step)
    requires RosterExact(w) && !s.Begin?
    ensures RosterExact(Apply(w, s))
  {
    hide IsRosterOf, Persisted, ReadingsOf, HeldElsewhere, Increasing, Range;
    if s.CommitBatch? && s.c in w.workers { BatchKeepsRoster(w, s.c, s.clock); }
  }

  lemma {:induction false} RunKeepsRoster(w: World, steps: seq<Step>)
    requires RosterExact(w) && BatchMode(steps)
    ensures RosterExact(Run(w, steps))
    decreases |steps|
  {
    hide RosterExact, Apply;
    if steps != [] {
      StepKeepsRoster(w, steps[0]);
      RunKeepsRoster(Apply(w, steps[0]), steps[1..]);
    }
  }

  /** After any run: last_seen is the greatest timestamp persisted for the robot, and no row lacks a roster entry. */
  lemma RosterFollowsRows(steps: seq<Step>)
    requires BatchMode(steps)
    ensures var w := Run(Init(), steps); IsRosterOf(w.roster, ReadingsOf(w.rows))
  {
    hide Run;
    assert RosterExact(Init());
    RunKeepsRoster(Init(), steps);
  }

  /** The protocol's commit writes the rows that `ProcessBatch` builds. */
  lemma {:induction false} SameRows(batch: seq<Msg>, delivery: nat, clock: nat -> Time)
    ensures ReadingsOf(ToRows(batch, delivery, clock)) == Readings(batch, clock)
  {
    if batch != [] { SameRows(batch[..|batch| - 1], delivery, clock); }
  }

  // ----- what the steps achieve

  /** XACK takes the batch off the pending list, whoever the entries belong to by now. */
  lemma AckClears(w: World, c: Consumer, e: Entry)
    requires c in w.workers && w.workers[c].Acking? && e in Held(w.workers[c])
    ensures var v := Apply(w, XAck(c));
            e !in v.pending && v.workers[c] == Idle && (e in w.pending ==> e in v.acked) && v.rows == w.rows
  {
    hide Held, Wrote;
  }

  /** Reading new entries: the next ones in order, up to a hundred, all pending for the reader from then on. */
  lemma ReadTakesNext(w: World, c: Consumer, count: nat)
    requires Inv(w) && c in w.workers && w.workers[c].Idle? && 1 <= count <= 100
    requires First(w) + count <= |w.entries|
    ensures var v := Apply(w, ReadNew(c, count));
            && v.next == First(w) + count && v.workers[c].Holding? && |v.workers[c].batch| == count
            && (forall i :: 0 <= i < count ==>
                  v.workers[c].batch[i] == Msg(First(w) + i, Some(w.entries[First(w) + i])))
            && (forall e :: First(w) <= e < First(w) + count ==> e in v.pending && v.pending[e] == c)
  {
    hide WorkersOk, RowsOk, Backed, MarksOk, AckedOk, Traced, Owned, Elements;
    RangeElements(First(w), First(w) + count);
    forall e | First(w) <= e < First(w) + count ensures e !in w.pending { assert w.next <= e; }
  }

  /** A takeover moves exactly the claimed entries. */
  lemma TakeoverMoves(w: World, c: Consumer, taken: set<Entry>)
    requires c in w.workers && w.workers[c].Idle? && taken <= w.pending.Keys
    ensures var v := Apply(w, AutoClaim(c, taken, {}));
            && v.pending.Keys == w.pending.Keys && v.workers == w.workers && v.dropped == w.dropped
            && (forall e :: e in taken ==> v.pending[e] == c)
            && (forall e :: e in w.pending && e !in taken ==> v.pending[e] == w.pending[e])
  {
    hide HeldElsewhere;
  }

  /** Commit the next row `n` times. */
  ghost function RowByRow(w: World, c: Consumer, n: nat): World {
    if n == 0 then w else Apply(RowByRow(w, c, n - 1), CommitRow(c))
  }

  lemma {:induction false} RowByRowSoFar(w: World, c: Consumer, clock: nat -> Time, n: nat)
    requires c in w.workers && w.workers[c].Holding? && !Poisoned(w.workers[c].batch)
    requires n <= |ToRows(w.workers[c].batch, w.workers[c].delivery, clock)|
    ensures var s := w.workers[c];
            var rows := ToRows(s.batch, s.delivery, clock);
            RowByRow(Apply(w, Begin(c, clock)), c, n)
            == w.(rows := w.rows + rows[..n], workers := w.workers[c := Writing(s.delivery, s.batch, rows, n)])
  {
    hide Poisoned, ToRows;
    var s := w.workers[c];
    var rows := ToRows(s.batch, s.delivery, clock);
    if n == 0 {
      assert w.rows + rows[..0] == w.rows;
    } else {
      RowByRowSoFar(w, c, clock, n - 1);
      assert rows[..n] == rows[..n - 1] + [rows[n - 1]];
      assert (w.rows + rows[..n - 1]) + [rows[n - 1]] == w.rows + rows[..n];
      var before := Writing(s.delivery, s.batch, rows, n - 1);
      assert w.workers[c := before][c := before.(done := n)] == w.workers[c := before.(done := n)];
    }
  }

  /** Undisturbed, writing row by row and then the roster ends exactly where one batch insert ends. */
  lemma ModesAgree(w: World, c: Consumer, clock: nat -> Time)
    requires c in w.workers && w.workers[c].Holding? && !Poisoned(w.workers[c].batch)
    ensures var n := |ToRows(w.workers[c].batch, w.workers[c].delivery, clock)|;
            Apply(RowByRow(Apply(w, Begin(c, clock)), c, n), CommitRoster(c)) == Apply(w, CommitBatch(c, clock))
  {
    hide Poisoned, ToRows, SeenIn, RowByRow;
    var s := w.workers[c];
    var rows := ToRows(s.batch, s.delivery, clock);
    RowByRowSoFar(w, c, clock, |rows|);
    assert rows[..|rows|] == rows;
    var before := Writing(s.delivery, s.batch, rows, |rows|);
    assert w.workers[c := before][c := Acking(s.delivery, s.batch)] == w.workers[c := Acking(s.delivery, s.batch)];
  }

  // ----- what is not promised

  lemma {:induction false} RunSnoc(w: World, steps: seq<Step>, s: Step)
    ensures Run(w, steps + [s]) == Apply(Run(w, steps), s)
    decreases |steps|
  {
    hide Apply;
    if steps == [] { assert (steps + [s])[1..] == []; }
    else {
      RunSnoc(Apply(w, steps[0]), steps[1..], s);
      assert (steps + [s])[1..] == steps[1..] + [s];
    }
  }

  /** One entry delivered to worker 0. */
  lemma DeliveredRun(body: Body) returns (steps: seq<Step>)
    ensures var w := Run(Init(), steps);
            && w.entries == [body] && w.low == 0 && w.next == 1 && w.pending == map[0 := 0] && w.rows == [] &&
                w.acked == {}
            && w.workers == map[0 := Holding(0, [Msg(0, Some(body))])] && w.deliveries == [[0]]
  {
    steps := [];
    RunSnoc(Init(), steps, XAdd(body));
    steps := steps + [XAdd(body)];
    RunSnoc(Init(), steps, Join(0));
    steps := steps + [Join(0)];
    RunSnoc(Init(), steps, ReadNew(0, 1));
    assert Range(0, 1) == [0] && Elements([0]) == {0};
    var before := Run(Init(), steps);
    assert before.workers == map[0 := Idle] && before.pending == map[];
    steps := steps + [ReadNew(0, 1)];
    var w := Run(Init(), steps);
    assert w.pending == map[0 := 0];
    assert w.workers[0].Holding? && w.workers[0].batch == [Msg(0, Some(body))];
  }

  /** A world in which worker 0 holds the one reading of the stream, for the given delivery. */
  ghost predicate HoldsOne(w: World, body: Body, delivery: nat) {
    && w.entries == [body] && w.low == 0 && w.pending == map[0 := 0] && |w.deliveries| == delivery + 1
    && w.workers == map[0 := Holding(delivery, [Msg(0, Some(body))])]
  }

  lemma CommitOne(w: World, at: Time, delivery: nat, clock: nat -> Time)
    requires HoldsOne(w, Telemetry(Some(1), Some(at), ""), delivery)
    ensures var v := Apply(w, CommitBatch(0, clock));
            && v == w.(rows := w.rows + [Stored(0, delivery, Reading(1, at, ""))], roster := v.roster,
                workers := v.workers)
            && v.workers == map[0 := Acking(delivery, w.workers[0].batch)]
  {
    hide SeenIn;
    var batch := [Msg(0, Some(Telemetry(Some(1), Some(at), "")))];
    assert batch[..0] == [];
    assert ToRows(batch, delivery, clock) == [Stored(0, delivery, Reading(1, at, ""))];
  }

  lemma RereadOne(w: World, body: Body, delivery: nat)
    requires w.entries == [body] && w.low == 0 && w.pending == map[0 := 0] && |w.deliveries| == delivery + 1
    requires 0 in w.workers && w.workers.Keys == {0} && !w.workers[0].Idle?
    ensures HoldsOne(Apply(Apply(w, Fail(0)), ReadOwn(0, [0])), body, delivery + 1)
    ensures Apply(Apply(w, Fail(0)), ReadOwn(0, [0])).rows == w.rows
  {
    hide Wrote;
    var v := Apply(w, Fail(0));
    assert v.workers == map[0 := Idle];
    assert FetchAll(v, [0]) == [Msg(0, Some(body))];
  }

  lemma DeliveredHolds(w: World, body: Body)
    requires w.entries == [body] && w.low == 0 && w.pending == map[0 := 0] && w.deliveries == [[0]]
    requires w.workers == map[0 := Holding(0, [Msg(0, Some(body))])]
    ensures HoldsOne(w, body, 0)
  { }

  /** The worker commits one reading, crashes before XACK, and reads its pending entry again. */
  lemma CrashedRun(at: Time, clock: nat -> Time) returns (steps: seq<Step>)
    ensures HoldsOne(Run(Init(), steps), Telemetry(Some(1), Some(at), ""), 1)
    ensures Run(Init(), steps).rows == [Stored(0, 0, Reading(1, at, ""))]
  {
    hide Apply, Run, HoldsOne;
    var body := Telemetry(Some(1), Some(at), "");
    steps := DeliveredRun(body);
    var w := Run(Init(), steps);
    DeliveredHolds(w, body);
    CommitOne(w, at, 0, clock);
    RunSnoc(Init(), steps, CommitBatch(0, clock));
    steps := steps + [CommitBatch(0, clock)];
    RereadOne(Run(Init(), steps), body, 0);
    RunSnoc(Init(), steps, Fail(0));
    steps := steps + [Fail(0)];
    RunSnoc(Init(), steps, ReadOwn(0, [0]));
    steps := steps + [ReadOwn(0, [0])];
  }

  /** A crash between the commit and XACK: the same reading is persisted twice, against "exactly once". */
  lemma CrashDuplicates(at: Time)
    ensures exists steps :: var w := Run(Init(), steps);
              |w.entries| == 1 && |w.rows| == 2 && w.rows[0].entry == 0 && w.rows[1].entry == 0
  {
    hide Apply, Run;
    var clock: nat -> Time := (i: nat) => at;
    var steps := CrashedRun(at, clock);
    CommitOne(Run(Init(), steps), at, 1, clock);
    RunSnoc(Init(), steps, CommitBatch(0, clock));
    steps := steps + [CommitBatch(0, clock)];
    assert |Run(Init(), steps).rows| == 2;
  }

  lemma TrimOne(w: World, body: Body)
    requires HoldsOne(w, body, 0)
    ensures var v := Apply(Apply(Apply(w, Fail(0)), Trim(1)), ReadOwn(0, [0]));
            v.entries == w.entries && v.rows == w.rows && v.pending == w.pending &&
                v.workers == map[0 := Holding(1, [Msg(0, None)])]
  {
    hide Wrote, Elements, Range;
    var v := Apply(Apply(w, Fail(0)), Trim(1));
    assert v.workers == map[0 := Idle];
    assert FetchAll(v, [0]) == [Msg(0, None)];
  }

  /** The worker crashes before persisting, the entry is trimmed, and comes back without its fields. */
  lemma TrimmedRun(body: Body) returns (steps: seq<Step>)
    ensures var w := Run(Init(), steps);
            w.entries == [body] && w.rows == [] && w.pending == map[0 := 0] &&
                w.workers == map[0 := Holding(1, [Msg(0, None)])]
  {
    hide Apply, Run, HoldsOne;
    steps := DeliveredRun(body);
    DeliveredHolds(Run(Init(), steps), body);
    TrimOne(Run(Init(), steps), body);
    RunSnoc(Init(), steps, Fail(0));
    steps := steps + [Fail(0)];
    RunSnoc(Init(), steps, Trim(1));
    steps := steps + [Trim(1)];
    RunSnoc(Init(), steps, ReadOwn(0, [0]));
    steps := steps + [ReadOwn(0, [0])];
  }

  lemma AckNothing(w: World, clock: nat -> Time)
    requires w.pending == map[0 := 0] && w.workers == map[0 := Holding(1, [Msg(0, None)])]
    ensures var v := Apply(Apply(w, CommitBatch(0, clock)), XAck(0));
            v.entries == w.entries && v.rows == w.rows && 0 in v.acked
  {
    hide SeenIn;
    var batch := [Msg(0, None)];
    assert batch[..0] == [];
    assert ToRows(batch, 1, clock) == [];
    assert Msg(0, None) in batch;
  }

  /** Such an entry is acknowledged and never persisted. */
  lemma TrimLoses(at: Time)
    ensures exists steps :: var w := Run(Init(), steps);
              |w.entries| == 1 && w.entries[0].Telemetry? && 0 in w.acked && w.rows == []
  {
    hide Apply, Run;
    var clock: nat -> Time := (i: nat) => at;
    var steps := TrimmedRun(Telemetry(Some(1), Some(at), ""));
    AckNothing(Run(Init(), steps), clock);
    RunSnoc(Init(), steps, CommitBatch(0, clock));
    steps := steps + [CommitBatch(0, clock)];
    RunSnoc(Init(), steps, XAck(0));
    steps := steps + [XAck(0)];
    assert Run(Init(), steps).rows == [];
  }
}
