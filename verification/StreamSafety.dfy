/** What every step of the stream's consumer group keeps, whatever crashes, replays or takeovers occur. */
module StreamSafety {
  import opened Prelude
  import opened Roster
  import opened Stream

  // ----- where each entry is

  predicate Undelivered(w: World, e: Entry) {
    w.next <= e && w.low <= e
  }

  ghost predicate Fates(w: World) {
    && w.next <= |w.entries| && w.low <= |w.entries|
    && w.pending.Keys !! w.acked && w.pending.Keys !! w.dropped && w.acked !! w.dropped
    && (forall e: Entry :: e in w.pending || e in w.acked || e in w.dropped <==> e < |w.entries| && !Undelivered(w, e))
  }

  // ----- what workers hold in memory

  /** The rows of a batch: one per message that carries a reading, in order. */
  ghost predicate RowsFit(rows: seq<Stored>, batch: seq<Msg>, delivery: nat) {
    && EntriesOf(rows) == Carried(batch)
    && (forall i :: 0 <= i < |rows| ==> rows[i].delivery == delivery)
    && (forall i, j :: 0 <= i < j < |rows| ==> rows[i].entry < rows[j].entry)
  }

  ghost predicate MsgOk(w: World, m: Msg) {
    && m.entry < w.next && m.entry < |w.entries|
    && (if m.body.Some? then m.body.value == w.entries[m.entry] else m.entry < w.low)
  }

  ghost predicate WorkerOk(w: World, s: Worker) {
    s.Idle? || (
      && s.delivery < |w.deliveries| && Entries(s.batch) == w.deliveries[s.delivery] && Increasing(Entries(s.batch))
      && (forall m :: m in s.batch ==> MsgOk(w, m))
      && (s.Writing? ==> RowsFit(s.rows, s.batch, s.delivery) && s.done <= |s.rows|))
  }

  ghost predicate WorkersOk(w: World) {
    && (forall c :: c in w.workers ==> WorkerOk(w, w.workers[c]))
    && (forall c, d :: c in w.workers && d in w.workers && c != d && !w.workers[c].Idle? && !w.workers[d].Idle? ==>
          w.workers[c].delivery != w.workers[d].delivery)
  }

  // ----- what has been written

  ghost predicate RowOk(w: World, r: Stored) {
    r.delivery < |w.deliveries| && r.entry in w.deliveries[r.delivery]
  }

  predicate WrittenFor(s: Worker, r: Stored) {
    !s.Idle? && r.delivery == s.delivery
  }

  /** Each delivery writes an entry at most once, and a live worker remembers what its delivery wrote. */
  ghost predicate RowsOk(w: World) {
    && (forall k :: 0 <= k < |w.rows| ==> RowOk(w, w.rows[k]))
    && (forall k, l :: 0 <= k < l < |w.rows| ==>
        w.rows[k].entry != w.rows[l].entry || w.rows[k].delivery != w.rows[l].delivery)
    && (forall c, k :: c in w.workers && 0 <= k < |w.rows| && WrittenFor(w.workers[c], w.rows[k]) ==>
          w.rows[k].entry in Wrote(w.workers[c]))
  }

  ghost predicate HasRow(rows: seq<Stored>, e: Entry, d: nat) {
    exists k :: 0 <= k < |rows| && rows[k].entry == e && rows[k].delivery == d
  }

  /** What a live worker's delivery has committed is there. */
  ghost predicate Backed(w: World) {
    forall c, e :: c in w.workers && e in Wrote(w.workers[c]) && !w.workers[c].Idle? ==>
        HasRow(w.rows, e, w.workers[c].delivery)
  }

  /** A row of `e` from a delivery that has ended, other than the one that acknowledged `e`. */
  ghost predicate Another(w: World, e: Entry) {
    exists d :: d in w.marks.ended && HasRow(w.rows, e, d) && (e in w.full ==> w.full[e] != d)
  }

  ghost predicate MarksOk(w: World) {
    && (forall d :: d in w.marks.ended ==> d < |w.deliveries|)
    && (forall c :: c in w.workers && !w.workers[c].Idle? ==> w.workers[c].delivery !in w.marks.ended)
    && (forall e :: e in w.marks.lost || e in w.marks.late ==> Another(w, e))
  }

  ghost predicate AckedOk(w: World) {
    && w.full.Keys <= w.acked
    && (forall e :: e in w.full ==> w.full[e] in w.marks.ended)
    && (forall e :: e in w.full && e < |w.entries| && w.entries[e].Telemetry? ==> HasRow(w.rows, e, w.full[e]))
    && (forall e :: e in w.acked && e !in w.full ==> e < w.low)
  }

  ghost predicate Live(workers: map<Consumer, Worker>, e: Entry, d: nat) {
    exists c :: c in workers && !workers[c].Idle? && workers[c].delivery == d && e in Wrote(workers[c])
  }

  /** Where a row came from: a delivery still under way, one that was lost or late, or the one that acknowledged. */
  ghost predicate Explained(w: World, r: Stored) {
    || Live(w.workers, r.entry, r.delivery)
    || r.entry in w.marks.lost || r.entry in w.marks.late
    || (r.entry in w.full && w.full[r.entry] == r.delivery)
  }

  ghost predicate Traced(w: World) {
    forall k :: 0 <= k < |w.rows| ==> Explained(w, w.rows[k])
  }

  /** An entry never contested is pending for whoever holds it. */
  ghost predicate Owned(w: World) {
    && (forall c, e :: c in w.workers && e in Held(w.workers[c]) && e !in w.marks.contested ==>
        e in w.pending && w.pending[e] == c)
    && w.marks.late <= w.marks.contested
  }

  ghost predicate DeliveriesOk(w: World) {
    && (forall e :: e in w.pending ==> e < w.next)
    && (forall t :: 0 <= t < |w.deliveries| ==> Increasing(w.deliveries[t]))
    && (forall t, e :: 0 <= t < |w.deliveries| && e in w.deliveries[t] ==> e < w.next)
  }

  ghost predicate Inv(w: World) {
    && Fates(w) && DeliveriesOk(w) && WorkersOk(w) && RowsOk(w)
    && Backed(w) && MarksOk(w) && AckedOk(w) && Traced(w) && Owned(w)
  }

  lemma RangeElements(a: nat, b: nat)
    ensures forall e: Entry :: e in Elements(Range(a, b)) <==> a <= e < b
    ensures forall e: Entry :: e in Range(a, b) <==> a <= e < b
    ensures Increasing(Range(a, b))
  {
    forall e: Entry | a <= e < b ensures e in Range(a, b) { assert Range(a, b)[e - a] == e; }
  }

  lemma TrimKeepsFates(w: World, low: nat)
    requires Fates(w)
    ensures Fates(Trimmed(w, low))
  {
    hide Range, Elements;
    RangeElements(First(w), low);
  }

  lemma NewBatchKeepsFates(w: World, c: Consumer, count: nat)
    requires Fates(w)
    ensures Fates(NewBatch(w, c, count))
  {
    hide Range, Elements, FetchAll;
    RangeElements(First(w), First(w) + count);
  }

  lemma ClaimKeepsFates(w: World, c: Consumer, taken: set<Entry>, purge: set<Entry>)
    requires Fates(w)
    ensures Fates(Claimed(w, c, taken, purge))
  {
    hide HeldElsewhere;
  }

  lemma AckKeepsFates(w: World, c: Consumer)
    requires Fates(w)
    ensures Fates(Acknowledged(w, c))
  {
    hide Wrote, Held;
  }

  lemma FatesKept(w: World, s: Step)
    requires Fates(w)
    ensures Fates(Apply(w, s))
  {
    hide Poisoned, ToRows, SeenIn, Wrote, Increasing, FetchAll, Trimmed, NewBatch, Claimed, Acknowledged;
    match s
    case Trim(low) => TrimKeepsFates(w, low);
    case ReadNew(c, count) => NewBatchKeepsFates(w, c, count);
    case AutoClaim(c, taken, purge) => ClaimKeepsFates(w, c, taken, purge);
    case XAck(c) => AckKeepsFates(w, c);
    case _ =>
  }

  lemma NewBatchKeepsDeliveries(w: World, c: Consumer, count: nat)
    requires Fates(w) && DeliveriesOk(w)
    ensures DeliveriesOk(NewBatch(w, c, count))
  {
    hide Range, Elements, FetchAll;
    RangeElements(First(w), First(w) + count);
  }

  lemma DeliveriesKept(w: World, s: Step)
    requires Fates(w) && DeliveriesOk(w)
    ensures DeliveriesOk(Apply(w, s))
  {
    hide Fates, Poisoned, ToRows, SeenIn, Range, Elements, Wrote, HeldElsewhere, FetchAll, NewBatch;
    if s.ReadNew? && s.c in w.workers { NewBatchKeepsDeliveries(w, s.c, s.count); }
  }

  // ----- workers

  ghost predicate Advanced(w: World, v: World) {
    && w.entries <= v.entries && w.next <= v.next && w.low <= v.low && w.deliveries <= v.deliveries
  }

  lemma WorkerStays(w: World, v: World, s: Worker)
    requires WorkerOk(w, s) && Advanced(w, v)
    ensures WorkerOk(v, s)
  { }

  lemma WorkersStay(w: World, v: World, c: Consumer)
    requires WorkersOk(w) && Advanced(w, v) && c in v.workers
    requires v.workers == w.workers[c := v.workers[c]]
    requires WorkerOk(v, v.workers[c])
    requires v.workers[c].Idle? ||
        (c in w.workers && !w.workers[c].Idle? && v.workers[c].delivery == w.workers[c].delivery)
             || v.workers[c].delivery == |w.deliveries|
    ensures WorkersOk(v)
  {
    hide WorkerOk, Advanced;
    forall d | d in w.workers ensures WorkerOk(v, w.workers[d]) { WorkerStays(w, v, w.workers[d]); }
    forall d | d in w.workers && !w.workers[d].Idle? ensures w.workers[d].delivery < |w.deliveries| {
      DeliveryKnown(w, w.workers[d]);
    }
  }

  lemma DeliveryKnown(w: World, s: Worker)
    requires WorkerOk(w, s) && !s.Idle?
    ensures s.delivery < |w.deliveries|
  { }

  lemma {:induction false} RowsFitBatch(batch: seq<Msg>, delivery: nat, clock: nat -> Time)
    requires Increasing(Entries(batch))
    ensures RowsFit(ToRows(batch, delivery, clock), batch, delivery)
  {
    if batch != [] {
      var n := |batch| - 1;
      var init := batch[..n];
      forall i, j | 0 <= i < j < n ensures Entries(init)[i] < Entries(init)[j] {
        assert Entries(batch)[i] < Entries(batch)[j];
      }
      RowsFitBatch(init, delivery, clock);
      var rest := ToRows(init, delivery, clock);
      forall i | 0 <= i < |rest| ensures rest[i].entry < batch[n].entry {
        assert rest[i].entry in EntriesOf(rest);
        assert rest[i].entry in Carried(init);
        var k :| 0 <= k < n && batch[k].entry == rest[i].entry;
        assert Entries(batch)[k] < Entries(batch)[n];
      }
      assert batch == init + [batch[n]];
      if Carries(batch[n]) {
        var x := Stored(batch[n].entry, delivery, ToReading(batch[n].body.value, clock(n)));
        assert EntriesOf(rest + [x]) == EntriesOf(rest) + {x.entry};
        assert Carried(batch) == Carried(init) + {x.entry};
      } else {
        assert Carried(batch) == Carried(init);
      }
    }
  }

  lemma DeliveredOk(w: World, c: Consumer, ids: seq<Entry>)
    requires Increasing(ids) && forall e :: e in ids ==> e < w.next && e < |w.entries|
    ensures var v := Deliver(w, c, ids); WorkerOk(v, v.workers[c])
  {
    var v := Deliver(w, c, ids);
    var batch := FetchAll(w, ids);
    assert Entries(batch) == ids;
    forall m | m in batch ensures MsgOk(v, m) {
      var i :| 0 <= i < |batch| && batch[i] == m;
      assert m == Fetch(w, ids[i]) && ids[i] in ids;
    }
  }

  lemma DeliverKeepsWorkers(w: World, c: Consumer, ids: seq<Entry>)
    requires WorkersOk(w) && Increasing(ids) && forall e :: e in ids ==> e < w.next && e < |w.entries|
    ensures WorkersOk(Deliver(w, c, ids))
  {
    hide WorkersOk, WorkerOk;
    DeliveredOk(w, c, ids);
    WorkersStay(w, Deliver(w, c, ids), c);
  }

  lemma NewBatchKeepsWorkers(w: World, c: Consumer, count: nat)
    requires Fates(w) && WorkersOk(w)
    ensures WorkersOk(NewBatch(w, c, count))
  {
    hide WorkersOk, Range, Increasing;
    var from := First(w);
    RangeElements(from, from + count);
    if NewBatch(w, c, count) != w {
      var mid := w.(next := from + count,
                    pending := map e | e in w.pending.Keys + Elements(Range(from, from + count)) ::
                                 if e in w.pending then w.pending[e] else c);
      WorkersSame(w, mid);
      DeliverKeepsWorkers(mid, c, Range(from, from + count));
    }
  }

  lemma WorkersSame(w: World, v: World)
    requires WorkersOk(w) && Advanced(w, v) && v.workers == w.workers
    ensures WorkersOk(v)
  {
    hide WorkerOk, Advanced;
    forall d | d in w.workers ensures WorkerOk(v, w.workers[d]) { WorkerStays(w, v, w.workers[d]); }
  }

  lemma SetKeepsWorkers(w: World, v: World, c: Consumer)
    requires WorkersOk(w) && Advanced(w, v) && c in w.workers && c in v.workers &&
        v.workers == w.workers[c := v.workers[c]]
    requires v.workers[c].Idle? ||
        (!w.workers[c].Idle? && v.workers[c].delivery == w.workers[c].delivery &&
            v.workers[c].batch == w.workers[c].batch)
    requires v.workers[c].Writing? ==>
        RowsFit(v.workers[c].rows, v.workers[c].batch, v.workers[c].delivery) &&
            v.workers[c].done <= |v.workers[c].rows|
    ensures WorkersOk(v)
  {
    hide RowsFit, MsgOk, Increasing;
    assert WorkerOk(w, w.workers[c]);
    assert WorkerOk(v, v.workers[c]) by { WorkerStays(w, v, w.workers[c]); }
    WorkersStay(w, v, c);
  }

  lemma BeginKeepsWorkers(w: World, c: Consumer, clock: nat -> Time)
    requires WorkersOk(w) && c in w.workers
    ensures WorkersOk(Begun(w, c, clock))
  {
    hide RowsFit, MsgOk, Increasing, Poisoned, ToRows;
    var s := w.workers[c];
    assert WorkerOk(w, s);
    if s.Holding? {
      RowsFitBatch(s.batch, s.delivery, clock);
      SetKeepsWorkers(w, Begun(w, c, clock), c);
    }
  }

  lemma WorkersKept(w: World, s: Step)
    requires Fates(w) && DeliveriesOk(w) && WorkersOk(w)
    ensures WorkersOk(Apply(w, s))
  {
    hide Fates, WorkersOk, Begun, NewBatch, Persisted, RowCommitted, RosterCommitted, Acknowledged, Failed, Trimmed,
        Claimed, OwnBatch;
    var v := Apply(w, s);
    match s
    case Join(c) => if c !in w.workers { WorkersStay(w, v, c); }
    case ReadOwn(c, ids) => OwnBatchKeepsWorkers(w, c, ids);
    case ReadNew(c, count) => if c in w.workers { NewBatchKeepsWorkers(w, c, count); }
    case Begin(c, clock) => if c in w.workers { BeginKeepsWorkers(w, c, clock); }
    case CommitBatch(c, clock) => if c in w.workers { BatchKeepsWorkers(w, c, clock); }
    case CommitRow(c) => RowKeepsWorkers(w, c);
    case CommitRoster(c) => EndKeepsWorkers(w, c);
    case XAck(c) => EndKeepsWorkers(w, c);
    case Fail(c) => EndKeepsWorkers(w, c);
    case XAdd(_) => WorkersSame(w, v);
    case Trim(low) => StreamKeepsWorkers(w, low);
    case AutoClaim(c, taken, purge) => ClaimKeepsWorkers(w, c, taken, purge);
  }

  lemma OwnBatchKeepsWorkers(w: World, c: Consumer, ids: seq<Entry>)
    requires Fates(w) && DeliveriesOk(w) && WorkersOk(w)
    ensures WorkersOk(OwnBatch(w, c, ids))
  {
    hide WorkersOk, Increasing, FetchAll;
    if OwnBatch(w, c, ids) != w { DeliverKeepsWorkers(w, c, ids); }
  }

  lemma BatchKeepsWorkers(w: World, c: Consumer, clock: nat -> Time)
    requires WorkersOk(w) && c in w.workers
    ensures WorkersOk(Persisted(w, c, clock))
  {
    hide WorkersOk, RowsFit, ToRows, SeenIn, Poisoned;
    if Persisted(w, c, clock) != w { SetKeepsWorkers(w, Persisted(w, c, clock), c); }
  }

  lemma EndKeepsWorkers(w: World, c: Consumer)
    requires WorkersOk(w)
    ensures WorkersOk(RosterCommitted(w, c)) && WorkersOk(Acknowledged(w, c)) && WorkersOk(Failed(w, c))
  {
    hide WorkersOk, RowsFit, SeenIn, Wrote, Held;
    if RosterCommitted(w, c) != w { SetKeepsWorkers(w, RosterCommitted(w, c), c); }
    if Acknowledged(w, c) != w { SetKeepsWorkers(w, Acknowledged(w, c), c); }
    if Failed(w, c) != w { SetKeepsWorkers(w, Failed(w, c), c); }
  }

  lemma StreamKeepsWorkers(w: World, low: nat)
    requires WorkersOk(w)
    ensures WorkersOk(Trimmed(w, low))
  {
    hide WorkersOk, Range, Elements;
    WorkersSame(w, Trimmed(w, low));
  }

  lemma ClaimKeepsWorkers(w: World, c: Consumer, taken: set<Entry>, purge: set<Entry>)
    requires WorkersOk(w)
    ensures WorkersOk(Claimed(w, c, taken, purge))
  {
    hide WorkersOk, HeldElsewhere;
    WorkersSame(w, Claimed(w, c, taken, purge));
  }

  lemma RowKeepsWorkers(w: World, c: Consumer)
    requires WorkersOk(w)
    ensures WorkersOk(RowCommitted(w, c))
  {
    hide RowsFit, MsgOk, Increasing;
    if RowCommitted(w, c) != w {
      assert WorkerOk(w, w.workers[c]);
      SetKeepsWorkers(w, RowCommitted(w, c), c);
    }
  }

  // ----- rows

  /** `v` differs from `w` in what worker `c` is doing; it remembers at least what its delivery wrote. */
  ghost predicate Remembers(w: World, v: World, c: Consumer) {
    && c in v.workers && v.workers == w.workers[c := v.workers[c]]
    && (|| v.workers[c].Idle?
        || v.workers[c].delivery == |w.deliveries|
        || (&& c in w.workers && !w.workers[c].Idle? && v.workers[c].delivery == w.workers[c].delivery
            && Wrote(w.workers[c]) <= Wrote(v.workers[c])))
  }

  lemma RowsSame(w: World, v: World, c: Consumer)
    requires RowsOk(w) && v.rows == w.rows && w.deliveries <= v.deliveries && Remembers(w, v, c)
    ensures RowsOk(v)
  {
    hide Wrote;
    forall k | 0 <= k < |w.rows| ensures RowOk(v, w.rows[k]) { assert RowOk(w, w.rows[k]); }
  }

  /** The rows worker `c` commits now: of its own delivery, none written before. */
  ghost predicate FreshRows(w: World, c: Consumer, added: seq<Stored>) {
    && c in w.workers && !w.workers[c].Idle?
    && (forall i :: 0 <= i < |added| ==>
          added[i].delivery == w.workers[c].delivery && RowOk(w, added[i]) && added[i].entry !in Wrote(w.workers[c]))
    && (forall i, j :: 0 <= i < j < |added| ==> added[i].entry != added[j].entry)
  }

  lemma RowsExtend(w: World, v: World, c: Consumer, added: seq<Stored>)
    requires RowsOk(w) && WorkersOk(w) && FreshRows(w, c, added)
    requires v.rows == w.rows + added && v.deliveries == w.deliveries
    requires c in v.workers && v.workers == w.workers[c := v.workers[c]] && !v.workers[c].Idle?
    requires v.workers[c].delivery == w.workers[c].delivery &&
        Wrote(v.workers[c]) == Wrote(w.workers[c]) + EntriesOf(added)
    ensures RowsOk(v)
  {
    hide Wrote, WorkerOk;
    var n := |w.rows|;
    forall k | 0 <= k < |v.rows| ensures RowOk(v, v.rows[k]) { assert k < n ==> RowOk(w, w.rows[k]); }
    forall k, l | 0 <= k < l < |v.rows|
      ensures v.rows[k].entry != v.rows[l].entry || v.rows[k].delivery != v.rows[l].delivery
    {
      if k < n <= l && w.rows[k].delivery == v.rows[l].delivery { assert w.rows[k].entry in Wrote(w.workers[c]); }
    }
    forall k | n <= k < |v.rows| ensures v.rows[k].entry in Wrote(v.workers[c]) {
      assert v.rows[k] in added;
      assert v.rows[k].entry in EntriesOf(added);
    }
  }

  lemma BatchIsFresh(w: World, c: Consumer, clock: nat -> Time)
    requires WorkersOk(w) && c in w.workers && w.workers[c].Holding?
    ensures var s := w.workers[c];
            FreshRows(w, c, ToRows(s.batch, s.delivery, clock)) &&
                EntriesOf(ToRows(s.batch, s.delivery, clock)) == Carried(s.batch)
  {
    hide ToRows, MsgOk;
    var s := w.workers[c];
    assert WorkerOk(w, s);
    RowsFitBatch(s.batch, s.delivery, clock);
    var rows := ToRows(s.batch, s.delivery, clock);
    forall i | 0 <= i < |rows| ensures RowOk(w, rows[i]) {
      assert rows[i].entry in EntriesOf(rows);
      var k :| 0 <= k < |s.batch| && s.batch[k].entry == rows[i].entry;
      assert Entries(s.batch)[k] == rows[i].entry;
    }
  }

  lemma NextRowIsFresh(w: World, c: Consumer)
    requires WorkersOk(w) && c in w.workers && w.workers[c].Writing? && w.workers[c].done < |w.workers[c].rows|
    ensures var s := w.workers[c];
            FreshRows(w, c, [s.rows[s.done]]) && Wrote(s.(done := s.done + 1)) == Wrote(s) + EntriesOf([s.rows[s.done]])
  {
    hide MsgOk;
    var s := w.workers[c];
    assert WorkerOk(w, s);
    var x := s.rows[s.done];
    assert x.entry in EntriesOf(s.rows);
    var k :| 0 <= k < |s.batch| && s.batch[k].entry == x.entry;
    assert Entries(s.batch)[k] == x.entry;
    assert s.rows[..s.done + 1] == s.rows[..s.done] + [x];
    forall i | 0 <= i < s.done ensures s.rows[i].entry != x.entry { }
  }

  lemma AllRowsWritten(w: World, c: Consumer)
    requires WorkersOk(w) && c in w.workers && w.workers[c].Writing? && w.workers[c].done == |w.workers[c].rows|
    ensures Wrote(w.workers[c]) == Carried(w.workers[c].batch)
  {
    hide MsgOk;
    var s := w.workers[c];
    assert WorkerOk(w, s);
    assert s.rows[..s.done] == s.rows;
  }

  lemma RowsKeptByBatch(w: World, c: Consumer, clock: nat -> Time)
    requires WorkersOk(w) && RowsOk(w)
    ensures RowsOk(Apply(w, CommitBatch(c, clock)))
  {
    hide WorkersOk, RowsOk, ToRows, Elements, Poisoned, FreshRows, Carried, EntriesOf;
    var v := Apply(w, CommitBatch(c, clock));
    if v != w && v.workers[c].Acking? {
      BatchIsFresh(w, c, clock);
      RowsExtend(w, v, c, ToRows(w.workers[c].batch, w.workers[c].delivery, clock));
    } else if v != w { RowsSame(w, v, c); }
  }

  lemma RowsKeptByRow(w: World, c: Consumer)
    requires WorkersOk(w) && RowsOk(w)
    ensures RowsOk(Apply(w, CommitRow(c)))
  {
    hide WorkersOk, RowsOk, Elements, FreshRows, Carried, EntriesOf;
    var v := Apply(w, CommitRow(c));
    if v != w {
      NextRowIsFresh(w, c);
      RowsExtend(w, v, c, [w.workers[c].rows[w.workers[c].done]]);
    }
  }

  lemma RowsKeptByRoster(w: World, c: Consumer)
    requires WorkersOk(w) && RowsOk(w)
    ensures RowsOk(Apply(w, CommitRoster(c)))
  {
    hide WorkersOk, RowsOk, Elements, Carried, EntriesOf;
    var v := Apply(w, CommitRoster(c));
    if v != w {
      AllRowsWritten(w, c);
      RowsSame(w, v, c);
    }
  }

  lemma RowsKeptByRead(w: World, c: Consumer, ids: seq<Entry>, count: nat)
    requires RowsOk(w) && c in w.workers
    ensures RowsOk(OwnBatch(w, c, ids)) && RowsOk(NewBatch(w, c, count))
  {
    hide RowsOk, Range, Elements, Increasing, FetchAll;
    if OwnBatch(w, c, ids) != w { RowsSame(w, OwnBatch(w, c, ids), c); }
    if NewBatch(w, c, count) != w { RowsSame(w, NewBatch(w, c, count), c); }
  }

  lemma RowsKeptByEnd(w: World, c: Consumer)
    requires RowsOk(w)
    ensures RowsOk(Acknowledged(w, c)) && RowsOk(Failed(w, c))
  {
    hide RowsOk, Wrote, Held;
    if Acknowledged(w, c) != w { RowsSame(w, Acknowledged(w, c), c); }
    if Failed(w, c) != w { RowsSame(w, Failed(w, c), c); }
  }

  lemma RowsKeptByBegin(w: World, c: Consumer, clock: nat -> Time)
    requires RowsOk(w) && c in w.workers
    ensures RowsOk(Begun(w, c, clock))
  {
    hide RowsOk, Wrote, ToRows, Poisoned;
    var v := Begun(w, c, clock);
    if v != w {
      NothingWritten(v.workers[c]);
      HoldingWroteNothing(w.workers[c]);
      RowsSame(w, v, c);
    }
  }

  lemma RowsKept(w: World, s: Step)
    requires WorkersOk(w) && RowsOk(w)
    ensures RowsOk(Apply(w, s))
  {
    hide WorkersOk, RowsOk, Range, Elements, HeldElsewhere, OwnBatch, NewBatch, Begun, Persisted, RowCommitted,
        RosterCommitted, Acknowledged, Failed;
    var v := Apply(w, s);
    match s
    case Join(c) => if v != w { RowsSame(w, v, c); }
    case ReadOwn(c, ids) => if c in w.workers { RowsKeptByRead(w, c, ids, 0); }
    case ReadNew(c, count) => if c in w.workers { RowsKeptByRead(w, c, [], count); }
    case Begin(c, clock) => if c in w.workers { RowsKeptByBegin(w, c, clock); }
    case CommitBatch(c, clock) => RowsKeptByBatch(w, c, clock);
    case CommitRow(c) => RowsKeptByRow(w, c);
    case CommitRoster(c) => RowsKeptByRoster(w, c);
    case XAck(c) => RowsKeptByEnd(w, c);
    case Fail(c) => RowsKeptByEnd(w, c);
    case _ => RowsUntouched(w, v);
  }

  lemma NothingWritten(s: Worker)
    requires s.Idle? || (s.Writing? && s.done == 0)
    ensures Wrote(s) == {}
  { }

  lemma RowsUntouched(w: World, v: World)
    requires RowsOk(w) && v.rows == w.rows && v.deliveries == w.deliveries && v.workers == w.workers
    ensures RowsOk(v)
  {
    hide Wrote;
    forall k | 0 <= k < |w.rows| ensures RowOk(v, w.rows[k]) { assert RowOk(w, w.rows[k]); }
  }

  // ----- acknowledgements

  lemma HasRowMore(rows: seq<Stored>, more: seq<Stored>, e: Entry, d: nat)
    requires HasRow(rows, e, d) || HasRow(more, e, d)
    ensures HasRow(rows + more, e, d)
  {
    if HasRow(rows, e, d) {
      var k :| 0 <= k < |rows| && rows[k].entry == e && rows[k].delivery == d;
      assert (rows + more)[k] == rows[k];
    } else {
      var k :| 0 <= k < |more| && more[k].entry == e && more[k].delivery == d;
      assert (rows + more)[|rows| + k] == more[k];
    }
  }

  predicate Writes(s: Step) {
    s.Begin? || s.CommitBatch? || s.CommitRow? || s.CommitRoster?
  }

  // ----- a step of one worker that neither acknowledges nor gives up written rows

  /** The record of what happened is unchanged. */
  ghost predicate SameRecord(w: World, v: World) {
    v.entries == w.entries && v.low == w.low && v.acked == w.acked && v.full == w.full && v.marks == w.marks
  }

  /** Worker `c` adds rows, all of its own delivery, and remembers exactly these in addition. */
  ghost predicate Adds(w: World, v: World, c: Consumer, added: seq<Stored>) {
    && c in v.workers && v.workers == w.workers[c := v.workers[c]]
    && v.rows == w.rows + added && SameRecord(w, v) && w.deliveries <= v.deliveries
    && Wrote(v.workers[c]) == (if c in w.workers then Wrote(w.workers[c]) else {}) + EntriesOf(added)
    && (v.workers[c].Idle? || v.workers[c].delivery == |w.deliveries| ||
        (c in w.workers && !w.workers[c].Idle? && v.workers[c].delivery == w.workers[c].delivery))
    && (Wrote(v.workers[c]) != {} ==>
          (&& c in w.workers && !w.workers[c].Idle? && !v.workers[c].Idle?
           && v.workers[c].delivery == w.workers[c].delivery))
    && (forall i :: 0 <= i < |added| ==> !v.workers[c].Idle? && added[i].delivery == v.workers[c].delivery)
  }

  lemma AddsBacked(w: World, v: World, c: Consumer, added: seq<Stored>)
    requires Backed(w) && Adds(w, v, c, added)
    ensures Backed(v)
  {
    hide Wrote, HasRow;
    forall d, e | d in v.workers && e in Wrote(v.workers[d]) && !v.workers[d].Idle?
      ensures HasRow(v.rows, e, v.workers[d].delivery)
    {
      if d == c && e in EntriesOf(added) { InAdded(added, e, v.workers[c].delivery); }
      HasRowMore(w.rows, added, e, v.workers[d].delivery);
    }
  }

  lemma InAdded(added: seq<Stored>, e: Entry, d: nat)
    requires e in EntriesOf(added) && forall i :: 0 <= i < |added| ==> added[i].delivery == d
    ensures HasRow(added, e, d)
  {
    var r :| r in added && r.entry == e;
    var i :| 0 <= i < |added| && added[i] == r;
  }

  lemma AddsMarks(w: World, v: World, c: Consumer, added: seq<Stored>)
    requires MarksOk(w) && AckedOk(w) && Adds(w, v, c, added)
    ensures MarksOk(v) && AckedOk(v)
  {
    hide Wrote, HasRow;
    forall e, d: nat | HasRow(w.rows, e, d) ensures HasRow(v.rows, e, d) { HasRowMore(w.rows, added, e, d); }
    forall e | e in w.marks.lost || e in w.marks.late ensures Another(v, e) {
      assert Another(w, e);
      var d :| d in w.marks.ended && HasRow(w.rows, e, d) && (e in w.full ==> w.full[e] != d);
      assert HasRow(v.rows, e, d);
    }
  }

  lemma LiveStays(w: World, v: World, c: Consumer, added: seq<Stored>, e: Entry, d: nat)
    requires Adds(w, v, c, added) && Live(w.workers, e, d)
    ensures Live(v.workers, e, d)
  {
    hide Wrote;
    var q :| q in w.workers && !w.workers[q].Idle? && w.workers[q].delivery == d && e in Wrote(w.workers[q]);
    assert q != c ==> v.workers[q] == w.workers[q];
    assert q == c ==> e in Wrote(v.workers[c]);
  }

  lemma AddsTraced(w: World, v: World, c: Consumer, added: seq<Stored>)
    requires Traced(w) && Adds(w, v, c, added)
    ensures Traced(v)
  {
    hide Wrote, Live;
    forall k | 0 <= k < |v.rows| ensures Explained(v, v.rows[k]) {
      if k < |w.rows| {
        assert Explained(w, w.rows[k]);
        if Live(w.workers, w.rows[k].entry, w.rows[k].delivery) {
          LiveStays(w, v, c, added, w.rows[k].entry, w.rows[k].delivery);
        }
      } else {
        var r := added[k - |w.rows|];
        assert r in added && r.entry in EntriesOf(added);
        NowLive(v.workers, c, r.entry);
      }
    }
  }

  lemma NowLive(workers: map<Consumer, Worker>, c: Consumer, e: Entry)
    requires c in workers && !workers[c].Idle? && e in Wrote(workers[c])
    ensures Live(workers, e, workers[c].delivery)
  { }

  /** Everything about rows and marks that such a step keeps. */
  ghost predicate Recorded(w: World) {
    Backed(w) && MarksOk(w) && AckedOk(w) && Traced(w)
  }

  lemma AddsKeeps(w: World, v: World, c: Consumer, added: seq<Stored>)
    requires Recorded(w) && Adds(w, v, c, added)
    ensures Recorded(v)
  {
    hide Backed, MarksOk, AckedOk, Traced, Adds;
    AddsBacked(w, v, c, added);
    AddsMarks(w, v, c, added);
    AddsTraced(w, v, c, added);
  }

  /** Only stream or pending list change. */
  lemma StreamKeeps(w: World, v: World)
    requires Fates(w) && Recorded(w) && w.entries <= v.entries && w.low <= v.low && v.deliveries == w.deliveries
    requires v.rows == w.rows && v.workers == w.workers && v.acked == w.acked && v.full == w.full
    requires v.marks == w.marks.(contested := v.marks.contested)
    ensures Recorded(v)
  {
    hide Wrote, HasRow, Live;
    forall e | e in w.acked ensures e < |w.entries| { }
    forall e | e in w.marks.lost || e in w.marks.late ensures Another(v, e) { assert Another(w, e); }
    forall k | 0 <= k < |v.rows| ensures Explained(v, v.rows[k]) { assert Explained(w, w.rows[k]); }
  }

  lemma BatchAdds(w: World, c: Consumer, clock: nat -> Time)
    requires WorkersOk(w) && c in w.workers && w.workers[c].Holding? && !Poisoned(w.workers[c].batch)
    ensures Adds(w, Persisted(w, c, clock), c, ToRows(w.workers[c].batch, w.workers[c].delivery, clock))
  {
    hide WorkersOk, ToRows, SeenIn, Poisoned, EntriesOf, Carried, FreshRows;
    BatchIsFresh(w, c, clock);
    HoldingWroteNothing(w.workers[c]);
    FreshDeliveries(w, c, ToRows(w.workers[c].batch, w.workers[c].delivery, clock));
  }

  lemma FreshDeliveries(w: World, c: Consumer, added: seq<Stored>)
    requires FreshRows(w, c, added)
    ensures forall i :: 0 <= i < |added| ==> added[i].delivery == w.workers[c].delivery
  { }

  lemma RowAdds(w: World, c: Consumer)
    requires WorkersOk(w) && c in w.workers && w.workers[c].Writing? && w.workers[c].done < |w.workers[c].rows|
    ensures Adds(w, RowCommitted(w, c), c, [w.workers[c].rows[w.workers[c].done]])
  {
    hide WorkersOk, EntriesOf, Wrote, FreshRows;
    NextRowIsFresh(w, c);
    FreshDeliveries(w, c, [w.workers[c].rows[w.workers[c].done]]);
  }

  lemma BeginKeepsRecord(w: World, c: Consumer, clock: nat -> Time)
    requires Recorded(w) && c in w.workers
    ensures Recorded(Begun(w, c, clock))
  {
    hide Recorded, Wrote, ToRows, Poisoned, EntriesOf;
    var v := Begun(w, c, clock);
    if v != w {
      NoEntries();
      HoldingWroteNothing(w.workers[c]);
      NothingWritten(v.workers[c]);
      AddsKeeps(w, v, c, []);
    }
  }

  lemma BatchKeepsRecord(w: World, c: Consumer, clock: nat -> Time)
    requires WorkersOk(w) && Recorded(w) && c in w.workers
    ensures Recorded(Persisted(w, c, clock))
  {
    hide WorkersOk, Recorded, Wrote, ToRows, SeenIn, Poisoned, EntriesOf;
    var v := Persisted(w, c, clock);
    if v != w {
      HoldingWroteNothing(w.workers[c]);
      if Poisoned(w.workers[c].batch) {
        NoEntries();
        NothingWritten(v.workers[c]);
        AddsKeeps(w, v, c, []);
      } else {
        BatchAdds(w, c, clock);
        AddsKeeps(w, v, c, ToRows(w.workers[c].batch, w.workers[c].delivery, clock));
      }
    }
  }

  lemma RosterKeepsRecord(w: World, c: Consumer)
    requires WorkersOk(w) && Recorded(w)
    ensures Recorded(RosterCommitted(w, c))
  {
    hide WorkersOk, Recorded, Wrote, SeenIn, EntriesOf;
    var v := RosterCommitted(w, c);
    if v != w {
      NoEntries();
      AllRowsWritten(w, c);
      AckingWrote(v.workers[c]);
      AddsKeeps(w, v, c, []);
    }
  }

  lemma RowKeepsRecord(w: World, c: Consumer)
    requires WorkersOk(w) && Recorded(w)
    ensures Recorded(RowCommitted(w, c))
  {
    hide WorkersOk, Recorded, Wrote, EntriesOf;
    if RowCommitted(w, c) != w {
      RowAdds(w, c);
      AddsKeeps(w, RowCommitted(w, c), c, [w.workers[c].rows[w.workers[c].done]]);
    }
  }

  /** Joining, or being handed a batch. */
  lemma ReadKeepsRecord(w: World, c: Consumer, ids: seq<Entry>, count: nat)
    requires Recorded(w)
    ensures c !in w.workers ==> Recorded(Set(w, c, Idle))
    ensures c in w.workers ==> Recorded(OwnBatch(w, c, ids)) && Recorded(NewBatch(w, c, count))
  {
    hide Recorded, Wrote, EntriesOf, Range, Elements, Increasing, FetchAll;
    NoEntries();
    IdleWroteNothing();
    if c !in w.workers { AddsKeeps(w, Set(w, c, Idle), c, []); }
    else {
      var own, new' := OwnBatch(w, c, ids), NewBatch(w, c, count);
      if own != w { HoldingWroteNothing(own.workers[c]); AddsKeeps(w, own, c, []); }
      if new' != w { HoldingWroteNothing(new'.workers[c]); AddsKeeps(w, new', c, []); }
    }
  }

  lemma NoEntries()
    ensures EntriesOf([]) == {}
  { }

  // ----- a delivery ends

  lemma OthersLive(w: World, c: Consumer, e: Entry, d: nat)
    requires c in w.workers && Live(w.workers, e, d) && (w.workers[c].Idle? || w.workers[c].delivery != d)
    ensures Live(w.workers[c := Idle], e, d)
  {
    hide Wrote;
    var q :| q in w.workers && !w.workers[q].Idle? && w.workers[q].delivery == d && e in Wrote(w.workers[q]);
    assert w.workers[c := Idle][q] == w.workers[q];
  }

  /** What remains to be shown when worker `c` ends its delivery. */
  ghost predicate Ends(w: World, v: World, c: Consumer) {
    && c in w.workers && !w.workers[c].Idle? && v.workers == w.workers[c := Idle]
    && v.rows == w.rows && v.deliveries == w.deliveries && v.entries == w.entries && v.low == w.low
    && v.marks.ended == w.marks.ended + {w.workers[c].delivery}
    && w.full.Keys <= v.full.Keys && w.marks.lost <= v.marks.lost && w.marks.late <= v.marks.late
    && (forall e :: e in w.full && e in v.full ==> v.full[e] == w.full[e])
    && (forall e :: e in v.full && e !in w.full ==> v.full[e] == w.workers[c].delivery)
    && (forall e :: (e in v.marks.lost || e in v.marks.late) && e !in w.marks.lost && e !in w.marks.late ==>
          e in Wrote(w.workers[c]) && (e in v.full ==> e in w.full))
    && (forall e :: e in Wrote(w.workers[c]) ==>
          e in v.marks.lost || e in v.marks.late || (e in v.full && v.full[e] == w.workers[c].delivery))
  }

  lemma EndsBacked(w: World, v: World, c: Consumer)
    requires Backed(w) && Ends(w, v, c)
    ensures Backed(v)
  {
    hide Wrote, HasRow;
    IdleWroteNothing();
  }

  lemma EndsMarks(w: World, v: World, c: Consumer)
    requires WorkersOk(w) && Backed(w) && MarksOk(w) && AckedOk(w) && Ends(w, v, c)
    ensures MarksOk(v)
  {
    hide Wrote, HasRow, WorkerOk;
    var own := w.workers[c].delivery;
    assert own < |w.deliveries| by { assert WorkerOk(w, w.workers[c]); DeliveryKnown(w, w.workers[c]); }
    forall e | e in v.marks.lost || e in v.marks.late ensures Another(v, e) {
      if e in w.marks.lost || e in w.marks.late {
        assert Another(w, e);
        var d :| d in w.marks.ended && HasRow(w.rows, e, d) && (e in w.full ==> w.full[e] != d);
        assert d in v.marks.ended && HasRow(v.rows, e, d) && (e in v.full ==> v.full[e] != d);
      } else {
        assert HasRow(v.rows, e, own) && own in v.marks.ended;
      }
    }
  }

  lemma EndsTraced(w: World, v: World, c: Consumer)
    requires WorkersOk(w) && RowsOk(w) && Traced(w) && Ends(w, v, c)
    ensures Traced(v)
  {
    hide Wrote, Live, WorkersOk, RowOk;
    forall k | 0 <= k < |v.rows| ensures Explained(v, v.rows[k]) {
      var r := w.rows[k];
      assert Explained(w, r);
      if Live(w.workers, r.entry, r.delivery) && r.delivery != w.workers[c].delivery {
        OthersLive(w, c, r.entry, r.delivery);
      }
    }
  }

  lemma FailEnds(w: World, c: Consumer)
    requires c in w.workers && !w.workers[c].Idle?
    ensures Ends(w, Failed(w, c), c)
  {
    hide Wrote;
  }

  lemma AckEnds(w: World, c: Consumer)
    requires Fates(w) && AckedOk(w) && WorkersOk(w) && c in w.workers && w.workers[c].Acking?
    ensures Ends(w, Acknowledged(w, c), c)
  {
    hide HasRow, Increasing, WorkersOk;
    var s := w.workers[c];
    var v := Acknowledged(w, c);
    forall e | e in Wrote(s) ensures e in v.marks.late || (e in v.full && v.full[e] == s.delivery) {
      var m :| m in s.batch && Carries(m) && m.entry == e;
    }
  }

  lemma AckKeepsAcked(w: World, c: Consumer)
    requires AckedOk(w) && Backed(w) && WorkersOk(w) && Fates(w) && c in w.workers && w.workers[c].Acking?
    ensures AckedOk(Acknowledged(w, c))
  {
    hide HasRow, Increasing;
    var s := w.workers[c];
    assert WorkerOk(w, s);
    var v := Acknowledged(w, c);
    forall e | e in v.full && e < |v.entries| && v.entries[e].Telemetry? ensures HasRow(v.rows, e, v.full[e]) {
      if e !in w.full {
        var m :| m in s.batch && m.body.Some? && m.entry == e;
        assert MsgOk(w, m) && Carries(m);
        assert e in Wrote(s);
      }
    }
    forall e | e in v.acked && e !in v.full ensures e < v.low {
      if e !in w.acked {
        var m :| m in s.batch && m.entry == e;
        assert MsgOk(w, m);
      }
    }
  }

  lemma AckKeepsRecord(w: World, c: Consumer)
    requires Fates(w) && WorkersOk(w) && RowsOk(w) && Recorded(w) && c in w.workers && w.workers[c].Acking?
    ensures Recorded(Acknowledged(w, c))
  {
    hide Fates, WorkersOk, RowsOk, Backed, MarksOk, AckedOk, Traced, Ends, Acknowledged;
    AckEnds(w, c);
    AckKeepsAcked(w, c);
    EndsBacked(w, Acknowledged(w, c), c);
    EndsMarks(w, Acknowledged(w, c), c);
    EndsTraced(w, Acknowledged(w, c), c);
  }

  lemma FailKeepsAcked(w: World, c: Consumer)
    requires AckedOk(w)
    ensures AckedOk(Failed(w, c))
  {
    hide Wrote, HasRow;
  }

  lemma FailKeepsRecord(w: World, c: Consumer)
    requires WorkersOk(w) && RowsOk(w) && Recorded(w) && c in w.workers && !w.workers[c].Idle?
    ensures Recorded(Failed(w, c))
  {
    hide WorkersOk, RowsOk, Backed, MarksOk, AckedOk, Traced, Ends, Failed;
    FailEnds(w, c);
    FailKeepsAcked(w, c);
    EndsBacked(w, Failed(w, c), c);
    EndsMarks(w, Failed(w, c), c);
    EndsTraced(w, Failed(w, c), c);
  }

  lemma RecordKept(w: World, s: Step)
    requires Fates(w) && WorkersOk(w) && RowsOk(w) && Recorded(w)
    ensures Recorded(Apply(w, s))
  {
    hide Fates, WorkersOk, RowsOk, Recorded, Range, Elements, HeldElsewhere, OwnBatch, NewBatch,
         Begun, Persisted, RowCommitted, RosterCommitted, Acknowledged, Failed;
    var v := Apply(w, s);
    match s
    case Join(c) => ReadKeepsRecord(w, c, [], 0);
    case ReadOwn(c, ids) => ReadKeepsRecord(w, c, ids, 0);
    case ReadNew(c, count) => ReadKeepsRecord(w, c, [], count);
    case Begin(c, clock) => if c in w.workers { BeginKeepsRecord(w, c, clock); }
    case CommitBatch(c, clock) => if c in w.workers { BatchKeepsRecord(w, c, clock); }
    case CommitRow(c) => RowKeepsRecord(w, c);
    case CommitRoster(c) => RosterKeepsRecord(w, c);
    case XAck(c) => if c in w.workers && w.workers[c].Acking? { AckKeepsRecord(w, c); } else { NoAck(w, c); }
    case Fail(c) => if c in w.workers && !w.workers[c].Idle? { FailKeepsRecord(w, c); } else { NoFail(w, c); }
    case XAdd(body) => StreamKeeps(w, v);
    case Trim(low) => StreamKeeps(w, v);
    case AutoClaim(_, _, _) => StreamKeeps(w, v);
  }

  lemma NoAck(w: World, c: Consumer)
    requires !(c in w.workers && w.workers[c].Acking?)
    ensures Acknowledged(w, c) == w
  { }

  lemma NoFail(w: World, c: Consumer)
    requires !(c in w.workers && !w.workers[c].Idle?)
    ensures Failed(w, c) == w
  { }

  // ----- who holds what

  lemma WroteIsHeld(w: World, s: Worker, e: Entry)
    requires WorkerOk(w, s) && e in Wrote(s)
    ensures e in Held(s)
  {
    if s.Writing? {
      assert e in EntriesOf(s.rows);
      assert e in Carried(s.batch);
    }
  }

  lemma HoldingWroteNothing(s: Worker)
    requires s.Holding?
    ensures Wrote(s) == {}
  { }

  lemma AckingWrote(s: Worker)
    requires s.Acking?
    ensures Wrote(s) == Carried(s.batch)
  { }

  lemma IdleWroteNothing()
    ensures Wrote(Idle) == {} && Held(Idle) == {}
  { }

  lemma HeldAfterDelivery(w: World, ids: seq<Entry>, d: nat)
    ensures Held(Holding(d, FetchAll(w, ids))) == Elements(ids)
  {
    forall e | e in Elements(ids) ensures e in Held(Holding(d, FetchAll(w, ids))) {
      var i :| 0 <= i < |ids| && ids[i] == e;
      assert FetchAll(w, ids)[i] == Fetch(w, e);
    }
  }

  lemma NewBatchOwned(w: World, c: Consumer, count: nat)
    requires Fates(w) && Owned(w) && c in w.workers
    ensures Owned(NewBatch(w, c, count))
  {
    hide Held, Increasing, FetchAll, Range;
    var v := NewBatch(w, c, count);
    if v != w {
      var from := First(w);
      RangeElements(from, from + count);
      HeldAfterDelivery(w.(next := v.next, pending := v.pending), Range(from, from + count), |w.deliveries|);
    }
  }

  lemma OwnBatchOwned(w: World, c: Consumer, ids: seq<Entry>)
    requires Owned(w) && c in w.workers
    ensures Owned(OwnBatch(w, c, ids))
  {
    hide Held, Increasing, FetchAll;
    HeldAfterDelivery(w, ids, |w.deliveries|);
  }

  lemma ClaimOwned(w: World, c: Consumer, taken: set<Entry>, purge: set<Entry>)
    requires Owned(w) && c in w.workers
    ensures Owned(Claimed(w, c, taken, purge))
  {
    hide Held;
    IdleWroteNothing();
  }

  /** A late entry was held without being pending, so it had been contested. */
  lemma AckOwned(w: World, c: Consumer)
    requires WorkersOk(w) && Owned(w) && c in w.workers && w.workers[c].Acking?
    ensures Owned(Acknowledged(w, c))
  {
    hide Wrote, Held, WorkerOk;
    IdleWroteNothing();
    forall e | e in Wrote(w.workers[c]) ensures e in Held(w.workers[c]) { WroteIsHeld(w, w.workers[c], e); }
  }

  lemma WritesOwned(w: World, s: Step)
    requires Owned(w) && Writes(s)
    ensures Owned(Apply(w, s))
  {
    hide Wrote, ToRows, SeenIn, Poisoned;
  }

  lemma OwnedKept(w: World, s: Step)
    requires Fates(w) && WorkersOk(w) && Owned(w)
    ensures Owned(Apply(w, s))
  {
    hide Fates, WorkersOk, Wrote, OwnBatch, NewBatch, Claimed, Begun, Persisted, RowCommitted, RosterCommitted,
        Acknowledged;
    match s
    case ReadOwn(c, ids) => if c in w.workers { OwnBatchOwned(w, c, ids); }
    case ReadNew(c, count) => if c in w.workers { NewBatchOwned(w, c, count); }
    case AutoClaim(c, taken, purge) => if c in w.workers { ClaimOwned(w, c, taken, purge); }
    case XAck(c) => if c in w.workers && w.workers[c].Acking? { AckOwned(w, c); } else { NoAck(w, c); }
    case Join(_) =>
    case Fail(_) =>
    case XAdd(_) =>
    case Trim(_) =>
    case _ => WritesOwned(w, s);
  }

  // ----- every run

  lemma StepKeeps(w: World, s: Step)
    requires Inv(w)
    ensures Inv(Apply(w, s))
  {
    hide Fates, DeliveriesOk, WorkersOk, RowsOk, Backed, MarksOk, AckedOk, Traced, Owned, Apply;
    FatesKept(w, s);
    DeliveriesKept(w, s);
    WorkersKept(w, s);
    RowsKept(w, s);
    RecordKept(w, s);
    OwnedKept(w, s);
  }

  lemma {:induction false} RunKeeps(w: World, steps: seq<Step>)
    requires Inv(w)
    ensures Inv(Run(w, steps))
    decreases |steps|
  {
    hide Inv, Apply;
    if steps != [] {
      StepKeeps(w, steps[0]);
      RunKeeps(Apply(w, steps[0]), steps[1..]);
    }
  }

  lemma Reachable(steps: seq<Step>)
    ensures Inv(Run(Init(), steps))
  {
    hide Run;
    assert Inv(Init());
    RunKeeps(Init(), steps);
  }
}
