/**
The dashboard's event log: a bounded, newest-first, duplicate-free buffer into which socket flushes and the
REST backfill are merged (frontend/robot-fleet-dashboard/src/hooks/useFleetData.js).

`parse` stands for `new Date(text).getTime()`; None is NaN.
*/
module EventBuffer {
  import opened Prelude

  /** Events the log keeps. */
  const EVENT_BUFFER_LIMIT: nat := 200

  /** Fields as they are rendered into the key; an absent message or action is "". */
  datatype Event = Event(robot: string, timestamp: string, message: string, action: string)

  type Parse = string -> Option<int>

  function Text(e: Event): string {
    if e.message != "" then e.message else e.action
  }

  function Key(e: Event): string {
    e.robot + "|" + e.timestamp + "|" + Text(e)
  }

  /** Milliseconds, 0 if there is no valid timestamp. */
  function At(e: Event, parse: Parse): int {
    match parse(e.timestamp)
    case Some(ms) => ms
    case None => 0
  }

  /** Robot ids are numbers and timestamps ISO dates: neither contains the separator. */
  predicate Plain(e: Event) {
    '|' !in e.robot && '|' !in e.timestamp
  }

  ghost predicate AllPlain(events: seq<Event>) {
    forall i :: 0 <= i < |events| ==> Plain(events[i])
  }

  // ----- the three stages

  function KeySet(events: seq<Event>): set<string> {
    set e | e in events :: Key(e)
  }

  /** The first event of each key, in order. */
  function Deduped(events: seq<Event>): seq<Event> {
    if events == [] then []
    else
      var n := |events| - 1;
      var rest := Deduped(events[..n]);
      if Key(events[n]) in KeySet(events[..n]) then rest else rest + [events[n]]
  }

  /** How many leading events of a descending sequence are at least as new as `e`. */
  function Rank(sorted: seq<Event>, e: Event, parse: Parse): (p: nat)
    ensures p <= |sorted|
  {
    if sorted == [] || At(sorted[0], parse) < At(e, parse) then 0 else 1 + Rank(sorted[1..], e, parse)
  }

  /** The stable descending sort: equal times keep their order. */
  function SortedDesc(events: seq<Event>, parse: Parse): seq<Event> {
    if events == [] then []
    else
      var n := |events| - 1;
      var rest := SortedDesc(events[..n], parse);
      var p := Rank(rest, events[n], parse);
      rest[..p] + [events[n]] + rest[p..]
  }

  function Cut(events: seq<Event>): seq<Event> {
    if |events| <= EVENT_BUFFER_LIMIT then events else events[..EVENT_BUFFER_LIMIT]
  }

  /** `dedupeEvents`. */
  function Digest(events: seq<Event>, parse: Parse): seq<Event> {
    Cut(SortedDesc(Deduped(events), parse))
  }

  // ----- what a buffer should be

  ghost predicate DistinctKeys(s: seq<Event>) {
    forall i, j :: 0 <= i < j < |s| ==> Key(s[i]) != Key(s[j])
  }

  ghost predicate NewestFirst(s: seq<Event>, parse: Parse) {
    forall i, j :: 0 <= i < j < |s| ==> At(s[i], parse) >= At(s[j], parse)
  }

  /** Nothing the buffer leaves out is newer than anything it holds, and it leaves nothing out unless full. */
  ghost predicate Represents(buffer: seq<Event>, e: Event, parse: Parse) {
    || Key(e) in KeySet(buffer)
    || (|buffer| == EVENT_BUFFER_LIMIT && forall b :: b in buffer ==> At(b, parse) >= At(e, parse))
  }

  /** The newest (at most 200) of the distinct events in `log`. */
  ghost predicate TopOf(buffer: seq<Event>, log: seq<Event>, parse: Parse) {
    && |buffer| <= EVENT_BUFFER_LIMIT && DistinctKeys(buffer) && NewestFirst(buffer, parse)
    && (forall e :: e in buffer ==> e in log)
    && (forall e :: e in log ==> Represents(buffer, e, parse))
  }

  // ----- keys

  lemma SplitUnique(p: string, x: string, q: string, y: string)
    requires '|' !in p && '|' !in q && p + "|" + x == q + "|" + y
    ensures p == q && x == y
  {
    var s := p + "|" + x;
    assert s[|p|] == '|' && s[|q|] == '|';
    forall i | 0 <= i < |p| ensures s[i] != '|' { assert s[i] == p[i]; }
    forall i | 0 <= i < |q| ensures s[i] != '|' { assert s[i] == q[i]; }
    assert s[..|p|] == p && s[..|q|] == q;
    assert s[|p| + 1..] == x && s[|q| + 1..] == y;
  }

  /** The key identifies robot, instant and text, and so the event's place in the order. */
  lemma KeyDetermines(a: Event, b: Event, parse: Parse)
    requires Plain(a) && Plain(b) && Key(a) == Key(b)
    ensures a.robot == b.robot && a.timestamp == b.timestamp && Text(a) == Text(b) && At(a, parse) == At(b, parse)
    ensures (if a.message == "" then a.action else a.message) == (if b.message == "" then b.action else b.message)
  {
    assert Key(a) == a.robot + "|" + (a.timestamp + "|" + Text(a));
    assert Key(b) == b.robot + "|" + (b.timestamp + "|" + Text(b));
    SplitUnique(a.robot, a.timestamp + "|" + Text(a), b.robot, b.timestamp + "|" + Text(b));
    SplitUnique(a.timestamp, Text(a), b.timestamp, Text(b));
  }

  /** With the separator inside a field, different events can share a key. */
  lemma SeparatorCollides()
    ensures exists a, b :: Key(a) == Key(b) && a.robot != b.robot && a.timestamp != b.timestamp
  {
    var a, b := Event("1|2", "3", "m", ""), Event("1", "2|3", "m", "");
    assert Key(a) == Key(b);
  }

  lemma {:induction false} DedupedOk(events: seq<Event>)
    ensures DistinctKeys(Deduped(events)) && KeySet(Deduped(events)) == KeySet(events)
    ensures forall e :: e in Deduped(events) ==> e in events
  {
    hide Key;
    if events != [] {
      var n := |events| - 1;
      DedupedOk(events[..n]);
      assert events == events[..n] + [events[n]];
      assert KeySet(events) == KeySet(events[..n]) + {Key(events[n])};
      var rest := Deduped(events[..n]);
      forall i | 0 <= i < |rest| ensures Key(rest[i]) in KeySet(events[..n]) { assert rest[i] in rest; }
      assert KeySet(rest + [events[n]]) == KeySet(rest) + {Key(events[n])};
    }
  }

  // ----- the sort

  lemma {:induction false} RankSplits(sorted: seq<Event>, e: Event, parse: Parse)
    requires NewestFirst(sorted, parse)
    ensures var p := Rank(sorted, e, parse);
            && (forall i :: 0 <= i < p ==> At(sorted[i], parse) >= At(e, parse))
            && (forall i :: p <= i < |sorted| ==> At(sorted[i], parse) < At(e, parse))
  {
    hide At;
    if sorted != [] && At(sorted[0], parse) >= At(e, parse) {
      assert forall i :: 0 <= i < |sorted| - 1 ==> sorted[1..][i] == sorted[i + 1];
      RankSplits(sorted[1..], e, parse);
      var p := Rank(sorted[1..], e, parse);
      forall i | 0 <= i < |sorted|
        ensures i < p + 1 ==> At(sorted[i], parse) >= At(e, parse)
        ensures p + 1 <= i ==> At(sorted[i], parse) < At(e, parse)
      { if i > 0 { assert sorted[1..][i - 1] == sorted[i]; } }
    }
  }

  /** An event without a valid date never stands before one dated after 1970. */
  lemma UndatedLast(events: seq<Event>, parse: Parse, i: nat, j: nat)
    requires i < j < |Digest(events, parse)|
    requires var s := Digest(events, parse); parse(s[i].timestamp).None? && parse(s[j].timestamp).Some?
    ensures parse(Digest(events, parse)[j].timestamp).value <= 0
  {
    hide Deduped, SortedDesc;
    SortSorts(Deduped(events), parse);
    var sorted := SortedDesc(Deduped(events), parse);
    assert Digest(events, parse)[i] == sorted[i] && Digest(events, parse)[j] == sorted[j];
    assert At(sorted[i], parse) >= At(sorted[j], parse);
  }

  /** Sorting reorders and nothing else. */
  lemma {:induction false} SortPermutes(events: seq<Event>, parse: Parse)
    ensures multiset(SortedDesc(events, parse)) == multiset(events)
  {
    hide At, Key, Rank;
    if events != [] {
      var n := |events| - 1;
      SortPermutes(events[..n], parse);
      var rest := SortedDesc(events[..n], parse);
      InsertPermutes(rest, events[n], Rank(rest, events[n], parse));
      assert events == events[..n] + [events[n]];
    }
  }

  lemma {:induction false} SortSorts(events: seq<Event>, parse: Parse)
    ensures NewestFirst(SortedDesc(events, parse), parse)
  {
    hide At, Key, Rank, NewestFirst;
    if events == [] { EmptyTop(parse); }
    else {
      var n := |events| - 1;
      SortSorts(events[..n], parse);
      var rest := SortedDesc(events[..n], parse);
      RankSplits(rest, events[n], parse);
      InsertNewestFirst(rest, events[n], Rank(rest, events[n], parse), parse);
    }
  }

  lemma {:induction false} SortDistinct(events: seq<Event>, parse: Parse)
    requires DistinctKeys(events)
    ensures DistinctKeys(SortedDesc(events, parse))
  {
    hide At, Key, Rank, DistinctKeys;
    if events == [] { EmptyTop(parse); }
    else {
      var n := |events| - 1;
      InitDistinct(events);
      SortDistinct(events[..n], parse);
      var rest := SortedDesc(events[..n], parse);
      SortPermutes(events[..n], parse);
      SameElements(rest, events[..n]);
      InsertDistinct(rest, events[n], Rank(rest, events[n], parse));
    }
  }

  lemma InitDistinct(s: seq<Event>)
    requires s != [] && DistinctKeys(s)
    ensures DistinctKeys(s[..|s| - 1]) && forall x :: x in s[..|s| - 1] ==> Key(x) != Key(s[|s| - 1])
  {
    hide Key;
  }

  lemma InsertNewestFirst(rest: seq<Event>, e: Event, p: nat, parse: Parse)
    requires p <= |rest| && NewestFirst(rest, parse)
    requires forall i :: 0 <= i < p ==> At(rest[i], parse) >= At(e, parse)
    requires forall i :: p <= i < |rest| ==> At(rest[i], parse) < At(e, parse)
    ensures NewestFirst(rest[..p] + [e] + rest[p..], parse)
  {
    hide At;
  }

  lemma InsertPermutes(rest: seq<Event>, e: Event, p: nat)
    requires p <= |rest|
    ensures multiset(rest[..p] + [e] + rest[p..]) == multiset(rest) + multiset{e}
  {
    assert rest == rest[..p] + rest[p..];
  }

  lemma InsertDistinct(rest: seq<Event>, e: Event, p: nat)
    requires p <= |rest| && DistinctKeys(rest) && forall x :: x in rest ==> Key(x) != Key(e)
    ensures DistinctKeys(rest[..p] + [e] + rest[p..])
  {
    hide Key;
  }

  // ----- counting keys

  lemma {:induction false} KeysCount(s: seq<Event>)
    ensures |KeySet(s)| <= |s|
    ensures DistinctKeys(s) ==> |KeySet(s)| == |s|
  {
    hide Key;
    if s != [] {
      var n := |s| - 1;
      KeysCount(s[..n]);
      assert s == s[..n] + [s[n]];
      assert KeySet(s) == KeySet(s[..n]) + {Key(s[n])};
      if DistinctKeys(s) {
        forall e | e in s[..n] ensures Key(e) != Key(s[n]) { var k :| 0 <= k < n && s[k] == e; }
      }
    }
  }

  lemma InKeySet(s: seq<Event>, i: nat)
    requires i < |s|
    ensures Key(s[i]) in KeySet(s)
  {
    assert s[i] in s;
  }

  /** If every event of a full buffer is in a sorted list, no more than the first 200 can be that new. */
  lemma FullPushesDown(full: seq<Event>, sorted: seq<Event>, bound: int, j: nat, parse: Parse)
    requires |full| == EVENT_BUFFER_LIMIT && DistinctKeys(full) && AllPlain(full) && AllPlain(sorted)
    requires KeySet(full) <= KeySet(sorted) && NewestFirst(sorted, parse)
    requires forall b :: b in full ==> At(b, parse) >= bound
    requires j < |sorted| && j < EVENT_BUFFER_LIMIT
    ensures At(sorted[j], parse) >= bound
  {
    hide At, Key;
    if At(sorted[j], parse) < bound {
      forall key | key in KeySet(full) ensures key in KeySet(sorted[..j]) {
        var b :| b in full && Key(b) == key;
        var s :| s in sorted && Key(s) == key;
        var i :| 0 <= i < |sorted| && sorted[i] == s;
        KeyDetermines(b, s, parse);
        assert i < j;
        assert sorted[..j][i] == s;
        InKeySet(sorted[..j], i);
      }
      SubsetSize(KeySet(full), KeySet(sorted[..j]));
      KeysCount(full);
      KeysCount(sorted[..j]);
      assert false;
    }
  }

  // ----- merging keeps the top

  lemma CutOk(sorted: seq<Event>, e: Event, parse: Parse)
    requires NewestFirst(sorted, parse) && AllPlain(sorted) && Plain(e) && Key(e) in KeySet(sorted)
    ensures Represents(Cut(sorted), e, parse)
  {
    hide At, Key;
    var s :| s in sorted && Key(s) == Key(e);
    var i :| 0 <= i < |sorted| && sorted[i] == s;
    KeyDetermines(s, e, parse);
    if i < EVENT_BUFFER_LIMIT { assert Cut(sorted)[i] == s; InKeySet(Cut(sorted), i); }
  }

  lemma KeepsRepresented(buffer: seq<Event>, sorted: seq<Event>, e: Event, parse: Parse)
    requires NewestFirst(sorted, parse) && AllPlain(sorted) && Plain(e)
    requires DistinctKeys(buffer) && AllPlain(buffer) && KeySet(buffer) <= KeySet(sorted)
    requires Represents(buffer, e, parse)
    ensures Represents(Cut(sorted), e, parse)
  {
    hide At, Key, NewestFirst, DistinctKeys;
    if Key(e) in KeySet(buffer) { CutOk(sorted, e, parse); }
    else {
      KeysCount(buffer);
      SubsetSize(KeySet(buffer), KeySet(sorted));
      KeysCount(sorted);
      forall b | b in Cut(sorted) ensures At(b, parse) >= At(e, parse) {
        var j :| 0 <= j < |Cut(sorted)| && Cut(sorted)[j] == b;
        FullPushesDown(buffer, sorted, At(e, parse), j, parse);
      }
    }
  }

  lemma SameElements(a: seq<Event>, b: seq<Event>)
    requires multiset(a) == multiset(b)
    ensures forall e :: e in a <==> e in b
    ensures KeySet(a) == KeySet(b)
  {
    hide Key;
    forall e ensures e in a <==> e in b { assert e in a <==> e in multiset(a); assert e in b <==> e in multiset(b); }
  }

  /** The shape of a digest, whatever it is made of. */
  lemma DigestShape(events: seq<Event>, parse: Parse)
    ensures var sorted := SortedDesc(Deduped(events), parse);
            && NewestFirst(sorted, parse) && DistinctKeys(sorted) && KeySet(sorted) == KeySet(events)
            && (forall e :: e in sorted ==> e in events)
  {
    hide NewestFirst, DistinctKeys, KeySet, Deduped, SortedDesc;
    DedupedOk(events);
    SortSorts(Deduped(events), parse);
    SortDistinct(Deduped(events), parse);
    SortPermutes(Deduped(events), parse);
    SameElements(SortedDesc(Deduped(events), parse), Deduped(events));
  }

  lemma PlainParts(events: seq<Event>, part: seq<Event>)
    requires AllPlain(events) && forall e :: e in part ==> e in events
    ensures AllPlain(part)
  {
    forall i | 0 <= i < |part| ensures Plain(part[i]) { assert part[i] in part; }
  }

  /** Merging new events into a buffer that tops a log gives the buffer that tops the longer log. */
  lemma MergeKeepsTop(buffer: seq<Event>, log: seq<Event>, more: seq<Event>, input: seq<Event>, parse: Parse)
    requires TopOf(buffer, log, parse) && AllPlain(log) && AllPlain(more)
    requires input == more + buffer || input == buffer + more
    ensures TopOf(Digest(input, parse), log + more, parse)
  {
    hide At, Key, Deduped, SortedDesc, NewestFirst, DistinctKeys, KeySet, Plain, Represents;
    var sorted := SortedDesc(Deduped(input), parse);
    DigestShape(input, parse);
    PlainParts(log, buffer);
    PlainParts(input, sorted);
    CutShape(sorted, parse);
    SubKeys(buffer, input);
    SubKeys(more, input);
    forall e | e in log + more ensures Represents(Cut(sorted), e, parse) {
      if e in more {
        var i :| 0 <= i < |more| && more[i] == e;
        InKeySet(more, i);
        CutOk(sorted, e, parse);
      } else {
        var i :| 0 <= i < |log| && log[i] == e;
        KeepsRepresented(buffer, sorted, e, parse);
      }
    }
  }

  lemma CutShape(sorted: seq<Event>, parse: Parse)
    requires NewestFirst(sorted, parse) && DistinctKeys(sorted)
    ensures NewestFirst(Cut(sorted), parse) && DistinctKeys(Cut(sorted)) && |Cut(sorted)| <= EVENT_BUFFER_LIMIT
    ensures forall e :: e in Cut(sorted) ==> e in sorted
  {
    hide At, Key;
  }

  lemma SubKeys(part: seq<Event>, whole: seq<Event>)
    requires forall e :: e in part ==> e in whole
    ensures KeySet(part) <= KeySet(whole)
  {
    hide Key;
  }

  // ----- any sequence of merges

  datatype Merge =
    | Flush(batch: seq<Event>)        // socket events, newest received first, in front of the buffer
    | Backfill(history: seq<Event>)   // REST history behind it

  function Events(m: Merge): seq<Event> {
    if m.Flush? then m.batch else m.history
  }

  function Merged(buffer: seq<Event>, m: Merge, parse: Parse): seq<Event> {
    match m
    case Flush(batch) => if batch == [] then buffer else Digest(batch + buffer, parse)
    case Backfill(history) => Digest(buffer + history, parse)
  }

  function Buffer(merges: seq<Merge>, parse: Parse): seq<Event> {
    if merges == [] then [] else Merged(Buffer(merges[..|merges| - 1], parse), merges[|merges| - 1], parse)
  }

  function Received(merges: seq<Merge>): seq<Event> {
    if merges == [] then [] else Received(merges[..|merges| - 1]) + Events(merges[|merges| - 1])
  }

  /** After any flushes and backfills the buffer is the top of everything ever received. */
  lemma {:induction false} BufferIsTop(merges: seq<Merge>, parse: Parse)
    requires AllPlain(Received(merges))
    ensures TopOf(Buffer(merges, parse), Received(merges), parse)
  {
    hide TopOf, Digest, Plain;
    if merges == [] { EmptyTop(parse); }
    else {
      var n := |merges| - 1;
      var before, log, m := Buffer(merges[..n], parse), Received(merges[..n]), merges[n];
      PlainParts(Received(merges), log);
      PlainParts(Received(merges), Events(m));
      BufferIsTop(merges[..n], parse);
      if m.Flush? && m.batch == [] { assert log + Events(m) == log; }
      else { MergeKeepsTop(before, log, Events(m), if m.Flush? then m.batch + before else before + m.history, parse); }
    }
  }

  lemma EmptyTop(parse: Parse)
    ensures TopOf([], [], parse)
  { }

  function Ats(s: seq<Event>, parse: Parse): seq<int> {
    seq(|s|, i requires 0 <= i < |s| => At(s[i], parse))
  }

  lemma TopLength(a: seq<Event>, b: seq<Event>, log: seq<Event>, parse: Parse)
    requires TopOf(a, log, parse) && TopOf(b, log, parse)
    ensures |a| <= |b|
  {
    hide At, Key, NewestFirst;
    if |b| < EVENT_BUFFER_LIMIT {
      forall key | key in KeySet(a) ensures key in KeySet(b) {
        var e :| e in a && Key(e) == key;
        assert Represents(b, e, parse);
      }
      SubsetSize(KeySet(a), KeySet(b));
      KeysCount(a);
      KeysCount(b);
    }
  }

  lemma PrefixDistinct(s: seq<Event>, n: nat)
    requires n <= |s| && DistinctKeys(s)
    ensures DistinctKeys(s[..n])
  {
    hide Key;
  }

  /** A received event newer than the i-th entry is among the entries before it. */
  lemma TopEarlier(b: seq<Event>, log: seq<Event>, parse: Parse, i: nat, e: Event)
    requires TopOf(b, log, parse) && AllPlain(log) && e in log && i < |b| && At(e, parse) > At(b[i], parse)
    ensures Key(e) in KeySet(b[..i])
  {
    hide At, Key, Plain;
    PlainParts(log, b);
    assert Represents(b, e, parse) && b[i] in b;
    var s :| s in b && Key(s) == Key(e);
    var l :| 0 <= l < |b| && b[l] == s;
    KeyDetermines(s, e, parse);
    assert l < i;
    assert b[..i][l] == s;
    InKeySet(b[..i], l);
  }

  /** If `a` had a newer i-th event, the first i + 1 events of `a` would have to be among the first i of `b`. */
  lemma TopEntry(a: seq<Event>, b: seq<Event>, log: seq<Event>, parse: Parse, i: nat)
    requires TopOf(a, log, parse) && TopOf(b, log, parse) && AllPlain(log) && i < |a| && i < |b|
    ensures At(a[i], parse) <= At(b[i], parse)
  {
    hide At, Key, AllPlain, Represents, DistinctKeys;
    if At(a[i], parse) > At(b[i], parse) {
      forall key | key in KeySet(a[..i + 1]) ensures key in KeySet(b[..i]) {
        var e :| e in a[..i + 1] && Key(e) == key;
        var k :| 0 <= k < i + 1 && a[k] == e;
        TopEarlier(b, log, parse, i, a[k]);
      }
      PrefixDistinct(a, i + 1);
      SubsetSize(KeySet(a[..i + 1]), KeySet(b[..i]));
      KeysCount(a[..i + 1]);
      KeysCount(b[..i]);
      assert false;
    }
  }

  /** The buffer's times are determined by what was received. */
  lemma TopUnique(a: seq<Event>, b: seq<Event>, log: seq<Event>, parse: Parse)
    requires TopOf(a, log, parse) && TopOf(b, log, parse) && AllPlain(log)
    ensures Ats(a, parse) == Ats(b, parse)
  {
    hide TopOf, At, AllPlain;
    TopLength(a, b, log, parse);
    TopLength(b, a, log, parse);
    forall i | 0 <= i < |a| ensures At(a[i], parse) == At(b[i], parse) {
      TopEntry(a, b, log, parse, i);
      TopEntry(b, a, log, parse, i);
    }
  }

  /** Truncating at every merge shows the same times as truncating once, at the end. */
  lemma TruncationLosesNothing(merges: seq<Merge>, parse: Parse)
    requires AllPlain(Received(merges))
    ensures Ats(Buffer(merges, parse), parse) == Ats(Digest(Received(merges), parse), parse)
  {
    hide TopOf, Digest, Ats, AllPlain, Buffer, Received;
    BufferIsTop(merges, parse);
    EmptyTop(parse);
    NonePlain();
    var log := Received(merges);
    assert [] + log == log;
    MergeKeepsTop([], [], log, log, parse);
    TopUnique(Buffer(merges, parse), Digest(log, parse), log, parse);
  }

  lemma NonePlain()
    ensures AllPlain([])
  { }

  // ----- the hook's state

  /** A socket message: an event, or something else (command statuses, telemetry). */
  datatype Message = EventMessage(event: Event) | OtherMessage

  /** `dedupeEvents`, as written: one pass with a set of keys, an in-place sort, a slice. */
  method DedupeEvents(events: seq<Event>, parse: Parse) returns (r: seq<Event>)
    ensures r == Digest(events, parse)
  {
    hide Key, SortedDesc;
    var seen: set<string> := {};
    var merged: seq<Event> := [];
    for i := 0 to |events|
      invariant seen == KeySet(events[..i]) && merged == Deduped(events[..i])
    {
      assert events[..i + 1] == events[..i] + [events[i]];
      assert KeySet(events[..i + 1]) == KeySet(events[..i]) + {Key(events[i])};
      assert events[..i + 1][..i] == events[..i];
      var key := Key(events[i]);
      if key !in seen {
        seen := seen + {key};
        merged := merged + [events[i]];
      }
    }
    assert events[..|events|] == events;
    merged := SortedDesc(merged, parse);
    r := if |merged| <= EVENT_BUFFER_LIMIT then merged else merged[..EVENT_BUFFER_LIMIT];
  }

  class EventFeed {
    const parse: Parse
    var events: seq<Event>
    var pending: seq<Event>
    ghost var merges: seq<Merge>

    ghost predicate Valid()
      reads this
    {
      events == Buffer(merges, parse)
    }

    constructor (parse: Parse)
      ensures Valid() && merges == [] && pending == [] && this.parse == parse
    {
      this.parse := parse;
      events, pending, merges := [], [], [];
    }

    /** Only events with a text are kept, newest received first. */
    method HandleMessage(m: Message)
      requires Valid()
      modifies this`pending
      ensures Valid()
      ensures pending == if m.EventMessage? && m.event.message != "" then [m.event] + old(pending) else old(pending)
    {
      if m.EventMessage? && m.event.message != "" { pending := [m.event] + pending; }
    }

    /** The throttled flush. */
    method FlushPending()
      requires Valid()
      modifies this
      ensures Valid() && pending == [] && merges == old(merges) + [Flush(old(pending))]
    {
      var updates := pending;
      pending := [];
      if updates != [] { events := DedupeEvents(updates + events, parse); }
      merges := merges + [Flush(updates)];
      assert merges[..|merges| - 1] == old(merges);
    }

    method BackfillEvents(history: seq<Event>)
      requires Valid()
      modifies this`events, this`merges
      ensures Valid() && merges == old(merges) + [Backfill(history)]
    {
      events := DedupeEvents(events + history, parse);
      merges := merges + [Backfill(history)];
      assert merges[..|merges| - 1] == old(merges);
    }
  }
}
