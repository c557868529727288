/**
The sliding-window rate limiter, in memory and on a Redis sorted set (backend/app/middleware.py).
Every request is recorded, admitted or not. `member` is the unique name the Redis version stores.
*/
module RateLimiter {
  import opened Prelude

  type Key = string
  type Time = real

  datatype Request = Request(key: Key, at: Time, member: string)

  /** The entries newer than the cutoff, in order. */
  function Fresh(ts: seq<Time>, cutoff: Time): seq<Time> {
    if ts == [] then []
    else
      var rest := Fresh(ts[..|ts| - 1], cutoff);
      if ts[|ts| - 1] > cutoff then rest + [ts[|ts| - 1]] else rest
  }

  /** Times of all requests with the key, in order. */
  function Times(reqs: seq<Request>, key: Key): seq<Time> {
    if reqs == [] then []
    else
      var rest := Times(reqs[..|reqs| - 1], key);
      if reqs[|reqs| - 1].key == key then rest + [reqs[|reqs| - 1].at] else rest
  }

  ghost predicate Sorted(ts: seq<Time>) {
    forall i, j :: 0 <= i < j < |ts| ==> ts[i] <= ts[j]
  }

  /** Per key, request times never decrease. */
  ghost predicate Monotone(reqs: seq<Request>) {
    forall key :: Sorted(Times(reqs, key))
  }

  /** The reference: a count over the whole history of the key. */
  ghost predicate Admits(reqs: seq<Request>, key: Key, now: Time, window: Time, max: int) {
    |Fresh(Times(reqs, key), now - window)| < max
  }

  // ----- in memory

  type Windows = map<Key, seq<Time>>

  function Lookup(ws: Windows, key: Key): seq<Time> {
    if key in ws then ws[key] else []
  }

  /** `_check_rate_limit_memory`: prune, then record. */
  function Recorded(ws: Windows, key: Key, now: Time, window: Time): Windows {
    ws[key := Fresh(Lookup(ws, key), now - window) + [now]]
  }

  ghost function WindowsAfter(reqs: seq<Request>, window: Time): Windows {
    if reqs == [] then map[]
    else
      var r := reqs[|reqs| - 1];
      Recorded(WindowsAfter(reqs[..|reqs| - 1], window), r.key, r.at, window)
  }

  // ----- filtering

  lemma {:induction false} FreshConcat(a: seq<Time>, b: seq<Time>, cutoff: Time)
    ensures Fresh(a + b, cutoff) == Fresh(a, cutoff) + Fresh(b, cutoff)
  {
    if b == [] { assert a + b == a; }
    else {
      FreshConcat(a, b[..|b| - 1], cutoff);
      assert (a + b)[..|a + b| - 1] == a + b[..|b| - 1];
    }
  }

  /** Pruning with an older cutoff first changes nothing. */
  lemma {:induction false} FreshTwice(ts: seq<Time>, older: Time, cutoff: Time)
    requires older <= cutoff
    ensures Fresh(Fresh(ts, older), cutoff) == Fresh(ts, cutoff)
  {
    if ts != [] {
      var init, t := ts[..|ts| - 1], ts[|ts| - 1];
      FreshTwice(init, older, cutoff);
      if t > older { FreshConcat(Fresh(init, older), [t], cutoff); }
    }
  }

  lemma SortedPrefix(reqs: seq<Request>, n: nat)
    requires n <= |reqs| && Monotone(reqs)
    ensures Monotone(reqs[..n])
  {
    forall key ensures Sorted(Times(reqs[..n], key)) { TimesPrefix(reqs, n, key); }
  }

  lemma {:induction false} TimesPrefix(reqs: seq<Request>, n: nat, key: Key)
    requires n <= |reqs|
    ensures Times(reqs[..n], key) <= Times(reqs, key)
  {
    if n < |reqs| {
      TimesPrefix(reqs[..|reqs| - 1], n, key);
      assert reqs[..|reqs| - 1][..n] == reqs[..n];
    } else { assert reqs[..n] == reqs; }
  }

  /** Pruning at a request and again later is pruning the full history later. */
  lemma PruneStep(kept: seq<Time>, ts: seq<Time>, at: Time, now: Time, window: Time)
    requires at <= now && Fresh(kept, at - window) == Fresh(ts, at - window)
    ensures Fresh(Fresh(kept, at - window) + [at], now - window) == Fresh(ts + [at], now - window)
  {
    FreshTwice(ts, at - window, now - window);
    FreshConcat(Fresh(ts, at - window), [at], now - window);
    FreshConcat(ts, [at], now - window);
  }

  lemma SortedLast(ts: seq<Time>, at: Time, now: Time)
    requires Sorted(ts + [at] + [now])
    ensures Sorted(ts + [at]) && Sorted(ts + [now]) && at <= now
  {
    var all := ts + [at] + [now];
    forall i | 0 <= i < |ts| ensures ts[i] <= at && ts[i] <= now {
      assert all[i] <= all[|ts|] && all[i] <= all[|ts| + 1];
    }
    forall i, j | 0 <= i < j < |ts| ensures ts[i] <= ts[j] { assert all[i] <= all[j]; }
    assert all[|ts|] <= all[|ts| + 1];
  }

  /** A pruned window, pruned again at any later time, is the full history pruned at that time. */
  lemma {:induction false} WindowExact(reqs: seq<Request>, window: Time, key: Key, now: Time)
    requires Sorted(Times(reqs, key) + [now])
    ensures Fresh(Lookup(WindowsAfter(reqs, window), key), now - window) == Fresh(Times(reqs, key), now - window)
  {
    hide Fresh, Sorted;
    if reqs == [] { assert Lookup(map[], key) == []; }
    else {
      var n := |reqs| - 1;
      var init, r := reqs[..n], reqs[n];
      if r.key == key {
        SortedLast(Times(init, key), r.at, now);
        WindowExact(init, window, key, r.at);
        PruneStep(Lookup(WindowsAfter(init, window), key), Times(init, key), r.at, now, window);
      } else {
        WindowExact(init, window, key, now);
      }
    }
  }

  /** The pruned window decides exactly as a count over the key's whole history. */
  lemma MemoryDecides(reqs: seq<Request>, window: Time, key: Key, now: Time, max: int)
    requires Sorted(Times(reqs, key) + [now])
    ensures |Fresh(Lookup(WindowsAfter(reqs, window), key), now - window)| < max <==>
        Admits(reqs, key, now, window, max)
  {
    WindowExact(reqs, window, key, now);
  }

  /** Requests under other keys change nothing. */
  lemma KeysIndependent(reqs: seq<Request>, reqs': seq<Request>, window: Time, key: Key, now: Time)
    requires Times(reqs, key) == Times(reqs', key) && Sorted(Times(reqs, key) + [now])
    ensures Fresh(Lookup(WindowsAfter(reqs, window), key), now - window)
            == Fresh(Lookup(WindowsAfter(reqs', window), key), now - window)
  {
    WindowExact(reqs, window, key, now);
    WindowExact(reqs', window, key, now);
  }

  // ----- at most `max` per window

  ghost function Newer(reqs: seq<Request>, key: Key, cutoff: Time): set<nat> {
    set i | 0 <= i < |reqs| && reqs[i].key == key && reqs[i].at > cutoff
  }

  lemma {:induction false} NewerCount(reqs: seq<Request>, key: Key, cutoff: Time)
    ensures |Newer(reqs, key, cutoff)| == |Fresh(Times(reqs, key), cutoff)|
  {
    if reqs != [] {
      var n := |reqs| - 1;
      var init := reqs[..n];
      NewerCount(init, key, cutoff);
      var r := reqs[n];
      if r.key == key { FreshConcat(Times(init, key), [r.at], cutoff); }
      if r.key == key && r.at > cutoff { assert Newer(reqs, key, cutoff) == Newer(init, key, cutoff) + {n}; }
      else { assert Newer(reqs, key, cutoff) == Newer(init, key, cutoff); }
    }
  }

  /** Requests of the key the limiter admitted with a time in (from, from + window]. */
  ghost function AdmittedIn(reqs: seq<Request>, key: Key, from: Time, window: Time, max: int): set<nat> {
    set i | 0 <= i < |reqs| && reqs[i].key == key && from < reqs[i].at <= from + window &&
            Admits(reqs[..i], key, reqs[i].at, window, max)
  }

  lemma {:induction false} LargestOf(s: set<nat>) returns (m: nat)
    requires s != {}
    ensures m in s && forall i :: i in s ==> i <= m
    decreases |s|
  {
    var x :| x in s;
    var rest := s - {x};
    if rest == {} {
      assert s == {x};
      m := x;
    } else {
      var k := LargestOf(rest);
      assert s == rest + {x};
      m := if x < k then k else x;
    }
  }

  /** No half-open window of the configured length admits more than the budget. */
  lemma BudgetHolds(reqs: seq<Request>, key: Key, from: Time, window: Time, max: int)
    ensures |AdmittedIn(reqs, key, from, window, max)| <= if max > 0 then max else 0
  {
    var admitted := AdmittedIn(reqs, key, from, window, max);
    if admitted != {} {
      var last := LargestOf(admitted);
      var earlier := Newer(reqs[..last], key, reqs[last].at - window);
      assert admitted - {last} <= earlier;
      SubsetSize(admitted - {last}, earlier);
      NewerCount(reqs[..last], key, reqs[last].at - window);
    }
  }

  // ----- the Redis sorted set

  /** A sorted set with the moment its key expires. */
  datatype ZSet = ZSet(scores: map<string, Time>, deadline: Time)

  type Store = map<Key, ZSet>

  /** What Redis finds under the key: nothing once the deadline has passed. */
  function Live(store: Store, key: Key, now: Time): map<string, Time> {
    if key in store && now < store[key].deadline then store[key].scores else map[]
  }

  /** ZREMRANGEBYSCORE key 0 cutoff. */
  function Pruned(scores: map<string, Time>, cutoff: Time): map<string, Time> {
    map m | m in scores && !(0.0 <= scores[m] <= cutoff) :: scores[m]
  }

  /** ZCARD, before the insert. */
  function CountBefore(store: Store, key: Key, now: Time, window: Time): nat {
    |Pruned(Live(store, key, now), now - window)|
  }

  /** The pipeline's effect: prune, ZADD, EXPIRE (which deletes at once if the window is not positive). */
  function Piped(store: Store, r: Request, window: Time): Store {
    if window <= 0.0 then store - {r.key}
    else store[r.key := ZSet(Pruned(Live(store, r.key, r.at), r.at - window)[r.member := r.at], r.at + window)]
  }

  ghost function StoreAfter(reqs: seq<Request>, window: Time): Store {
    if reqs == [] then map[] else Piped(StoreAfter(reqs[..|reqs| - 1], window), reqs[|reqs| - 1], window)
  }

  /** Times are wall-clock seconds, and the uuid part makes every member new. */
  ghost predicate WellFormed(reqs: seq<Request>) {
    && (forall i :: 0 <= i < |reqs| ==> reqs[i].at >= 0.0)
    && (forall i, j :: 0 <= i < j < |reqs| ==> reqs[i].member != reqs[j].member)
  }

  ghost predicate Used(reqs: seq<Request>, member: string) {
    exists i :: 0 <= i < |reqs| && reqs[i].member == member
  }

  /** `scores` holds exactly the requests newer than a cutoff, for every cutoff from `bound` on. */
  ghost predicate Mirrors(scores: map<string, Time>, ts: seq<Time>, bound: Time) {
    forall cutoff :: cutoff >= bound ==> |Above(scores, cutoff)| == |Fresh(ts, cutoff)|
  }

  ghost function Above(scores: map<string, Time>, cutoff: Time): set<string> {
    set m | m in scores && scores[m] > cutoff
  }

  ghost predicate SaneScores(scores: map<string, Time>, reqs: seq<Request>, now: Time) {
    forall m :: m in scores ==> Used(reqs, m) && 0.0 <= scores[m] <= now
  }

  lemma {:induction false} FreshNone(ts: seq<Time>, cutoff: Time)
    requires forall i :: 0 <= i < |ts| ==> ts[i] <= cutoff
    ensures Fresh(ts, cutoff) == []
  {
    if ts != [] { FreshNone(ts[..|ts| - 1], cutoff); }
  }

  lemma AddMirrors(scores: map<string, Time>, ts: seq<Time>, member: string, now: Time, bound: Time, window: Time)
    requires Mirrors(scores, ts, bound) && member !in scores && now - window >= bound
    requires forall m :: m in scores ==> 0.0 <= scores[m]
    ensures Mirrors(Pruned(scores, now - window)[member := now], ts + [now], now - window)
  {
    hide Above, Pruned;
    var kept := Pruned(scores, now - window);
    assert member !in kept by { PrunedKeys(scores, now - window); }
    forall cutoff | cutoff >= now - window
      ensures |Above(kept[member := now], cutoff)| == |Fresh(ts + [now], cutoff)|
    {
      FreshConcat(ts, [now], cutoff);
      PruneAbove(scores, now - window, cutoff);
      AddAbove(kept, member, now, cutoff);
      assert |Above(scores, cutoff)| == |Fresh(ts, cutoff)|;
    }
  }

  lemma PrunedKeys(scores: map<string, Time>, cutoff: Time)
    ensures Pruned(scores, cutoff).Keys <= scores.Keys
  { }

  lemma PruneAbove(scores: map<string, Time>, older: Time, cutoff: Time)
    requires older <= cutoff && forall m :: m in scores ==> 0.0 <= scores[m]
    ensures Above(Pruned(scores, older), cutoff) == Above(scores, cutoff)
  { }

  lemma AddAbove(kept: map<string, Time>, member: string, now: Time, cutoff: Time)
    requires member !in kept
    ensures |Above(kept[member := now], cutoff)| == |Above(kept, cutoff)| + if now > cutoff then 1 else 0
  {
    if now > cutoff { assert Above(kept[member := now], cutoff) == Above(kept, cutoff) + {member}; }
    else { assert Above(kept[member := now], cutoff) == Above(kept, cutoff); }
  }

  /** The stored set mirrors the key's history as far back as the last prune, and its deadline is one window on. */
  ghost predicate StoreMirrors(reqs: seq<Request>, window: Time, key: Key) {
    var store := StoreAfter(reqs, window);
    var ts := Times(reqs, key);
    && (key in store <==> ts != [])
    && (key in store ==>
          && store[key].deadline == ts[|ts| - 1] + window
          && SaneScores(store[key].scores, reqs, ts[|ts| - 1])
          && Mirrors(store[key].scores, ts, ts[|ts| - 1] - window))
  }

  /** Once the key has expired, pruning would have emptied the set anyway. */
  lemma ExpiryChangesNothing(reqs: seq<Request>, window: Time, key: Key, now: Time)
    requires window > 0.0 && StoreMirrors(reqs, window, key) && Sorted(Times(reqs, key) + [now])
    ensures var live := Live(StoreAfter(reqs, window), key, now);
            Mirrors(live, Times(reqs, key), now - window) && SaneScores(live, reqs, now)
  {
    var store := StoreAfter(reqs, window);
    var ts := Times(reqs, key);
    var all := ts + [now];
    if ts != [] {
      assert all[|ts| - 1] <= all[|ts|];
      if now >= store[key].deadline {
        forall cutoff | cutoff >= now - window ensures |Above(map[], cutoff)| == |Fresh(ts, cutoff)| {
          forall i | 0 <= i < |ts| ensures ts[i] <= cutoff { assert all[i] == ts[i] && ts[i] <= ts[|ts| - 1]; }
          FreshNone(ts, cutoff);
        }
      }
    }
  }

  lemma AddSane(scores: map<string, Time>, reqs: seq<Request>, r: Request, cutoff: Time)
    requires SaneScores(scores, reqs, r.at) && r.at >= 0.0
    ensures SaneScores(Pruned(scores, cutoff)[r.member := r.at], reqs + [r], r.at)
  {
    hide Used;
    UsedMore(reqs, r);
  }

  lemma PipeMirrors(reqs: seq<Request>, r: Request, window: Time)
    requires window > 0.0 && r.at >= 0.0 && !Used(reqs, r.member)
    requires StoreMirrors(reqs, window, r.key) && Sorted(Times(reqs, r.key) + [r.at])
    ensures StoreMirrors(reqs + [r], window, r.key)
  {
    hide Mirrors, Sorted, Pruned, Used;
    assert (reqs + [r])[..|reqs|] == reqs;
    ExpiryChangesNothing(reqs, window, r.key, r.at);
    var live := Live(StoreAfter(reqs, window), r.key, r.at);
    AddMirrors(live, Times(reqs, r.key), r.member, r.at, r.at - window, window);
    AddSane(live, reqs, r, r.at - window);
  }

  lemma UsedMore(reqs: seq<Request>, r: Request)
    ensures Used(reqs + [r], r.member) && forall m :: Used(reqs, m) ==> Used(reqs + [r], m)
  {
    assert (reqs + [r])[|reqs|] == r;
    forall m | Used(reqs, m) ensures Used(reqs + [r], m) {
      var i :| 0 <= i < |reqs| && reqs[i].member == m;
      assert (reqs + [r])[i] == reqs[i];
    }
  }

  lemma {:induction false} StoreAlwaysMirrors(reqs: seq<Request>, window: Time, key: Key)
    requires window > 0.0 && WellFormed(reqs) && Monotone(reqs)
    ensures StoreMirrors(reqs, window, key)
  {
    if reqs != [] {
      var n := |reqs| - 1;
      var init, r := reqs[..n], reqs[n];
      assert reqs == init + [r];
      SortedPrefix(reqs, n);
      StoreAlwaysMirrors(init, window, key);
      if r.key == key {
        assert Sorted(Times(reqs, key)) && Times(reqs, key) == Times(init, key) + [r.at];
        PipeMirrors(init, r, window);
      } else { OtherKeyMirrors(init, r, window, key); }
    }
  }

  lemma OtherKeyMirrors(init: seq<Request>, r: Request, window: Time, key: Key)
    requires window > 0.0 && r.key != key && StoreMirrors(init, window, key)
    ensures StoreMirrors(init + [r], window, key)
  {
    hide Mirrors;
    assert (init + [r])[..|init|] == init;
    UsedMore(init, r);
  }

  lemma RedisCounts(reqs: seq<Request>, window: Time, key: Key, now: Time)
    requires window > 0.0 && WellFormed(reqs) && Monotone(reqs) && Sorted(Times(reqs, key) + [now])
    ensures CountBefore(StoreAfter(reqs, window), key, now, window) == |Fresh(Times(reqs, key), now - window)|
  {
    hide StoreAfter, Monotone, WellFormed, Sorted, Times, Fresh, StoreMirrors;
    StoreAlwaysMirrors(reqs, window, key);
    ExpiryChangesNothing(reqs, window, key, now);
    var live := Live(StoreAfter(reqs, window), key, now);
    assert Above(live, now - window) == Pruned(live, now - window).Keys;
    assert |Pruned(live, now - window)| == |Pruned(live, now - window).Keys|;
  }

  /** The sorted set, EXPIRE included, decides every request as the in-memory window does. */
  lemma RedisDecidesAlike(reqs: seq<Request>, window: Time, key: Key, now: Time)
    requires WellFormed(reqs) && Monotone(reqs) && Sorted(Times(reqs, key) + [now])
    ensures CountBefore(StoreAfter(reqs, window), key, now, window)
            == |Fresh(Lookup(WindowsAfter(reqs, window), key), now - window)|
  {
    hide StoreAfter, WindowsAfter, Monotone, WellFormed, Fresh, Times;
    WindowExact(reqs, window, key, now);
    var ts := Times(reqs, key);
    if window <= 0.0 {
      NoStore(reqs, window);
      var all := ts + [now];
      forall i | 0 <= i < |ts| ensures ts[i] <= now - window { assert all[i] <= all[|ts|]; }
      FreshNone(ts, now - window);
    } else {
      RedisCounts(reqs, window, key, now);
    }
  }

  lemma {:induction false} NoStore(reqs: seq<Request>, window: Time)
    requires window <= 0.0
    ensures StoreAfter(reqs, window) == map[]
  {
    if reqs != [] { NoStore(reqs[..|reqs| - 1], window); }
  }

  // ----- what the limiters themselves admit

  /** The in-memory limiter admits request `i`. */
  ghost predicate MemoryAdmits(reqs: seq<Request>, i: nat, window: Time, max: int)
    requires i < |reqs|
  {
    var r := reqs[i];
    |Fresh(Lookup(WindowsAfter(reqs[..i], window), r.key), r.at - window)| < max
  }

  /** The Redis limiter admits request `i`. */
  ghost predicate RedisAdmits(reqs: seq<Request>, i: nat, window: Time, max: int)
    requires i < |reqs|
  {
    CountBefore(StoreAfter(reqs[..i], window), reqs[i].key, reqs[i].at, window) < max
  }

  lemma NextSorted(reqs: seq<Request>, i: nat)
    requires Monotone(reqs) && i < |reqs|
    ensures Monotone(reqs[..i]) && Sorted(Times(reqs[..i], reqs[i].key) + [reqs[i].at])
  {
    SortedPrefix(reqs, i);
    SortedPrefix(reqs, i + 1);
    assert reqs[..i + 1][..i] == reqs[..i];
    assert Sorted(Times(reqs[..i + 1], reqs[i].key));
  }

  /** Both limiters admit exactly what the count over the whole history admits. */
  lemma LimitersAgree(reqs: seq<Request>, i: nat, window: Time, max: int)
    requires WellFormed(reqs) && Monotone(reqs) && i < |reqs|
    ensures MemoryAdmits(reqs, i, window, max) <==> Admits(reqs[..i], reqs[i].key, reqs[i].at, window, max)
    ensures RedisAdmits(reqs, i, window, max) <==> Admits(reqs[..i], reqs[i].key, reqs[i].at, window, max)
  {
    hide Fresh, Lookup, WindowsAfter, CountBefore, StoreAfter, Times, Sorted, Monotone;
    NextSorted(reqs, i);
    MemoryDecides(reqs[..i], window, reqs[i].key, reqs[i].at, max);
    RedisDecidesAlike(reqs[..i], window, reqs[i].key, reqs[i].at);
  }

  /** Requests of the key with a time in (from, from + window] that a limiter let through. */
  ghost function LetThrough(reqs: seq<Request>, key: Key, from: Time, window: Time, max: int, redis: bool): set<nat> {
    set i | 0 <= i < |reqs| && reqs[i].key == key && from < reqs[i].at <= from + window &&
            (if redis then RedisAdmits(reqs, i, window, max) else MemoryAdmits(reqs, i, window, max))
  }

  /** Neither limiter lets more than the budget through in any half-open window. */
  lemma BudgetKept(reqs: seq<Request>, key: Key, from: Time, window: Time, max: int, redis: bool)
    requires WellFormed(reqs) && Monotone(reqs)
    ensures |LetThrough(reqs, key, from, window, max, redis)| <= if max > 0 then max else 0
  {
    hide Admits, MemoryAdmits, RedisAdmits, WellFormed, Monotone;
    forall i | i in LetThrough(reqs, key, from, window, max, redis)
        ensures i in AdmittedIn(reqs, key, from, window, max) {
      LimitersAgree(reqs, i, window, max);
    }
    SubsetSize(LetThrough(reqs, key, from, window, max, redis), AdmittedIn(reqs, key, from, window, max));
    BudgetHolds(reqs, key, from, window, max);
  }

  // ----- the module-level dictionary

  /** `_memory_windows` and the requests that went through it. */
  class MemoryLimiter {
    const window: Time
    var windows: Windows
    ghost var log: seq<Request>

    ghost predicate Valid()
      reads this
    {
      windows == WindowsAfter(log, window)
    }

    constructor (window: Time)
      ensures Valid() && log == [] && this.window == window
    {
      this.window := window;
      windows := map[];
      log := [];
    }

    /** Admit iff fewer than `max` earlier requests of the key, admitted or not, are newer than the window. */
    method Check(key: Key, max: int, now: Time) returns (allowed: bool)
      requires Valid() && Sorted(Times(log, key) + [now])
      modifies this
      ensures Valid() && log == old(log) + [Request(key, now, "")]
      ensures allowed <==> Admits(old(log), key, now, window, max)
    {
      MemoryDecides(log, window, key, now, max);
      var cutoff := now - window;
      var timestamps := Lookup(windows, key);
      var fresh' := Fresh(timestamps, cutoff);
      allowed := |fresh'| < max;
      windows := windows[key := fresh' + [now]];
      log := log + [Request(key, now, "")];
      assert log[..|log| - 1] == old(log);
    }
  }
}
