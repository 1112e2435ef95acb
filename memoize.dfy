/**
 * The decorator built by `lru_cache_factory(hash_func)(maxsize)` applied to a
 * function `func`: each call fingerprints its arguments into a key, then looks
 * the key up in the function's own LRU cache. On a hit the stored result is
 * returned and `func` does not run; on a miss `func` runs on the original
 * arguments and a successful result is stored under the key.
 *
 * `Invoke` specifies one call on values; the class `Memoized` is the decorated
 * function with its cache and counters updated in place, proved against it.
 */
module Memoize {
  import opened Wrappers
  import opened Lru
  import opened Fingerprint

  /** The three things the decorator is built from: `hash_func`, `maxsize` and the decorated `func`. */
  datatype Config<!A, K, R, E> = Config(
    fingerprint: A -> Result<K, E>,
    maxsize: Option<nat>,
    func: Arguments<A> -> Result<R, E>)

  /** The cache's state: entries (least recently used first) and the hit and miss counters. */
  datatype State<K, R> = State(entries: seq<(Key<K>, R)>, hits: nat, misses: nat)

  /** What one call does: the new state, what the caller gets, and whether `func` ran. */
  datatype Outcome<K, R, E> = Outcome(state: State<K, R>, result: Result<R, E>, invoked: bool)

  /** What `cache_info()` reports. */
  datatype CacheInfo = CacheInfo(hits: nat, misses: nat, maxsize: Option<nat>, currsize: nat)

  /** An empty cache with zeroed counters: a fresh decoration, or one just cleared. */
  function Empty<K, R>(): State<K, R>
  {
    State([], 0, 0)
  }

  /**
   * One call of the decorated function. A fingerprint failure is raised before
   * the cache is consulted. The miss counter goes up before `func` runs, so a
   * call whose `func` raises still counts as a miss, but stores nothing.
   */
  function Invoke<A, K(==), R, E>(c: Config<A, K, R, E>, s: State<K, R>, call: Arguments<A>): (o: Outcome<K, R, E>)
    ensures !AllFingerprint(c.fingerprint, call) ==> o.state == s && !o.invoked && o.result.Failure?
    ensures o.invoked ==> o.result == c.func(call) && o.state.hits == s.hits && o.state.misses == s.misses + 1
    ensures AllFingerprint(c.fingerprint, call) && !o.invoked ==>
      o.result.Success? && o.state.hits == s.hits + 1 && o.state.misses == s.misses
  {
    match MakeKey(c.fingerprint, call)
    case Failure(e) => Outcome(s, Failure(e), false)
    case Success(key) =>
      match Find(s.entries, key)
      case Some(i) =>
        Outcome(State(Touch(s.entries, i), s.hits + 1, s.misses), Success(s.entries[i].1), false)
      case None =>
        var r := c.func(call);
        var entries := if r.Success? then Store(s.entries, key, r.value, c.maxsize) else s.entries;
        Outcome(State(entries, s.hits, s.misses + 1), r, true)
  }

  /** `cache_info()` of a cache in state `s`. */
  function Info<A, K, R, E>(c: Config<A, K, R, E>, s: State<K, R>): (info: CacheInfo)
    ensures Fits(s.entries, c.maxsize) && c.maxsize.Some? ==> info.currsize <= c.maxsize.value
    ensures c.maxsize == Some(0) && Fits(s.entries, c.maxsize) ==> info.currsize == 0
  {
    CacheInfo(s.hits, s.misses, c.maxsize, |s.entries|)
  }

  /** Every call keeps the cache's invariant: distinct keys and at most `maxsize` entries. */
  lemma InvokeKeepsValid<A, K, R, E>(c: Config<A, K, R, E>, s: State<K, R>, call: Arguments<A>)
    requires Valid(s.entries, c.maxsize)
    ensures Valid(Invoke(c, s, call).state.entries, c.maxsize)
    ensures c.maxsize == Some(0) ==> Invoke(c, s, call).state.entries == []
  {
    match MakeKey(c.fingerprint, call)
    case Failure(_) =>
    case Success(key) =>
      match Find(s.entries, key)
      case Some(i) => TouchKeepsContents(s.entries, i, c.maxsize, key);
      case None =>
        var r := c.func(call);
        if r.Success? { StoreContents(s.entries, key, r.value, c.maxsize, key); }
  }

  /**
   * A fingerprint failure on any argument is raised before `func` runs and
   * before the cache is touched: the state, counters included, is unchanged.
   * The error is the first failing positional argument's, if there is one.
   */
  lemma FingerprintFailureChangesNothing<A, K, R, E>(c: Config<A, K, R, E>, s: State<K, R>, call: Arguments<A>)
    requires !AllFingerprint(c.fingerprint, call)
    ensures var o := Invoke(c, s, call);
      && o.state == s && !o.invoked && o.result.Failure?
      && ((exists i: nat :: i < |call.positional| && c.fingerprint(call.positional[i]).Failure?) ==>
            exists i: nat :: FailsFirstAt(c.fingerprint, call.positional, i) &&
                             o.result.error == c.fingerprint(call.positional[i]).error)
      && ((forall i :: 0 <= i < |call.positional| ==> c.fingerprint(call.positional[i]).Success?) ==>
            exists i: nat :: KeywordFailsFirstAt(c.fingerprint, call.keywords, i) &&
                             o.result.error == c.fingerprint(call.keywords[i].1).error)
  {
    MakeKeyShape(c.fingerprint, call);
  }

  /**
   * A hit: when the key is cached, `func` does not run, the stored value is
   * returned, the hit counter goes up by one, the miss counter stays, and the
   * cache holds the same key-value pairs, with the key now most recently used.
   */
  lemma HitReturnsStored<A, K, R, E>(c: Config<A, K, R, E>, s: State<K, R>, call: Arguments<A>, key: Key<K>, v: R, k': Key<K>)
    requires Valid(s.entries, c.maxsize)
    requires MakeKey(c.fingerprint, call) == Success(key) && Lookup(s.entries, key) == Some(v)
    ensures var o := Invoke(c, s, call);
      && !o.invoked && o.result == Success(v)
      && o.state.hits == s.hits + 1 && o.state.misses == s.misses
      && |o.state.entries| == |s.entries| && o.state.entries[|s.entries| - 1].0 == key
      && Lookup(o.state.entries, k') == Lookup(s.entries, k')
  {
    var i := Find(s.entries, key).value;
    TouchKeepsContents(s.entries, i, c.maxsize, k');
  }

  /**
   * A miss: when the key is not cached, `func` runs once on the original
   * arguments, its result is what the caller gets, the miss counter goes up by
   * one and the hit counter stays. A successful result is then stored under the
   * key (unless `maxsize` is zero), evicting only the least recently used entry.
   * A failure is not stored: the cache holds exactly what it held.
   */
  lemma MissInvokesFunc<A, K, R, E>(c: Config<A, K, R, E>, s: State<K, R>, call: Arguments<A>, key: Key<K>, k': Key<K>)
    requires Valid(s.entries, c.maxsize)
    requires MakeKey(c.fingerprint, call) == Success(key) && Lookup(s.entries, key) == None
    ensures var o := Invoke(c, s, call);
      && o.invoked && o.result == c.func(call)
      && o.state.hits == s.hits && o.state.misses == s.misses + 1
      && (o.result.Failure? ==> o.state.entries == s.entries)
      && (o.result.Success? && c.maxsize != Some(0) ==> Lookup(o.state.entries, key) == Some(o.result.value))
      && (o.result.Success? && k' != key ==>
            Lookup(o.state.entries, k') ==
              if Evicts(s.entries, c.maxsize) && k' == s.entries[0].0 then None else Lookup(s.entries, k'))
  {
    var r := c.func(call);
    if r.Success? { StoreContents(s.entries, key, r.value, c.maxsize, k'); }
  }

  /**
   * Two calls whose arguments fingerprint alike: if the first one succeeds and
   * `maxsize` is not zero, the second one is a hit that returns the same result
   * without running `func`, whatever `func` would return on its own arguments.
   */
  lemma SameKeyHitsAfterSuccess<A, K, R, E>(c: Config<A, K, R, E>, s: State<K, R>, call1: Arguments<A>, call2: Arguments<A>)
    requires Valid(s.entries, c.maxsize) && c.maxsize != Some(0)
    requires SameFingerprints(c.fingerprint, call1, call2)
    requires Invoke(c, s, call1).result.Success?
    ensures var o1 := Invoke(c, s, call1);
            var o2 := Invoke(c, o1.state, call2);
            !o2.invoked && o2.result == o1.result && o2.state.hits == o1.state.hits + 1
  {
    MakeKeyCongruent(c.fingerprint, call1, call2);
    var o1 := Invoke(c, s, call1);
    var key := MakeKey(c.fingerprint, call1).value;
    InvokeKeepsValid(c, s, call1);
    match Find(s.entries, key)
    case Some(i) =>
      HitReturnsStored(c, s, call1, key, s.entries[i].1, key);
    case None =>
      MissInvokesFunc(c, s, call1, key, key);
    assert Lookup(o1.state.entries, key) == Some(o1.result.value);
    HitReturnsStored(c, o1.state, call2, key, o1.result.value, key);
  }

  /**
   * Failures are never cached: when `func` raises on an uncached key, the
   * caller gets that error, the cache is unchanged, and an identical later
   * call runs `func` again and raises again.
   */
  lemma FailureNotCached<A, K, R, E>(c: Config<A, K, R, E>, s: State<K, R>, call: Arguments<A>)
    requires Valid(s.entries, c.maxsize)
    requires MakeKey(c.fingerprint, call).Success? && Lookup(s.entries, MakeKey(c.fingerprint, call).value) == None
    requires c.func(call).Failure?
    ensures var o1 := Invoke(c, s, call);
            var o2 := Invoke(c, o1.state, call);
            && o1.invoked && o1.result == c.func(call) && o1.state.entries == s.entries
            && o2.invoked && o2.result == c.func(call) && o2.state.entries == s.entries
            && o2.state.misses == s.misses + 2
  {
    var key := MakeKey(c.fingerprint, call).value;
    MissInvokesFunc(c, s, call, key, key);
    var o1 := Invoke(c, s, call);
    MissInvokesFunc(c, o1.state, call, key, key);
  }

  /** One successful miss, spelled out: `func` runs and its result is stored by `Store`. */
  lemma SuccessfulMissStores<A, K, R, E>(c: Config<A, K, R, E>, s: State<K, R>, call: Arguments<A>, key: Key<K>, v: R)
    requires MakeKey(c.fingerprint, call) == Success(key) && Find(s.entries, key) == None
    requires c.func(call) == Success(v)
    ensures Invoke(c, s, call).invoked
    ensures Invoke(c, s, call).state.entries == Store(s.entries, key, v, c.maxsize)
  {
  }

  /**
   * Eviction order with `maxsize == 2`: after calls with three distinct keys
   * k1, k2, k3 on an empty cache, all of which succeed, k1 is the one evicted,
   * so calling again with k1's arguments runs `func` again.
   */
  lemma LeastRecentlyUsedIsEvicted<A, K, R, E>(c: Config<A, K, R, E>, a1: Arguments<A>, a2: Arguments<A>, a3: Arguments<A>)
    requires c.maxsize == Some(2)
    requires MakeKey(c.fingerprint, a1).Success? && MakeKey(c.fingerprint, a2).Success? && MakeKey(c.fingerprint, a3).Success?
    requires MakeKey(c.fingerprint, a1) != MakeKey(c.fingerprint, a2)
    requires MakeKey(c.fingerprint, a1) != MakeKey(c.fingerprint, a3)
    requires MakeKey(c.fingerprint, a2) != MakeKey(c.fingerprint, a3)
    requires c.func(a1).Success? && c.func(a2).Success? && c.func(a3).Success?
    ensures var o1 := Invoke(c, Empty(), a1);
            var o2 := Invoke(c, o1.state, a2);
            var o3 := Invoke(c, o2.state, a3);
            var o4 := Invoke(c, o3.state, a1);
            o1.invoked && o2.invoked && o3.invoked && o4.invoked && |o3.state.entries| == 2
  {
    var k1, k2, k3 := MakeKey(c.fingerprint, a1).value, MakeKey(c.fingerprint, a2).value, MakeKey(c.fingerprint, a3).value;
    var v1, v2, v3 := c.func(a1).value, c.func(a2).value, c.func(a3).value;

    var o1 := Invoke(c, Empty(), a1);
    SuccessfulMissStores(c, Empty(), a1, k1, v1);
    assert o1.invoked;
    var e1 := o1.state.entries;
    assert e1 == [(k1, v1)];

    assert Find(e1, k2) == None by { assert e1[0].0 == k1 != k2; }
    var o2 := Invoke(c, o1.state, a2);
    SuccessfulMissStores(c, o1.state, a2, k2, v2);
    assert o2.invoked;
    var e2 := o2.state.entries;
    assert e2 == [(k1, v1), (k2, v2)];

    assert Find(e2, k3) == None by { assert e2[0].0 == k1 != k3 && e2[1].0 == k2 != k3; }
    var o3 := Invoke(c, o2.state, a3);
    SuccessfulMissStores(c, o2.state, a3, k3, v3);
    assert o3.invoked;
    var e3 := o3.state.entries;
    assert e3 == [(k2, v2), (k3, v3)];

    assert Find(e3, k1) == None by { assert e3[0].0 == k2 != k1 && e3[1].0 == k3 != k1; }
    assert Invoke(c, o3.state, a1).invoked;
  }

  /** Calls in sequence: the final state and the arguments `func` ran on, in order. */
  datatype History<A, K, R> = History(state: State<K, R>, invocations: seq<Arguments<A>>)

  function Run<A, K(==), R, E>(c: Config<A, K, R, E>, s: State<K, R>, calls: seq<Arguments<A>>): History<A, K, R>
    decreases |calls|
  {
    if calls == [] then History(s, [])
    else
      var o := Invoke(c, s, calls[0]);
      var rest := Run(c, o.state, calls[1..]);
      History(rest.state, (if o.invoked then [calls[0]] else []) + rest.invocations)
  }

  /** How many of `calls` fingerprint without failing, i.e. reach the cache. */
  function KeyedCalls<A, K, R, E>(c: Config<A, K, R, E>, calls: seq<Arguments<A>>): nat
    decreases |calls|
  {
    if calls == [] then 0
    else (if MakeKey(c.fingerprint, calls[0]).Success? then 1 else 0) + KeyedCalls(c, calls[1..])
  }

  /**
   * Counter accounting over any sequence of calls: the misses reported by
   * `cache_info()` grow by exactly the number of times `func` ran, and hits
   * plus misses grow by exactly the number of calls that reached the cache.
   */
  lemma {:induction false} CountersAccount<A, K, R, E>(c: Config<A, K, R, E>, s: State<K, R>, calls: seq<Arguments<A>>)
    ensures var h := Run(c, s, calls);
            && Info(c, h.state).misses == s.misses + |h.invocations|
            && Info(c, h.state).hits + Info(c, h.state).misses == s.hits + s.misses + KeyedCalls(c, calls)
    decreases |calls|
  {
    if calls != [] {
      var o := Invoke(c, s, calls[0]);
      CountersAccount(c, o.state, calls[1..]);
    }
  }

  /** After `cache_clear()`, counters read zero and the next call that reaches the cache is a miss. */
  lemma ClearedCacheMisses<A, K, R, E>(c: Config<A, K, R, E>, call: Arguments<A>)
    requires MakeKey(c.fingerprint, call).Success?
    ensures Info(c, Empty()) == CacheInfo(0, 0, c.maxsize, 0)
    ensures Invoke(c, Empty(), call).invoked
    ensures Info(c, Invoke(c, Empty(), call).state).misses == 1
  {
  }

  /**
   * The decorated function `_func`, with its own cache. `fingerprint`, `maxsize`
   * and `func` are fixed when the decorator is applied; the cache entries and
   * counters change on every call. `invocations` records every run of `func`.
   */
  class Memoized<A, K(==), R, E> {
    const fingerprint: A -> Result<K, E>
    const maxsize: Option<nat>
    const func: Arguments<A> -> Result<R, E>
    var entries: seq<(Key<K>, R)>
    var hits: nat
    var misses: nat
    ghost var invocations: seq<Arguments<A>>

    function Configuration(): Config<A, K, R, E>
    {
      Config(fingerprint, maxsize, func)
    }

    ghost function Snapshot(): State<K, R>
      reads this
    {
      State(entries, hits, misses)
    }

    ghost predicate Valid()
      reads this
    {
      Lru.Valid(entries, maxsize)
    }

    /** `lru_cache_factory(fingerprint)(maxsize)(func)`: a new wrapper with a fresh, empty cache. */
    constructor (fingerprint: A -> Result<K, E>, maxsize: Option<nat>, func: Arguments<A> -> Result<R, E>)
      ensures Valid() && Snapshot() == Empty() && invocations == []
      ensures Configuration() == Config(fingerprint, maxsize, func)
    {
      this.fingerprint := fingerprint;
      this.maxsize := maxsize;
      this.func := func;
      entries := [];
      hits, misses := 0, 0;
      invocations := [];
    }

    /** A call `_func(*args, **kwargs)`. */
    method Call(call: Arguments<A>) returns (r: Result<R, E>)
      requires Valid()
      modifies this
      ensures Valid()
      ensures var o := Invoke(Configuration(), old(Snapshot()), call);
        && Snapshot() == o.state && r == o.result
        && invocations == old(invocations) + (if o.invoked then [call] else [])
    {
      ghost var o := Invoke(Configuration(), Snapshot(), call);
      InvokeKeepsValid(Configuration(), Snapshot(), call);
      var key := MakeKey(fingerprint, call);
      if key.Failure? {
        r := Failure(key.error);
        assert r == o.result && o.state == Snapshot() && !o.invoked;
        return;
      }
      var found := Find(entries, key.value);
      if found.Some? {
        r := Success(entries[found.value].1);
        entries := Touch(entries, found.value);
        hits := hits + 1;
        assert r == o.result && o.state == Snapshot() && !o.invoked;
      } else {
        misses := misses + 1;
        r := func(call);
        invocations := invocations + [call];
        if r.Success? {
          entries := Store(entries, key.value, r.value, maxsize);
        }
        assert r == o.result && o.state == Snapshot() && o.invoked;
      }
    }

    /** The forwarded `cache_info()`. */
    method CacheInfo() returns (info: CacheInfo)
      ensures info == Info(Configuration(), Snapshot())
      ensures info.hits == hits && info.misses == misses && info.currsize == |entries| && info.maxsize == maxsize
    {
      info := Info(Configuration(), State(entries, hits, misses));
    }

    /** The forwarded `cache_clear()`: empties the cache and zeroes both counters. */
    method CacheClear()
      modifies this
      ensures Valid() && Snapshot() == Empty() && invocations == old(invocations)
    {
      entries := [];
      hits, misses := 0, 0;
    }
  }

  /**
   * Each application of the decorator owns its cache: calling one decorated
   * function leaves another one's cache and counters as they were.
   */
  method SeparateCaches<A, K, R, E>(g1: Memoized<A, K, R, E>, g2: Memoized<A, K, R, E>, call: Arguments<A>)
    returns (r: Result<R, E>)
    requires g1 != g2 && g1.Valid()
    modifies g1
    ensures g2.Snapshot() == old(g2.Snapshot()) && g2.invocations == old(g2.invocations)
    ensures r == Invoke(g1.Configuration(), old(g1.Snapshot()), call).result
  {
    r := g1.Call(call);
  }
}
