/**
 * The bounded least-recently-used cache behind the decorator, modelled by the
 * behaviour the Python standard library documents for `functools.lru_cache`:
 * the cache is a sequence of (key, value) entries ordered by recency of use,
 * the least recently used entry first and the most recently used one last.
 *
 *  - `maxsize == None`: the cache is unbounded and nothing is ever evicted;
 *  - `maxsize == Some(0)`: nothing is ever stored;
 *  - `maxsize == Some(n)`, n > 0: storing a new entry into a full cache first
 *    evicts the least recently used entry.
 */
module Lru {
  import opened Wrappers

  /** No key occurs in two entries. */
  predicate DistinctKeys<K(==), V>(es: seq<(K, V)>)
  {
    forall i, j :: 0 <= i < j < |es| ==> es[i].0 != es[j].0
  }

  /** The cache holds no more entries than its configured maximum size. */
  predicate Fits<K, V>(es: seq<(K, V)>, maxsize: Option<nat>)
  {
    maxsize.Some? ==> |es| <= maxsize.value
  }

  /** The invariant every cache keeps. */
  predicate Valid<K(==), V>(es: seq<(K, V)>, maxsize: Option<nat>)
  {
    DistinctKeys(es) && Fits(es, maxsize)
  }

  /** Where key `k` is stored, if anywhere (the first such position). */
  function Find<K(==), V>(es: seq<(K, V)>, k: K): (r: Option<nat>)
    ensures r.Some? ==> r.value < |es| && es[r.value].0 == k
    ensures r.Some? ==> forall i :: 0 <= i < r.value ==> es[i].0 != k
    ensures r.None? <==> forall i :: 0 <= i < |es| ==> es[i].0 != k
  {
    if es == [] then None
    else if es[0].0 == k then Some(0)
    else
      match Find(es[1..], k)
      case None => None
      case Some(i) => Some(i + 1)
  }

  /** The cache read as a dictionary: the value stored under `k`, if any. */
  function Lookup<K(==), V>(es: seq<(K, V)>, k: K): (r: Option<V>)
    ensures r.Some? <==> exists i :: 0 <= i < |es| && es[i].0 == k
    ensures DistinctKeys(es) ==> forall i :: 0 <= i < |es| && es[i].0 == k ==> r == Some(es[i].1)
  {
    match Find(es, k)
    case None => None
    case Some(i) => Some(es[i].1)
  }

  /**
   * A hit on entry `i`: that entry becomes the most recently used one and the
   * others keep their relative order.
   */
  function Touch<K, V>(es: seq<(K, V)>, i: nat): (r: seq<(K, V)>)
    requires i < |es|
    ensures |r| == |es| && r[|r| - 1] == es[i]
    ensures forall j :: 0 <= j < |es| - 1 ==> r[j] == es[if j < i then j else j + 1]
    ensures multiset(r) == multiset(es)
  {
    assert es == es[..i] + [es[i]] + es[i + 1..];
    es[..i] + es[i + 1..] + [es[i]]
  }

  /** Whether storing one more entry evicts the least recently used one first. */
  predicate Evicts<K, V>(es: seq<(K, V)>, maxsize: Option<nat>)
  {
    maxsize.Some? && 0 < maxsize.value <= |es|
  }

  /**
   * A miss whose computation succeeded: store `(k, v)` as the most recently
   * used entry, evicting the least recently used entry if the cache is full,
   * and storing nothing at all when `maxsize` is zero.
   */
  function Store<K, V>(es: seq<(K, V)>, k: K, v: V, maxsize: Option<nat>): (r: seq<(K, V)>)
    ensures maxsize == Some(0) ==> r == es
    ensures maxsize != Some(0) ==> |r| > 0 && r[|r| - 1] == (k, v)
    ensures maxsize != Some(0) && Evicts(es, maxsize) ==> r[..|r| - 1] == es[1..]
    ensures maxsize != Some(0) && !Evicts(es, maxsize) ==> r[..|r| - 1] == es
  {
    match maxsize
    case None => es + [(k, v)]
    case Some(n) =>
      if n == 0 then es
      else if |es| >= n then es[1..] + [(k, v)]
      else es + [(k, v)]
  }

  /** A hit changes only the recency order: the dictionary view and the invariant stay. */
  lemma TouchKeepsContents<K, V>(es: seq<(K, V)>, i: nat, maxsize: Option<nat>, k: K)
    requires i < |es| && Valid(es, maxsize)
    ensures Valid(Touch(es, i), maxsize)
    ensures Lookup(Touch(es, i), k) == Lookup(es, k)
  {
    var r := Touch(es, i);
    var n := |es|;
    // position j of r holds entry P(j) of es, and P is a bijection
    assert forall j :: 0 <= j < n ==>
      r[j] == es[if j == n - 1 then i else if j < i then j else j + 1];
    forall a, b | 0 <= a < b < n ensures r[a].0 != r[b].0 {
      var pa := if a == n - 1 then i else if a < i then a else a + 1;
      var pb := if b == n - 1 then i else if b < i then b else b + 1;
      assert r[a] == es[pa] && r[b] == es[pb] && pa != pb;
      if pa < pb { assert es[pa].0 != es[pb].0; } else { assert es[pb].0 != es[pa].0; }
    }
    if j :| 0 <= j < n && es[j].0 == k {
      var q := if j == i then n - 1 else if j < i then j else j - 1;
      assert r[q] == es[j];
    }
  }

  /** Appending an entry for an absent key makes it most recent and leaves every other key as it was. */
  lemma AppendContents<K, V>(es: seq<(K, V)>, k: K, v: V, k': K)
    requires DistinctKeys(es) && Lookup(es, k) == None
    ensures DistinctKeys(es + [(k, v)])
    ensures Lookup(es + [(k, v)], k) == Some(v)
    ensures k' != k ==> Lookup(es + [(k, v)], k') == Lookup(es, k')
  {
    var r := es + [(k, v)];
    assert r[|es|].0 == k;
    if k' != k {
      if j :| 0 <= j < |es| && es[j].0 == k' {
        assert r[j] == es[j];
      } else {
        assert forall j :: 0 <= j < |r| ==> r[j].0 != k' by {
          forall j | 0 <= j < |r| ensures r[j].0 != k' {
            if j < |es| { assert r[j] == es[j]; }
          }
        }
      }
    }
  }

  /** Evicting the least recently used entry forgets exactly its key. */
  lemma DropOldestContents<K, V>(es: seq<(K, V)>, k': K)
    requires DistinctKeys(es) && |es| > 0
    ensures DistinctKeys(es[1..])
    ensures Lookup(es[1..], k') == if k' == es[0].0 then None else Lookup(es, k')
  {
    var r := es[1..];
    assert forall a, b :: 0 <= a < b < |r| ==> r[a] == es[a + 1] && r[b] == es[b + 1];
    if k' == es[0].0 {
      assert forall j :: 0 <= j < |r| ==> r[j].0 != k' by {
        forall j | 0 <= j < |r| ensures r[j].0 != k' { assert r[j] == es[j + 1]; }
      }
    } else if j :| 0 <= j < |es| && es[j].0 == k' {
      assert r[j - 1] == es[j];
    } else {
      assert forall j :: 0 <= j < |r| ==> r[j].0 != k' by {
        forall j | 0 <= j < |r| ensures r[j].0 != k' { assert r[j] == es[j + 1]; }
      }
    }
  }

  /**
   * Storing a key that is not cached: afterwards the key maps to the new value,
   * and every other key keeps its value except the evicted least recently used
   * one; the invariant is kept. With `maxsize == Some(0)` nothing is stored.
   */
  lemma StoreContents<K, V>(es: seq<(K, V)>, k: K, v: V, maxsize: Option<nat>, k': K)
    requires Valid(es, maxsize) && Lookup(es, k) == None
    ensures Valid(Store(es, k, v, maxsize), maxsize)
    ensures maxsize != Some(0) ==> Lookup(Store(es, k, v, maxsize), k) == Some(v)
    ensures maxsize == Some(0) ==> Store(es, k, v, maxsize) == es == []
    ensures k' != k ==>
      Lookup(Store(es, k, v, maxsize), k') ==
        (if Evicts(es, maxsize) && k' == es[0].0 then None else Lookup(es, k'))
    ensures |Store(es, k, v, maxsize)| ==
      if maxsize == Some(0) || Evicts(es, maxsize) then |es| else |es| + 1
  {
    if maxsize != Some(0) {
      if Evicts(es, maxsize) {
        var kept := es[1..];
        DropOldestContents(es, k');
        DropOldestContents(es, k);
        AppendContents(kept, k, v, k');
        assert Store(es, k, v, maxsize) == kept + [(k, v)];
      } else {
        AppendContents(es, k, v, k');
        assert Store(es, k, v, maxsize) == es + [(k, v)];
      }
    }
  }
}
