/**
 * Cache-key construction of the fingerprinting wrapper: every positional
 * argument is replaced by its fingerprint, in order, and every keyword
 * argument by the pair (name, fingerprint of its value), in the caller's
 * order. Fingerprinting may raise; the arguments are fingerprinted left to
 * right, positional ones first, and the first failure is what the call raises.
 */
module Fingerprint {
  import opened Wrappers

  /** The arguments of one call: positional values, then (name, value) keyword pairs in the caller's order. */
  datatype Arguments<A> = Arguments(positional: seq<A>, keywords: seq<(string, A)>)

  /** The cache key of one call. Keyword order is significant, as in `functools.lru_cache`. */
  datatype Key<K> = Key(positional: seq<K>, keywords: seq<(string, K)>)

  /** Positional argument `i` is the first one whose fingerprint fails. */
  predicate FailsFirstAt<A, K, E>(h: A -> Result<K, E>, xs: seq<A>, i: nat)
  {
    i < |xs| && h(xs[i]).Failure? && forall j :: 0 <= j < i ==> h(xs[j]).Success?
  }

  /** Keyword argument `i` is the first one whose value's fingerprint fails. */
  predicate KeywordFailsFirstAt<A, K, E>(h: A -> Result<K, E>, kws: seq<(string, A)>, i: nat)
  {
    i < |kws| && h(kws[i].1).Failure? && forall j :: 0 <= j < i ==> h(kws[j].1).Success?
  }

  /** `tuple(hash_func(a) for a in args)`. */
  function FingerprintPositional<A, K, E>(h: A -> Result<K, E>, xs: seq<A>): (r: Result<seq<K>, E>)
    ensures r.Success? <==> forall i :: 0 <= i < |xs| ==> h(xs[i]).Success?
    ensures r.Success? ==> |r.value| == |xs| && forall i :: 0 <= i < |xs| ==> h(xs[i]) == Success(r.value[i])
    ensures r.Failure? ==> exists i: nat :: FailsFirstAt(h, xs, i) && r.error == h(xs[i]).error
  {
    if xs == [] then Success([])
    else
      match h(xs[0])
      case Failure(e) =>
        assert FailsFirstAt(h, xs, 0);
        Failure(e)
      case Success(k) =>
        match FingerprintPositional(h, xs[1..])
        case Failure(e) =>
          assert exists i: nat :: FailsFirstAt(h, xs, i) && e == h(xs[i]).error by {
            var i: nat :| FailsFirstAt(h, xs[1..], i) && e == h(xs[1..][i]).error;
            assert FailsFirstAt(h, xs, i + 1);
          }
          Failure(e)
        case Success(ks) => Success([k] + ks)
  }

  /** `{k: hash_func(v) for k, v in kwargs.items()}`, keeping the caller's order. */
  function FingerprintKeywords<A, K, E>(h: A -> Result<K, E>, kws: seq<(string, A)>): (r: Result<seq<(string, K)>, E>)
    ensures r.Success? <==> forall i :: 0 <= i < |kws| ==> h(kws[i].1).Success?
    ensures r.Success? ==>
      |r.value| == |kws| &&
      forall i :: 0 <= i < |kws| ==> r.value[i].0 == kws[i].0 && h(kws[i].1) == Success(r.value[i].1)
    ensures r.Failure? ==> exists i: nat :: KeywordFailsFirstAt(h, kws, i) && r.error == h(kws[i].1).error
  {
    if kws == [] then Success([])
    else
      match h(kws[0].1)
      case Failure(e) =>
        assert KeywordFailsFirstAt(h, kws, 0);
        Failure(e)
      case Success(k) =>
        match FingerprintKeywords(h, kws[1..])
        case Failure(e) =>
          assert exists i: nat :: KeywordFailsFirstAt(h, kws, i) && e == h(kws[i].1).error by {
            var i: nat :| KeywordFailsFirstAt(h, kws[1..], i) && e == h(kws[1..][i].1).error;
            assert KeywordFailsFirstAt(h, kws, i + 1);
          }
          Failure(e)
        case Success(rest) => Success([(kws[0].0, k)] + rest)
  }

  /** The whole key; the positional arguments are fingerprinted before the keyword ones. */
  function MakeKey<A, K, E>(h: A -> Result<K, E>, call: Arguments<A>): (r: Result<Key<K>, E>)
    ensures r.Success? <==> AllFingerprint(h, call)
    ensures r.Success? ==>
      |r.value.positional| == |call.positional| && |r.value.keywords| == |call.keywords|
  {
    match FingerprintPositional(h, call.positional)
    case Failure(e) => Failure(e)
    case Success(ks) =>
      match FingerprintKeywords(h, call.keywords)
      case Failure(e) => Failure(e)
      case Success(kws) => Success(Key(ks, kws))
  }

  /** Every argument fingerprints without failing. */
  predicate AllFingerprint<A, K, E>(h: A -> Result<K, E>, call: Arguments<A>)
  {
    && (forall i :: 0 <= i < |call.positional| ==> h(call.positional[i]).Success?)
    && (forall i :: 0 <= i < |call.keywords| ==> h(call.keywords[i].1).Success?)
  }

  /**
   * The key succeeds exactly when every argument fingerprints; then it has one
   * fingerprint per positional argument and the caller's keyword names in the
   * caller's order. When it fails, the error is that of the first failing
   * positional argument or, if none fails, of the first failing keyword value.
   */
  lemma MakeKeyShape<A, K, E>(h: A -> Result<K, E>, call: Arguments<A>)
    ensures MakeKey(h, call).Success? <==> AllFingerprint(h, call)
    ensures MakeKey(h, call).Success? ==>
      var key := MakeKey(h, call).value;
      && |key.positional| == |call.positional|
      && (forall i :: 0 <= i < |call.positional| ==> h(call.positional[i]) == Success(key.positional[i]))
      && |key.keywords| == |call.keywords|
      && (forall i :: 0 <= i < |call.keywords| ==>
            key.keywords[i].0 == call.keywords[i].0 && h(call.keywords[i].1) == Success(key.keywords[i].1))
    ensures MakeKey(h, call).Failure? ==>
      (exists i: nat :: FailsFirstAt(h, call.positional, i) && MakeKey(h, call).error == h(call.positional[i]).error) ||
      ((forall i :: 0 <= i < |call.positional| ==> h(call.positional[i]).Success?) &&
       exists i: nat :: KeywordFailsFirstAt(h, call.keywords, i) && MakeKey(h, call).error == h(call.keywords[i].1).error)
  {
  }

  /** Two argument lists whose arguments fingerprint pairwise alike (and whose keyword names agree). */
  ghost predicate SameFingerprints<A, K, E>(h: A -> Result<K, E>, a: Arguments<A>, b: Arguments<A>)
  {
    && |a.positional| == |b.positional|
    && (forall i :: 0 <= i < |a.positional| ==> h(a.positional[i]) == h(b.positional[i]))
    && |a.keywords| == |b.keywords|
    && (forall i :: 0 <= i < |a.keywords| ==>
          a.keywords[i].0 == b.keywords[i].0 && h(a.keywords[i].1) == h(b.keywords[i].1))
  }

  lemma {:induction false} PositionalCongruent<A, K, E>(h: A -> Result<K, E>, xs: seq<A>, ys: seq<A>)
    requires |xs| == |ys| && forall i :: 0 <= i < |xs| ==> h(xs[i]) == h(ys[i])
    ensures FingerprintPositional(h, xs) == FingerprintPositional(h, ys)
  {
    if xs != [] {
      assert h(xs[0]) == h(ys[0]);
      assert forall i :: 0 <= i < |xs| - 1 ==> xs[1..][i] == xs[i + 1] && ys[1..][i] == ys[i + 1];
      PositionalCongruent(h, xs[1..], ys[1..]);
    }
  }

  lemma {:induction false} KeywordsCongruent<A, K, E>(h: A -> Result<K, E>, xs: seq<(string, A)>, ys: seq<(string, A)>)
    requires |xs| == |ys| && forall i :: 0 <= i < |xs| ==> xs[i].0 == ys[i].0 && h(xs[i].1) == h(ys[i].1)
    ensures FingerprintKeywords(h, xs) == FingerprintKeywords(h, ys)
  {
    if xs != [] {
      assert xs[0].0 == ys[0].0 && h(xs[0].1) == h(ys[0].1);
      assert forall i :: 0 <= i < |xs| - 1 ==> xs[1..][i] == xs[i + 1] && ys[1..][i] == ys[i + 1];
      KeywordsCongruent(h, xs[1..], ys[1..]);
    }
  }

  /**
   * The key depends on the arguments only through their fingerprints: calls
   * whose arguments fingerprint alike get the same key (or the same error).
   */
  lemma MakeKeyCongruent<A, K, E>(h: A -> Result<K, E>, a: Arguments<A>, b: Arguments<A>)
    requires SameFingerprints(h, a, b)
    ensures MakeKey(h, a) == MakeKey(h, b)
  {
    PositionalCongruent(h, a.positional, b.positional);
    KeywordsCongruent(h, a.keywords, b.keywords);
  }

  /**
   * The converse of `MakeKeyCongruent`: two calls that get the same key had
   * arguments that fingerprint alike, under the same keyword names. So calls
   * whose arguments fingerprint differently never share a cache entry.
   */
  lemma SameKeySameFingerprints<A, K, E>(h: A -> Result<K, E>, a: Arguments<A>, b: Arguments<A>)
    requires MakeKey(h, a).Success? && MakeKey(h, a) == MakeKey(h, b)
    ensures SameFingerprints(h, a, b)
  {
    MakeKeyShape(h, a);
    MakeKeyShape(h, b);
  }

  /**
   * Keyword order is part of the key, as `functools.lru_cache` documents: two
   * calls whose keyword arguments all fingerprint but whose keyword names
   * differ at some position get different keys. This covers any reordering
   * of the same keyword arguments, such as `f(a=x, b=y)` against `f(b=y, a=x)`.
   */
  lemma KeywordOrderMatters<A, K, E>(h: A -> Result<K, E>, a: Arguments<A>, b: Arguments<A>, i: nat)
    requires AllFingerprint(h, a) && AllFingerprint(h, b)
    requires i < |a.keywords| && i < |b.keywords| && a.keywords[i].0 != b.keywords[i].0
    ensures MakeKey(h, a).Success? && MakeKey(h, b).Success? && MakeKey(h, a) != MakeKey(h, b)
  {
    MakeKeyShape(h, a);
    MakeKeyShape(h, b);
    assert MakeKey(h, a).value.keywords[i].0 != MakeKey(h, b).value.keywords[i].0;
  }

  /** The instance `f(a=x, b=y)` against `f(b=y, a=x)`. */
  lemma SwappedKeywordsDiffer<A, K, E>(h: A -> Result<K, E>, x: A, y: A)
    requires h(x).Success? && h(y).Success?
    ensures MakeKey(h, Arguments([], [("a", x), ("b", y)])) != MakeKey(h, Arguments([], [("b", y), ("a", x)]))
  {
    KeywordOrderMatters(h, Arguments([], [("a", x), ("b", y)]), Arguments([], [("b", y), ("a", x)]), 0);
  }
}
