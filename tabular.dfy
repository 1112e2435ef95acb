/**
 * The tabular fingerprint `_pd_hash_on_indexes` and the decorator composed
 * from it, `pd_lru_cache`. A data frame is fingerprinted by its row-index and
 * column labels alone, so its cell values do not take part in the cache key;
 * any other value is its own fingerprint.
 */
module Tabular {
  import opened Wrappers
  import opened Fingerprint
  import opened Memoize
  import Lru

  /**
   * An argument: a data frame (row labels, column labels and rows of cells), a
   * series (row labels and cells, and no `columns` attribute), or any other value.
   */
  datatype Arg<L, C, V> =
    | DataFrame(index: seq<L>, columns: seq<L>, cells: seq<seq<C>>)
    | Series(index: seq<L>, values: seq<C>)
    | Other(value: V)

  /** A fingerprint: the pair of label sequences of a data frame, or a value standing for itself. */
  datatype TableKey<L, V> = Labels(index: seq<L>, columns: seq<L>) | Itself(value: V)

  /**
   * `_pd_hash_on_indexes`. Reading the labels of a series fails, because the
   * code reads a `columns` attribute a series does not have; `noColumns` is
   * the error that raises. (pandas would resolve `columns` to an element of a
   * series whose index holds the label `columns`; that case is not modelled.)
   */
  function PdHashOnIndexes<L, C, V, E>(arg: Arg<L, C, V>, noColumns: E): (r: Result<TableKey<L, V>, E>)
    ensures r.Success? <==> !arg.Series?
    ensures r.Success? ==> (r.value.Labels? <==> arg.DataFrame?)
  {
    match arg
    case DataFrame(index, columns, _) => Success(Labels(index, columns))
    case Series(_, _) => Failure(noColumns)
    case Other(v) => Success(Itself(v))
  }

  /** Any value that is not a table is its own fingerprint, and distinct ones stay distinct. */
  lemma NonTableIsItsOwnFingerprint<L, C, V, E>(a: Arg<L, C, V>, b: Arg<L, C, V>, noColumns: E)
    requires a.Other? && b.Other?
    ensures PdHashOnIndexes(a, noColumns) == Success(Itself(a.value))
    ensures PdHashOnIndexes(a, noColumns) == PdHashOnIndexes(b, noColumns) <==> a == b
  {
  }

  /** A data frame's fingerprint is its index labels and its column labels, in order. */
  lemma DataFrameFingerprint<L, C, V, E>(t: Arg<L, C, V>, noColumns: E)
    requires t.DataFrame?
    ensures PdHashOnIndexes(t, noColumns) == Success(Labels(t.index, t.columns))
  {
  }

  /** A series cannot be fingerprinted: the call raises before anything else happens. */
  lemma SeriesFingerprintFails<L, C, V, E>(t: Arg<L, C, V>, noColumns: E)
    requires t.Series?
    ensures PdHashOnIndexes(t, noColumns) == Failure(noColumns)
  {
  }

  /**
   * The fingerprint of a data frame is a function of its labels alone: two
   * frames get equal fingerprints exactly when their index and column labels
   * agree, however their cells differ.
   */
  lemma LabelsAloneDecide<L, C, V, E>(t1: Arg<L, C, V>, t2: Arg<L, C, V>, noColumns: E)
    requires t1.DataFrame? && t2.DataFrame?
    ensures PdHashOnIndexes(t1, noColumns) == PdHashOnIndexes(t2, noColumns) <==>
            t1.index == t2.index && t1.columns == t2.columns
  {
  }

  /** `t2` is `t1` with, at most, the cells of a data frame overwritten in place. */
  ghost predicate SameLabels<L, C, V>(t1: Arg<L, C, V>, t2: Arg<L, C, V>)
  {
    if t1.DataFrame? then t2.DataFrame? && t2.index == t1.index && t2.columns == t1.columns
    else t2 == t1
  }

  /** A call's arguments after some of its data frames had cells overwritten. */
  ghost predicate CellsOverwritten<L, C, V>(a: Arguments<Arg<L, C, V>>, b: Arguments<Arg<L, C, V>>)
  {
    && |a.positional| == |b.positional|
    && (forall i :: 0 <= i < |a.positional| ==> SameLabels(a.positional[i], b.positional[i]))
    && |a.keywords| == |b.keywords|
    && (forall i :: 0 <= i < |a.keywords| ==>
          a.keywords[i].0 == b.keywords[i].0 && SameLabels(a.keywords[i].1, b.keywords[i].1))
  }

  /** `pd_lru_cache(maxsize)` applied to `func`, as a configuration. */
  function PdConfig<L(==), C, V(==), R, E>(maxsize: Option<nat>, func: Arguments<Arg<L, C, V>> -> Result<R, E>, noColumns: E)
    : Config<Arg<L, C, V>, TableKey<L, V>, R, E>
  {
    Config(a => PdHashOnIndexes(a, noColumns), maxsize, func)
  }

  /** The fingerprint `pd_lru_cache` uses cannot tell a call's frames from the same frames with overwritten cells. */
  lemma PdConfigIgnoresCells<L, C, V, R, E>(
    maxsize: Option<nat>, func: Arguments<Arg<L, C, V>> -> Result<R, E>, noColumns: E,
    call1: Arguments<Arg<L, C, V>>, call2: Arguments<Arg<L, C, V>>)
    requires CellsOverwritten(call1, call2)
    ensures SameFingerprints(PdConfig(maxsize, func, noColumns).fingerprint, call1, call2)
  {
    var c := PdConfig(maxsize, func, noColumns);
    forall i | 0 <= i < |call1.positional|
      ensures c.fingerprint(call1.positional[i]) == c.fingerprint(call2.positional[i])
    {
      assert SameLabels(call1.positional[i], call2.positional[i]);
    }
    forall i | 0 <= i < |call1.keywords|
      ensures c.fingerprint(call1.keywords[i].1) == c.fingerprint(call2.keywords[i].1)
    {
      assert SameLabels(call1.keywords[i].1, call2.keywords[i].1);
    }
  }

  /**
   * Mutation blindness: after a successful call, a second call on the same
   * data frames with overwritten cells does not run `func` and returns the
   * earlier result, although `func` might compute something else on the new
   * cells. Holds while the entry is cached, so not with `maxsize` zero.
   */
  lemma MutationBlindness<L, C, V, R, E>(
    maxsize: Option<nat>, func: Arguments<Arg<L, C, V>> -> Result<R, E>, noColumns: E,
    s: State<TableKey<L, V>, R>, call1: Arguments<Arg<L, C, V>>, call2: Arguments<Arg<L, C, V>>)
    requires maxsize != Some(0) && Lru.Valid(s.entries, maxsize)
    requires CellsOverwritten(call1, call2)
    requires Invoke(PdConfig(maxsize, func, noColumns), s, call1).result.Success?
    ensures var c := PdConfig(maxsize, func, noColumns);
            var o1 := Invoke(c, s, call1);
            var o2 := Invoke(c, o1.state, call2);
            !o2.invoked && o2.result == o1.result
  {
    PdConfigIgnoresCells(maxsize, func, noColumns, call1, call2);
    SameKeyHitsAfterSuccess(PdConfig(maxsize, func, noColumns), s, call1, call2);
  }

  /** `pd_lru_cache(maxsize)(func)`: the generic wrapper with the tabular fingerprint. */
  method PdLruCache<L(==), C, V(==), R, E>(maxsize: Option<nat>, func: Arguments<Arg<L, C, V>> -> Result<R, E>, noColumns: E)
    returns (g: Memoized<Arg<L, C, V>, TableKey<L, V>, R, E>)
    ensures fresh(g) && g.Valid() && g.Snapshot() == Empty() && g.invocations == []
    ensures g.Configuration() == PdConfig(maxsize, func, noColumns)
  {
    g := new Memoized(a => PdHashOnIndexes(a, noColumns), maxsize, func);
  }
}
