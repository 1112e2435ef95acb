# mutable_lru_cache, modelled in Dafny

`lru_cache_factory(hash_func)` builds a decorator generator `mlru_cache(maxsize)`.
The decorator it returns memoises a function whose arguments may be unhashable.
Each call replaces every argument by its fingerprint, `hash_func(arg)`.
The tuple of positional fingerprints, together with the keyword names paired with their fingerprints, is the key into a `functools.lru_cache` owned by that one decorated function.
On a miss the original function runs on the original, unfingerprinted arguments.
On a hit the stored result is returned.
Lines 41-43 are meant to re-expose the cache's `cache_info` and `cache_clear` on the wrapper.
`pd_lru_cache` is the same factory applied to `_pd_hash_on_indexes`.
That fingerprint maps a data frame to its (index labels, column labels), a series to an error, and any other value to itself.
So overwriting a frame's cells does not change its cache key.

Files (one module each):

- `wrappers.dfy` holds `Option` and `Result`. `Failure(e)` stands for raising `e`.
- `lru.dfy` models the LRU cache by the documented `functools.lru_cache` behaviour.
  - It is a sequence of (key, value) entries, least recently used first.
  - `None` means unbounded, `0` means nothing is stored, and a positive size evicts the least recently used entry when full.
  - A hit moves its entry to the most recent position.
- `fingerprint.dfy` builds the key (lines 33-34 of `lru_cache_factory.py`). Arguments are fingerprinted left to right, positional ones first, and the first failure is what the call raises (with one exception for `StopIteration`, listed below).
- `memoize.dfy` holds the wrapper.
  - `Invoke` specifies one call on values.
  - The class `Memoized` is the decorated function: the fingerprint, `maxsize` and `func` as constants, and the cache entries and counters as fields updated in place. It has `Call`, `CacheInfo` and `CacheClear`.
  - `Memoized.Call` is proved to do exactly what `Invoke` says. The lemmas about `Invoke` state the caching rules.
- `tabular.dfy` holds `_pd_hash_on_indexes`, the `pd_lru_cache` composition and the mutation-blindness lemma.

Interfaces turned into parameters:
- `hash_func` is a value `A -> Result<K, E>` with an equality type `K`.
- The decorated function is a value `Arguments<A> -> Result<R, E>` taking the whole argument record.
- Fingerprint errors and `func` errors share one error type `E`, because exceptions propagate unchanged (again except `StopIteration` in a positional argument, listed below).
- `Memoized.invocations` is a ghost record of the argument lists `func` was run on. It plays the part of a call counter on `func`.

Where the code and its description differ, or the code does not do what it evidently means to, each item says which one the model follows. The three defects claimed below come from reading the code; none of them was executed.
- **Series objects (defect, not executed; the model follows the code).** `lru_cache_pandas.py:16-17` accepts a series but then reads `arg.columns`, which a series does not have. Fingerprinting a series therefore raises. The exception is a series whose index holds the label `columns`, for which pandas returns that element; that case is not modelled. The model returns `Failure(noColumns)` for a series and invents no column label.
- **Missing import (defect, not executed; the model follows the intent).** `lru_cache_pandas.py:22` calls `lru_cache_factory`, but line 1 imports only pandas, so the module as written fails when it is imported. The model composes the two as evidently intended (`Tabular.PdConfig`, `Tabular.PdLruCache`).
- **Forwarding of `cache_*` (defect, not executed; the model follows the intent).** Lines 41-43 copy the `cache_`-prefixed entries of `vars(cached_func)`. Under CPython, `functools.lru_cache` is the C wrapper type. On that type `cache_info` and `cache_clear` are methods of the type, not entries of the instance dictionary. So the loop copies only `cache_parameters`, and `_func.cache_info()` raises `AttributeError`. `Memoized.CacheInfo` and `Memoized.CacheClear` model the evidently intended forwarding. With the pure-Python `lru_cache`, which sets both as instance attributes, the loop works as written.
- **`StopIteration` from a positional fingerprint (not executed; the model follows the description).** Line 33 builds the positional key with a generator expression. Python turns a `StopIteration` raised inside a generator into `RuntimeError`. Line 34 is a dict comprehension, where no such conversion happens. So for the same failing value the code raises `RuntimeError` for `_func(x)` and `StopIteration` for `_func(k=x)`. The model raises the fingerprint's own error in both cases.
- **Keyword order (the model follows the code).** `functools.lru_cache` builds its key from the keyword items in call order. So `f(a=1, b=2)` and `f(b=2, a=1)` are different keys, and keyword order is not irrelevant to lookup. The model keys keywords as an ordered sequence (`Fingerprint.KeywordOrderMatters`).
- **Failed calls count as misses.** `functools.lru_cache` counts the miss before calling the function. A call whose function raises stores nothing but still counts as a miss. Only a fingerprint failure leaves the counters untouched, because it happens before the cache is entered.

## Model

| member | source | states |
|---|---|---|
| `Lru.Find` | lru_cache_factory.py:24 | The position found holds the key and no earlier position does. The result is `None` exactly when no entry has the key. |
| `Lru.Lookup` | lru_cache_factory.py:24 | Reads the cache as a dictionary. There is a value exactly when some entry has the key. With distinct keys the value is that entry's. |
| `Lru.Touch` | lru_cache_factory.py:24 | On a hit, the hit entry becomes the most recent. The other entries keep their relative order, and the multiset of entries is unchanged. |
| `Lru.Store` | lru_cache_factory.py:24 | With size 0 nothing is stored. Otherwise the new entry is the most recent. When the cache is full, exactly the oldest entry is dropped and the rest are kept in order. |
| `Lru.TouchKeepsContents` | lru_cache_factory.py:24 | A hit keeps distinct keys and the size bound. Every key still maps to the same value. |
| `Lru.StoreContents` | lru_cache_factory.py:24 | Storing an absent key keeps the invariant, including the size never exceeding `maxsize`. The new key maps to its value. Every other key keeps its value, except the evicted least recently used key. Size 0 leaves the cache empty. |
| `Fingerprint.FingerprintPositional` | lru_cache_factory.py:33 | Succeeds exactly when every argument fingerprints. Then it has one element per argument, and element i is `hash_func(args[i])`. On failure the error is that of the first failing argument. |
| `Fingerprint.FingerprintKeywords` | lru_cache_factory.py:34 | Succeeds exactly when every value fingerprints. Then the names are exactly the caller's, in the caller's order, each paired with `hash_func` of its value. On failure the error is that of the first failing value. |
| `Fingerprint.MakeKey` | lru_cache_factory.py:33-34 | The key of one call. It succeeds exactly when every argument fingerprints, and then it has one positional fingerprint per positional argument and one keyword pair per keyword argument. Its further properties are in `MakeKeyShape` and `MakeKeyCongruent`. |
| `Fingerprint.MakeKeyShape` | lru_cache_factory.py:33-34 | The key succeeds exactly when all arguments fingerprint, and it has the shape above. On failure the error is the first failing positional argument's, or, if no positional argument fails, the first failing keyword value's. |
| `Fingerprint.MakeKeyCongruent` | lru_cache_factory.py:33-34 | Calls whose arguments fingerprint alike, with the same keyword names, get the same key or the same error. |
| `Fingerprint.SameKeySameFingerprints` | lru_cache_factory.py:33-34 | Two calls that get the same successful key had arguments that fingerprint alike, under the same keyword names. With `MakeKeyCongruent` this makes key equality exactly fingerprint equality. |
| `Fingerprint.KeywordOrderMatters` | lru_cache_factory.py:34 | Two calls whose arguments all fingerprint but whose keyword names differ at some position get different keys. Keyword names in one call are distinct, so any reordering of the same keyword arguments puts different names at some position. Such a reordering, for example `f(a=x, b=y)` against `f(b=y, a=x)`, therefore gives a different key. |
| `Memoize.Invoke` | lru_cache_factory.py:31-38 | One call of the wrapper. If an argument fails to fingerprint, nothing changes, `func` does not run and the call fails. When `func` runs, its result is returned, misses go up by one and hits stay. Otherwise the call is a hit: it succeeds, hits go up by one and misses stay. The details are in `HitReturnsStored`, `MissInvokesFunc`, `FingerprintFailureChangesNothing`, `FailureNotCached` and `CountersAccount`. |
| `Memoize.Info` | lru_cache_factory.py:41-43 | The report `cache_info()` gives. For a cache within its bound, the reported size never exceeds `maxsize`, and it is 0 when `maxsize` is 0. The counts are related to the calls made by `CountersAccount`. |
| `Memoize.InvokeKeepsValid` | lru_cache_factory.py:24-38 | Every call keeps distinct keys and at most `maxsize` entries. With `maxsize` 0 the cache stays empty. |
| `Memoize.FingerprintFailureChangesNothing` | lru_cache_factory.py:33-38 | If any argument fails to fingerprint, the call fails, `func` does not run, and the cache and both counters are unchanged. The error is the first failing positional argument's. If no positional argument fails, it is the first failing keyword value's. |
| `Memoize.HitReturnsStored` | lru_cache_factory.py:24-38 | On a cached key, `func` does not run and the stored value is returned. Hits go up by one and misses stay. Every key keeps its value and the size is unchanged; the key becomes the most recent. |
| `Memoize.MissInvokesFunc` | lru_cache_factory.py:24-38 | On an uncached key, `func` runs on the original arguments and its result is returned. Misses go up by one and hits stay. A success is stored under the key, unless the size is 0, and evicts only the least recently used key. A failure leaves the cache as it was. |
| `Fingerprint.SwappedKeywordsDiffer` | lru_cache_factory.py:34 | `f(a=x, b=y)` and `f(b=y, a=x)` get different keys when `x` and `y` fingerprint. |
| `Memoize.SameKeyHitsAfterSuccess` | lru_cache_factory.py:31-38 | With `maxsize` not 0 and a valid cache, after a successful call, a second call whose arguments fingerprint alike does not run `func`. It returns the first result and counts a hit. |
| `Memoize.FailureNotCached` | lru_cache_factory.py:24-38 | When `func` raises, the error is returned and nothing is stored. An identical later call runs `func` again and counts a second miss. |
| `Memoize.LeastRecentlyUsedIsEvicted` | lru_cache_factory.py:24 | With `maxsize` 2, after three distinct successful keys k1, k2, k3, the cache holds two entries. Calling again with k1 runs `func` again. |
| `Memoize.CountersAccount` | lru_cache_factory.py:41-43 | Over any sequence of calls, the misses `cache_info` reports grow by exactly the number of runs of `func`. Hits plus misses grow by exactly the number of calls that reached the cache. |
| `Memoize.ClearedCacheMisses` | lru_cache_factory.py:41-43 | A cleared cache reports zero hits, zero misses and size 0. Its next call whose arguments fingerprint runs `func` and reports one miss. |
| `Memoize.Memoized.constructor` | lru_cache_factory.py:21-25 | Applying the decorator gives a wrapper with its own empty cache, zero counters and the given configuration. |
| `Memoize.Memoized.Call` | lru_cache_factory.py:31-38 | The new cache, the counters and the returned result are exactly those `Invoke` gives. `func` was run on the call's arguments exactly when `Invoke` says a miss ran it. The invariant is kept. |
| `Memoize.Memoized.CacheInfo` | lru_cache_factory.py:41-43 | Reports this wrapper's hits, misses, current size and `maxsize`. |
| `Memoize.Memoized.CacheClear` | lru_cache_factory.py:41-43 | From any state, empties the cache and zeroes both counters, and the invariant holds afterwards. |
| `Memoize.SeparateCaches` | lru_cache_factory.py:21-25 | Calling one decorated function leaves another one's cache, counters and runs unchanged. |
| `Tabular.PdHashOnIndexes` | lru_cache_pandas.py:4-19 | `_pd_hash_on_indexes`. It succeeds for everything except a series. A successful fingerprint is a label pair exactly when the argument is a data frame. The lemmas below state the branches: `DataFrameFingerprint`, `NonTableIsItsOwnFingerprint`, `SeriesFingerprintFails` and `LabelsAloneDecide`. |
| `Tabular.NonTableIsItsOwnFingerprint` | lru_cache_pandas.py:18-19 | A non-table value's fingerprint is the value itself. Two such fingerprints are equal exactly when the values are. |
| `Tabular.DataFrameFingerprint` | lru_cache_pandas.py:16-17 | A frame's fingerprint is its index and column labels, in order. The model takes `|index|` and `|columns|` as the row and column counts, and does not tie `cells` to that shape. |
| `Tabular.SeriesFingerprintFails` | lru_cache_pandas.py:16-17 | A series cannot be fingerprinted, because it has no `columns`. |
| `Tabular.LabelsAloneDecide` | lru_cache_pandas.py:9-17 | Two frames have equal fingerprints if and only if their index and column labels agree, whatever their cells. |
| `Tabular.PdConfigIgnoresCells` | lru_cache_pandas.py:12-22 | Under the fingerprint `pd_lru_cache` uses, a call's arguments and the same arguments with the frames' cells overwritten fingerprint alike. |
| `Tabular.MutationBlindness` | lru_cache_pandas.py:12-22 | Through `pd_lru_cache`, with `maxsize` not 0 and a valid cache, a successful call followed by a call on the same frames with overwritten cells does not run `func`. The second call returns the first result. |
| `Tabular.PdLruCache` | lru_cache_pandas.py:22 | `pd_lru_cache(maxsize)(func)` is the generic wrapper built with the tabular fingerprint, with a fresh empty cache. |

## Left out

- Fingerprint.FingerprintPositional: does not model Python's conversion of a `StopIteration` raised by `hash_func` inside the generator at line 33 into `RuntimeError`. It gives the fingerprint's own error instead. The error clauses of `Fingerprint.MakeKeyShape` and `Memoize.FingerprintFailureChangesNothing` inherit this gap. The model has no exception classes to tell `StopIteration` apart from other errors.

- `functools.lru_cache` internals are not modelled: its linked list, its lock, its C implementation, the single-argument fast-path key, the `typed` flag and `cache_parameters`. Only its documented behaviour is modelled.
- CPython does not reorder entries on a hit when `maxsize` is `None`. The model reorders them, which makes no observable difference because an unbounded cache never evicts.
- A negative `maxsize`, which `lru_cache` treats as 0, is not modelled: `maxsize` is `Option<nat>`.
- The bare decorator form `@mlru_cache`, which passes the function as `maxsize`, is not modelled. The configuration is `maxsize` only.
- `functools.wraps` metadata copying (lines 15 and 30) is not modelled.
- The reflective `setattr` loop over `cache_*` attributes (lines 41-43) is not modelled as reflection. It appears as the explicit `CacheInfo` and `CacheClear` methods.
- Concurrency and re-entrancy are not modelled: the shared `cached_func.f` attribute set on line 37, races between threads, and recursive calls of the decorated function. These are also why `lru_cache` re-checks a key after computing it, which is not modelled either. The model is strictly sequential.
- Unhashable fingerprint results, which make `lru_cache` raise `TypeError`, cannot arise: the key type is an equality type.
- In Python a plain argument equal to the tuple `(tuple(index), tuple(columns))` collides with a data frame's key. The model's key type separates the two cases (`Labels` against `Itself`), so that collision is not modelled.
- pandas internals (index objects, dtypes, cell storage, label hashability) are abstract type parameters.
- Side effects of `func` other than its result are not modelled. `func` is a value on its arguments, and reading a frame's cells is modelled by those cells being part of the argument.
- The default `maxsize=128` is not modelled. `mlru_cache()` with no arguments passes no `maxsize`, and `lru_cache` then uses 128. The model always takes `maxsize` explicitly; the default is `Some(128)`.
- Reference semantics of results are not modelled. In Python a hit returns the stored object itself, so mutating a returned result changes what later hits return. The model stores and returns values.
