# Elasticsearch connector: cache keys, memoisation and query bodies

A Dafny model of the pure logic inside a small Python connector that reads
and writes pandas DataFrames against Elasticsearch:

- the `cacheable` decorator in `es_connector.py`, which turns the keyword
  arguments of a `get_df` call into a cache file name and decides between
  serving a pickled result and calling the method;
- the query body that `get_df` builds from its dates, filter groups and
  column list;
- the two builders of `ElasticsearchQueries` in `es_queries.py`: the
  index-creation body (column types to property descriptors) and the
  single-day timestamp window used to count rows.

Modules:

| module | file | contents |
|---|---|---|
| `Wrappers` | `wrappers.dfy` | `Option`, and `Outcome` (a call returns or raises) |
| `Ordering` | `ordering.dfy` | Python's `<=` on `str` and on `(str, str)` tuples; total order lemmas |
| `Sorting` | `sorting.dfy` | `list.sort()` as insertion sort; a sorted permutation is unique |
| `CacheKey` | `cache_key.dfy` | keyword arguments, date and filter normalisation, the key string |
| `Memo` | `memo.dfy` | one wrapped call as a step over a store; repeated calls |
| `GetDfQuery` | `get_df_query.dfy` | the `get_df` query tree and how it relates to the key |
| `EsQueries` | `es_queries.dfy` | index-creation body and the row-count window |

Modelling choices:

- The pickle directory is a `map<string, R>` from key to stored result. The
  wrapped method is a function from the call's keyword arguments to an
  `Outcome` (a value or an exception); a run of calls takes one such
  function per call, so a target whose answer changes over time can be
  expressed.
- `md5(str(pairs)).hexdigest()` and `strftime('%Y-%m-%d')` are the two
  function-valued fields of `KeyEnv` and stay uninterpreted. Statements that
  need distinct digests for distinct pair lists take `Injective(env.md5)`
  as a hypothesis.
- Filter values are strings, so the Python sort compares `(str, str)`
  tuples; `Ordering` defines that order and proves it total, antisymmetric
  and transitive, which is what makes the sorted list unique.
- A filter keyword is `Absent` (missing or `None`) or a sequence of items
  flagged as a Python `list` or not. The wrapper's `isinstance(.., list)`
  test ignores non-lists while `get_df` iterates them.
- Datetimes are whole seconds since the epoch and a day is 86400 seconds.
  Dafny's `/` and `%` by a positive constant floor, as truncating a
  datetime to midnight does.
- The index-creation `columns` dict is a `map` from column name to type
  tag; the Python loop over its items becomes a loop over the key set.
- The `{name, value}` must-not clause of `get_df` is a Python set literal,
  and the model keeps it a `set<string>`.

In three places a more defensive cache would behave differently. The key
is not sanitised, so a `/` in it (from a string date such as
`"2024/01/31"`) becomes a path separator in the cache path. An unreadable
cache entry is not treated as a miss: the read raises. A failed cache write
is not swallowed: it raises after the method ran. The model keeps keys as
plain strings and leaves all three failure paths out (see below).

Properties of the code that the proofs bring out:

- The key does not record whether a pair came from `query_params_must` or
  `query_params_must_not`, and `doc_type` and `columns` are not in the key.
  So two calls that build different queries can share one cache entry
  (`GetDfQuery.KeyCollisionAcrossQueries`, `GetDfQuery.ColumnsShapeQueryOnly`).
- `query_params_must_not` reaches the query whenever it and
  `query_params_must` are truthy, and the key whenever it is a list. So a
  must-not tuple of pairs changes the query but not the key
  (`GetDfQuery.NonListMustNotShapesQueryOnly`), and a must-not list given
  without a must filter changes the key but not the query
  (`GetDfQuery.MustNotAloneIgnored`).
- The key forgets how the must pairs were grouped. `[{a: 1, b: 2}]` (a AND
  b) and `[{a: 1}, {b: 2}]` (a OR b) share a key but build different
  queries (`GetDfQuery.MustGroupingShapesQueryOnly`).
- The key keeps only the calendar day of a datetime (`strftime('%Y-%m-%d')`),
  while the range filter keeps the full datetime. So `end_date` at 12:00 and
  at 23:00 of one day share a cache entry, and the second call is served
  the rows of the first (`GetDfQuery.TimeOfDayShapesQueryOnly`).
- The key depends on the multiset of pairs, not the set: the lists keep
  duplicates and the whole list is hashed. So `[{a: 1}, {a: 1}]` (a OR a)
  and `[{a: 1}]` select the same documents but get different keys, and the
  second call misses (`CacheKey.DuplicateGroupSplitsKey`).
- Fields are joined with `_` without escaping, so different index/date
  combinations can produce one key (`CacheKey.FieldBoundaryAmbiguity`).

## Model

| member | source | states |
|---|---|---|
| `Ordering.PairLe` | es_connector.py:68 | Python's `<=` on `(str, str)` tuples; a pair ordered before another never has a larger field name |
| `Ordering.PairLeTotal` | es_connector.py:68 | any two filter pairs are comparable under Python's tuple order |
| `Ordering.PairLeAntisymmetric` | es_connector.py:68 | two pairs each ordered before the other are the same pair |
| `Ordering.PairLeTransitive` | es_connector.py:68 | the tuple order on filter pairs is transitive |
| `Sorting.Sort` | es_connector.py:66-69 | the sorted pair list is ordered and is a permutation of the collected pairs |
| `Sorting.SortedUnique` | es_connector.py:66-69 | two ordered lists with the same multiset of pairs are identical, so the hashed list is unique |
| `Sorting.SortDeterminedByMultiset` | es_connector.py:66-69 | permutations of the collected pairs sort to the same list |
| `CacheKey.NormalizeDate` | es_connector.py:44-49 | a missing or falsy date becomes the sentinel, a datetime its formatted day, any other string stays as it is |
| `CacheKey.FlattenMembers` | es_connector.py:54-57 | the pairs collected from the must dicts are exactly the items of those dicts |
| `CacheKey.QueryPairs` | es_connector.py:52-61 | every item of a must list and every tuple of a must-not list appears, and nothing else; a filter that is not a list contributes nothing |
| `CacheKey.FlattenCount` | es_connector.py:54-57 | a pair is collected once for every must dict that holds it |
| `CacheKey.QueryPairsCount` | es_connector.py:52-61 | duplicates are kept: a pair occurs once per must dict of a must list holding it plus once per equal tuple of a must-not list |
| `CacheKey.Key` | es_connector.py:63-70 | the key starts with `{name}_{index}_from_{start}_to_{end}` and is longer than that exactly when some filter pair was collected |
| `CacheKey.KeyShape` | es_connector.py:63-70 | the key is `{name}_{index}_from_{start}_to_{end}`, with `_` and the digest of the sorted pairs appended iff there is at least one pair |
| `CacheKey.EquivalentDatesShareKey` | es_connector.py:44-49 | `None` and `""` give the same key as the sentinel string (`EmptyStartDate` for the start, `EmptyEndDate` for the end); a datetime gives the same key as its formatted day written as a string |
| `CacheKey.FlattenGroupPermutation` | es_connector.py:54-57 | reordering the must dicts leaves the multiset of collected pairs unchanged |
| `CacheKey.FlattenItemPermutation` | es_connector.py:54-57 | reordering the items inside each must dict leaves the multiset of collected pairs unchanged |
| `CacheKey.KeyDeterminedByPairMultiset` | es_connector.py:52-70 | calls with the same name, index and normalised dates and the same multiset of pairs get the same key |
| `CacheKey.KeySensitiveToPairs` | es_connector.py:64-70 | with an injective digest and the same header, keys are equal iff the pair multisets are equal |
| `CacheKey.MustGroupOrderIrrelevant` | es_connector.py:54-69 | reordering the must dicts does not change the key |
| `CacheKey.MustItemOrderIrrelevant` | es_connector.py:54-69 | reordering the items within the must dicts does not change the key |
| `CacheKey.MustNotOrderIrrelevant` | es_connector.py:59-69 | reordering the must-not tuples does not change the key |
| `CacheKey.EmptyFiltersCollapse` | es_connector.py:54-66 | missing, `None`, empty or non-list filters add no digest, and give the key of a call with no filters |
| `CacheKey.MustAndMustNotShareKey` | es_connector.py:52-70 | a pair required by the must list and the same pair in the must-not list give one key |
| `CacheKey.DuplicateGroupSplitsKey` | es_connector.py:52-70 | with an injective digest, a must list naming one pair twice and one naming it once get different keys |
| `CacheKey.MustGroupingForgotten` | es_connector.py:54-70 | one must dict with two pairs and two must dicts with one pair each give the same key |
| `CacheKey.PassThroughArgsNotInKey` | es_connector.py:41-64 | `doc_type` and `columns` do not affect the key |
| `CacheKey.FieldBoundaryAmbiguity` | es_connector.py:64 | index `x_from_a` with start `b` and index `x` with start `a_from_b` give the same key |
| `Memo.Invoke` | es_connector.py:37-84 | caching off runs the target and leaves the store alone; otherwise, for sequential calls, the store only grows, a call that skips the target returns the stored entry, a returned value ends up stored under the key, and an exception stores nothing |
| `Memo.HitServesStored` | es_connector.py:74-78 | a key in the store returns its entry without running the target and without changing the store |
| `Memo.MissRunsTarget` | es_connector.py:79-84 | a key not in the store runs the target once; a returned value is stored under the key and returned, an exception leaves the store unchanged |
| `Memo.SecondCallHits` | es_connector.py:72-84 | after a successful call, the same call is a hit that returns the same value, whatever the target would now return |
| `Memo.EquivalentCallsShareEntry` | es_connector.py:63-84 | two calls with equal keys are served one stored entry |
| `Memo.Repeat` | es_connector.py:37-84 | a sequential run of calls yields one outcome per call, never more target runs than calls, and never loses or replaces a stored entry |
| `Memo.StoredEntryServesAll` | es_connector.py:74-78 | once the key is stored, every later call returns that entry and the target never runs |
| `Memo.TargetRunsOnce` | es_connector.py:72-84 | with caching on and a first call that returns, the target runs exactly once over any number of identical calls, and all return the first value |
| `Memo.BypassRunsEveryCall` | es_connector.py:38-39 | with caching off, every call runs the target and returns its outcome, and the store is never written |
| `Memo.FailureIsNotCached` | es_connector.py:79-82 | a raising call stores nothing, so the next call runs the target again |
| `GetDfQuery.Groups` | es_connector.py:254-271 | one group per must dict, matching its items in order; every group carries the must-not clauses iff the must-not filter is truthy |
| `GetDfQuery.BuildQuery` | es_connector.py:240-290 | a range filter iff both dates are truthy (placed first, dates unchanged), a should clause of the must groups iff the must filter is truthy, nothing else; `_source` is the columns iff they are truthy |
| `GetDfQuery.QueryStructure` | es_connector.py:240-290 | a timestamp range, first and with the dates unchanged, iff both dates are truthy; a should clause iff the must filter is truthy; no other filters; `_source` iff columns is truthy, equal to columns |
| `GetDfQuery.ShouldGroups` | es_connector.py:254-271 | one group per must dict, matching its items in order; must-not clauses on every group iff the must-not filter is truthy, each the set `{name, value}` of its tuple |
| `GetDfQuery.QueryMatchesKeyedMustPairs` | es_connector.py:254-266 | for a non-empty must list, the pairs matched by the should groups are exactly the must pairs the key hashes |
| `GetDfQuery.SetMatchIsUnordered` | es_connector.py:269 | the must-not clause is the same for `(name, value)` and `(value, name)`, and has one element when they are equal |
| `GetDfQuery.MustNotAloneIgnored` | es_connector.py:254-279 | without a truthy must filter the must-not filter has no effect on the query |
| `GetDfQuery.KeyCollisionAcrossQueries` | es_connector.py:254-279 | a pair given as required and the same pair given as excluded build different queries under one key |
| `GetDfQuery.NonListMustShapesQueryOnly` | es_connector.py:254-258 | a non-empty must tuple adds a should clause to the query but nothing to the key |
| `GetDfQuery.NonListMustNotShapesQueryOnly` | es_connector.py:254-271 | with a truthy must filter, a must-not tuple of pairs changes the query but leaves the key as if no must-not filter were given |
| `GetDfQuery.MustGroupingShapesQueryOnly` | es_connector.py:254-266 | one must dict with two pairs (AND) and two dicts with one pair each (OR) share a key but build different queries |
| `GetDfQuery.TimeOfDayShapesQueryOnly` | es_connector.py:44-49 | when the date formatter keeps only the day, two datetimes on one day give one key, yet the range filter carries each full datetime, so the queries differ when the other date is truthy |
| `GetDfQuery.ColumnsShapeQueryOnly` | es_connector.py:289-290 | columns set `_source` but leave the key unchanged |
| `EsQueries.ApplyColumn` | es_queries.py:19-43 | the per-column branches, including the float branch that falls through, set the table's descriptor for a tabled type and leave the properties unchanged otherwise |
| `EsQueries.ColumnProperties` | es_queries.py:18-43 | the property keys are exactly the columns whose type is in the table, each with its descriptor; so they are a subset of the columns |
| `EsQueries.CreateNewIndexQuery` | es_queries.py:8-58 | settings carry the given shard and replica counts; one mapping keyed by the index name, `dynamic: strict`, holding the column properties |
| `EsQueries.DefaultIndexQueryExample` | es_queries.py:8-56 | defaults are one shard and one replica; datetime64 maps to date with `strict_date_hour_minute_second`, float64 to float, int64 to integer, str and object to text, other types are omitted |
| `EsQueries.CountRowsQuery` | es_queries.py:69-84 | with an end date both bounds pass unchanged; without one the window starts at the start's midnight, lasts 86399 seconds and lies within that calendar day |
| `EsQueries.SingleDayWindow` | es_queries.py:69-72 | start dates on one day give one window, and it contains exactly the datetimes of that day |

## Left out

- Elasticsearch client calls (`indices.create`, `indices.exists`, `count`,
  `bulk`, `scan`) and the methods that are only glue around them:
  `create_es_index`, `count_num_of_rows`, `put_df`. They are network I/O.
- `get_df`'s early return of an empty DataFrame when the index does not
  exist, the scan over the results and the DataFrame built from them: I/O
  and pandas. Only the query body it sends is modelled.
- The cache directory, file existence test, `open` and `pickle`: replaced
  by an in-memory map. A corrupt pickle makes the read raise and a failed
  write raises after the method ran; neither failure path is modelled.
- md5 and `strftime`: left uninterpreted in `KeyEnv`. No property depends
  on the digest's length or alphabet. Two properties of the date format are
  assumed where they are used: that it keeps the day and drops the time
  (the hypothesis `GetDfQuery.FormatsDayOnly`), and that a given datetime
  formats to a non-empty string (the `env.formatDay(t) != ""` requirement
  of `CacheKey.EquivalentDatesShareKey`).
- Memo.Invoke: a key containing `/` is not modelled as a failure. The cache
  path (es_connector.py:73) then names a file in a subdirectory of the
  cache directory, which is never created (only the directory itself is,
  by the `mkdir` at es_connector.py:17). Unless it exists, every call with such a key is
  a miss that runs the method and then raises when the write at
  es_connector.py:81 cannot open the file; the model instead stores the
  result and serves it on the next call.
- Logging and the module-level configuration (`cache_dir`, `caching_on`,
  the logger); `caching_on` is a parameter of `Memo.Invoke`.
- Filter values of non-string types and Python's ordering of mixed-type
  tuples; all filter fields and values are strings.
- Date arguments other than `None`, `str` and `datetime` (for instance a
  `date` or a number); their truthiness and `str()` form are not modelled.
- Arguments passed positionally: the wrapper reads only `kwargs`, which the
  model represents directly; a value not passed by keyword is `None` to it.
- Concurrent callers: calls are modelled as sequential, which is what
  makes the store write-once (`Memo.Invoke`, `Memo.Repeat`). The source
  holds no lock between the existence test (es_connector.py:74) and the
  write (es_connector.py:81). Two processes sharing the cache directory
  that both miss both run the method, and the later write truncates and
  replaces the earlier entry; a reader racing a writer can load a
  half-written pickle and raise.
- A failed cache write leaves a truncated file behind: if `pickle.dump`
  fails at es_connector.py:82, the file opened for writing stays, and every
  later call with that key takes the hit branch and raises at
  es_connector.py:76 until the file is deleted. The model has no failed
  writes and no unreadable entries.
- Sub-second precision and time zones in `get_query_count_num_of_rows`:
  datetimes are whole seconds in one fixed zone.
- Duplicate keys inside one must dict: a Python dict cannot have them, and
  the model does not rule them out because no property needs it.
