/** The query body `get_df` (es_connector.py) sends to the search engine, as
    a small tree. Python dicts of fixed shape become datatypes. */
module GetDfQuery {
  import opened Wrappers
  import opened Ordering
  import opened CacheKey
  import EsQueries

  /** `{'match': {field: value}}`. */
  datatype Match = Match(field: string, value: string)

  /** `{'match': {name, value}}`: the inner braces build a Python set, not a
      dict, so the clause holds an unordered collection of one or two strings. */
  datatype SetMatch = SetMatch(terms: set<string>)

  /** `{'bool': {'must': [...]}}`, with a `must_not` entry only when one was
      attached. */
  datatype Group = Group(must: seq<Match>, mustNot: Option<seq<SetMatch>>)

  /** One entry of the top-level filter list. */
  datatype Filter =
    | TimestampRange(gte: DateArg, lte: DateArg)   // {'range': {'timestamp': {'gte': .., 'lte': ..}}}
    | Should(groups: seq<Group>)                   // {'bool': {'should': [...]}}

  /** `{'query': {'bool': {'filter': filters}}}` plus `_source` when set. */
  datatype Query = Query(filters: seq<Filter>, source: Option<seq<string>>)

  /** Python truthiness of `columns`: a non-empty list. */
  predicate ColumnsTruthy(c: Option<seq<string>>) {
    c.Some? && |c.value| > 0
  }

  /** The match clauses of one must dict, in item order. */
  function Matches(d: Dict): (r: seq<Match>)
    ensures |r| == |d|
    ensures forall i :: 0 <= i < |d| ==> r[i].field == d[i].0 && r[i].value == d[i].1
  {
    seq(|d|, i requires 0 <= i < |d| => Match(d[i].0, d[i].1))
  }

  /** The must-not clauses, one per tuple. */
  function SetMatches(items: seq<Pair>): (r: seq<SetMatch>)
    ensures |r| == |items|
    ensures forall i :: 0 <= i < |items| ==> r[i].terms == {items[i].0, items[i].1}
  {
    seq(|items|, i requires 0 <= i < |items| => SetMatch({items[i].0, items[i].1}))
  }

  /** One `bool/must` group per must dict, each carrying the same must-not
      clauses when `query_params_must_not` is truthy. */
  function Groups(must: seq<Dict>, mustNot: FilterArg<Pair>): (r: seq<Group>)
    // one group per dict, matching its items in order
    ensures |r| == |must|
    ensures forall i :: 0 <= i < |r| ==> MatchPairs(r[i].must) == must[i]
    // every group carries the must-not clauses iff the must-not filter is truthy
    ensures forall i :: 0 <= i < |r| ==> (r[i].mustNot.Some? <==> FilterTruthy(mustNot))
    ensures forall i :: 0 <= i < |r| && r[i].mustNot.Some? ==>
              mustNot.Given? && r[i].mustNot.value == SetMatches(mustNot.items)
  {
    var attached := if FilterTruthy(mustNot) then Some(SetMatches(mustNot.items)) else None;
    seq(|must|, i requires 0 <= i < |must| => Group(Matches(must[i]), attached))
  }

  /** The query body of `get_df` for the given keyword arguments. */
  function BuildQuery(a: KwArgs): (q: Query)
    // a range exactly when both dates are truthy, a should clause exactly
    // when the must filter is truthy, and nothing else
    ensures HasRange(q) <==> DateTruthy(a.startDate) && DateTruthy(a.endDate)
    ensures HasShould(q) <==> FilterTruthy(a.must)
    ensures |q.filters| == (if DateTruthy(a.startDate) && DateTruthy(a.endDate) then 1 else 0)
                         + (if FilterTruthy(a.must) then 1 else 0)
    // a range comes first and carries the dates unchanged
    ensures forall i :: 0 <= i < |q.filters| && q.filters[i].TimestampRange? ==>
              i == 0 && q.filters[i] == TimestampRange(a.startDate, a.endDate)
    // a should clause holds the groups built from the must dicts
    ensures forall i :: 0 <= i < |q.filters| && q.filters[i].Should? ==>
              a.must.Given? && q.filters[i].groups == Groups(a.must.items, a.mustNot)
    // `_source` is the column list, present iff it is truthy
    ensures q.source.Some? <==> ColumnsTruthy(a.columns)
    ensures q.source.Some? ==> q.source == a.columns
  {
    var range := if DateTruthy(a.startDate) && DateTruthy(a.endDate)
                 then [TimestampRange(a.startDate, a.endDate)] else [];
    var should := if FilterTruthy(a.must) then [Should(Groups(a.must.items, a.mustNot))] else [];
    var filters := range + should;
    assert |range| > 0 ==> filters[0].TimestampRange?;
    assert |should| > 0 ==> filters[|filters| - 1].Should?;
    Query(filters, if ColumnsTruthy(a.columns) then Some(a.columns.value) else None)
  }

  // ---------------------------------------------------------------------
  // Reading a query back
  // ---------------------------------------------------------------------

  predicate HasRange(q: Query) {
    exists i :: 0 <= i < |q.filters| && q.filters[i].TimestampRange?
  }

  predicate HasShould(q: Query) {
    exists i :: 0 <= i < |q.filters| && q.filters[i].Should?
  }

  /** The (field, value) pairs of a list of match clauses. */
  function MatchPairs(ms: seq<Match>): (r: seq<Pair>)
    ensures |r| == |ms|
  {
    seq(|ms|, i requires 0 <= i < |ms| => (ms[i].field, ms[i].value))
  }

  /** The must pairs of a list of groups, group after group. */
  function GroupPairs(gs: seq<Group>): seq<Pair>
    decreases |gs|
  {
    if |gs| == 0 then [] else MatchPairs(gs[0].must) + GroupPairs(gs[1..])
  }

  /** The structure of the query: a timestamp range exactly when both dates
      are truthy, carrying them unchanged and placed first; a `should` clause
      exactly when `query_params_must` is truthy, with one group per dict and
      the must-not clauses on every group exactly when `query_params_must_not`
      is truthy as well; `_source` exactly when `columns` is truthy. */
  lemma QueryStructure(a: KwArgs)
    ensures var q := BuildQuery(a);
      && (HasRange(q) <==> DateTruthy(a.startDate) && DateTruthy(a.endDate))
      && (HasRange(q) ==> q.filters[0] == TimestampRange(a.startDate, a.endDate))
      && (HasShould(q) <==> FilterTruthy(a.must))
      && |q.filters| == (if HasRange(q) then 1 else 0) + (if HasShould(q) then 1 else 0)
      && (q.source.Some? <==> ColumnsTruthy(a.columns))
      && (q.source.Some? ==> q.source == a.columns)
  {
    var q := BuildQuery(a);
    if DateTruthy(a.startDate) && DateTruthy(a.endDate) {
      assert q.filters[0].TimestampRange?;
    }
    if FilterTruthy(a.must) {
      assert q.filters[|q.filters| - 1].Should?;
    }
  }

  /** Every should group mirrors its must dict, and the must-not clauses are
      attached to every group exactly when `query_params_must_not` is truthy,
      one set `{name, value}` per tuple. */
  lemma ShouldGroups(a: KwArgs)
    requires FilterTruthy(a.must)
    ensures var q := BuildQuery(a);
            var gs := q.filters[|q.filters| - 1].groups;
      && q.filters[|q.filters| - 1].Should?
      && |gs| == |a.must.items|
      && (forall i :: 0 <= i < |gs| ==> MatchPairs(gs[i].must) == a.must.items[i])
      && (forall i :: 0 <= i < |gs| ==> (gs[i].mustNot.Some? <==> FilterTruthy(a.mustNot)))
      && (forall i, j :: 0 <= i < |gs| && gs[i].mustNot.Some? && 0 <= j < |a.mustNot.items| ==>
            |gs[i].mustNot.value| == |a.mustNot.items| &&
            gs[i].mustNot.value[j].terms == {a.mustNot.items[j].0, a.mustNot.items[j].1})
  {
    var q := BuildQuery(a);
    var gs := q.filters[|q.filters| - 1].groups;
    forall i | 0 <= i < |gs|
      ensures MatchPairs(gs[i].must) == a.must.items[i]
    {
      assert gs[i].must == Matches(a.must.items[i]);
    }
  }

  lemma {:induction false} GroupPairsOfGroups(must: seq<Dict>, mustNot: FilterArg<Pair>)
    ensures GroupPairs(Groups(must, mustNot)) == Flatten(must)
    decreases |must|
  {
    if |must| > 0 {
      var gs := Groups(must, mustNot);
      assert MatchPairs(gs[0].must) == must[0];
      assert gs[1..] == Groups(must[1..], mustNot);
      GroupPairsOfGroups(must[1..], mustNot);
    }
  }

  /** When `query_params_must` is a non-empty list, the pairs the query's
      should groups match are exactly the must pairs the cache key hashes. */
  lemma QueryMatchesKeyedMustPairs(a: KwArgs)
    requires FilterTruthy(a.must) && a.must.isList
    ensures var q := BuildQuery(a);
      GroupPairs(q.filters[|q.filters| - 1].groups) == MustPairs(a.must)
  {
    GroupPairsOfGroups(a.must.items, a.mustNot);
  }

  /** The must-not set clause forgets which string was the field: swapping
      name and value gives the same clause, and a name equal to its value
      gives a one-element set. */
  lemma SetMatchIsUnordered(name: string, value: string)
    ensures SetMatches([(name, value)]) == SetMatches([(value, name)])
    ensures |SetMatches([(name, name)])[0].terms| == 1
  {
    assert {name, value} == {value, name};
    assert {name, name} == {name};
  }

  /** `query_params_must_not` without `query_params_must` adds nothing to the
      query, although the cache key hashes its pairs. */
  lemma MustNotAloneIgnored(a: KwArgs)
    requires !FilterTruthy(a.must)
    ensures BuildQuery(a) == BuildQuery(a.(mustNot := Absent))
    ensures !HasShould(BuildQuery(a))
  {
    QueryStructure(a);
  }

  /** The key and the query disagree: a required pair and the same pair
      given only as excluded yield one cache key, yet different queries, so
      the second call would be served the first call's stored result. */
  lemma KeyCollisionAcrossQueries(name: string, a: KwArgs, p: Pair, env: KeyEnv)
    ensures Key(name, a.(must := Given([[p]], true), mustNot := Absent), env)
         == Key(name, a.(must := Absent, mustNot := Given([p], true)), env)
    ensures BuildQuery(a.(must := Given([[p]], true), mustNot := Absent))
         != BuildQuery(a.(must := Absent, mustNot := Given([p], true)))
  {
    MustAndMustNotShareKey(name, a, p, env);
    QueryStructure(a.(must := Given([[p]], true), mustNot := Absent));
    QueryStructure(a.(must := Absent, mustNot := Given([p], true)));
  }

  /** A must filter passed as a non-list sequence (a tuple) shapes the query
      but not the key. */
  lemma NonListMustShapesQueryOnly(name: string, a: KwArgs, groups: seq<Dict>, env: KeyEnv)
    requires |groups| > 0
    ensures Key(name, a.(must := Given(groups, false)), env) == Key(name, a.(must := Absent), env)
    ensures HasShould(BuildQuery(a.(must := Given(groups, false))))
    ensures !HasShould(BuildQuery(a.(must := Absent)))
  {
    QueryStructure(a.(must := Given(groups, false)));
    QueryStructure(a.(must := Absent));
  }

  /** A must-not filter passed as a non-list sequence (a tuple) reaches the
      query, when the must filter is truthy, but not the key. */
  lemma NonListMustNotShapesQueryOnly(name: string, a: KwArgs, p: Pair, env: KeyEnv)
    requires FilterTruthy(a.must)
    ensures Key(name, a.(mustNot := Given([p], false)), env) == Key(name, a.(mustNot := Absent), env)
    ensures BuildQuery(a.(mustNot := Given([p], false))) != BuildQuery(a.(mustNot := Absent))
  {
    var q1 := BuildQuery(a.(mustNot := Given([p], false)));
    var q2 := BuildQuery(a.(mustNot := Absent));
    var n := |q1.filters| - 1;
    assert q1.filters[n].Should? && q2.filters[n].Should?;
    assert q1.filters[n].groups[0].mustNot.Some?;
    assert q2.filters[n].groups[0].mustNot.None?;
  }

  /** The key forgets the AND/OR structure of the must filter: one dict with
      two pairs (both must hold) and two dicts with one pair each (either may
      hold) share a key but build different queries. */
  lemma MustGroupingShapesQueryOnly(name: string, a: KwArgs, p: Pair, q: Pair, env: KeyEnv)
    ensures Key(name, a.(must := Given([[p, q]], true)), env)
         == Key(name, a.(must := Given([[p], [q]], true)), env)
    ensures BuildQuery(a.(must := Given([[p, q]], true)))
         != BuildQuery(a.(must := Given([[p], [q]], true)))
  {
    MustGroupingForgotten(name, a, p, q, env);
    var q1 := BuildQuery(a.(must := Given([[p, q]], true)));
    var q2 := BuildQuery(a.(must := Given([[p], [q]], true)));
    var n := |q1.filters| - 1;
    assert q1.filters[n] == Should(Groups([[p, q]], a.mustNot));
    assert q2.filters[n] == Should(Groups([[p], [q]], a.mustNot));
  }

  /** `strftime('%Y-%m-%d')` keeps the calendar day and drops the time of
      day: two datetimes on one day format alike. */
  ghost predicate FormatsDayOnly(formatDay: int -> string) {
    forall t1, t2 :: EsQueries.Day(t1) == EsQueries.Day(t2) ==> formatDay(t1) == formatDay(t2)
  }

  /** The key keeps only the day of a datetime while the range filter keeps
      the whole datetime: two calls whose start (or end) datetimes differ
      within one day share a key, yet build different queries whenever the
      other date is truthy, so the second call is served the first call's
      rows. */
  lemma TimeOfDayShapesQueryOnly(name: string, a: KwArgs, t1: int, t2: int, env: KeyEnv)
    requires FormatsDayOnly(env.formatDay)
    requires EsQueries.Day(t1) == EsQueries.Day(t2) && t1 != t2
    ensures Key(name, a.(startDate := At(t1)), env) == Key(name, a.(startDate := At(t2)), env)
    ensures Key(name, a.(endDate := At(t1)), env) == Key(name, a.(endDate := At(t2)), env)
    ensures DateTruthy(a.endDate) ==>
      BuildQuery(a.(startDate := At(t1))) != BuildQuery(a.(startDate := At(t2)))
    ensures DateTruthy(a.startDate) ==>
      BuildQuery(a.(endDate := At(t1))) != BuildQuery(a.(endDate := At(t2)))
  {
    assert env.formatDay(t1) == env.formatDay(t2);
    KeyDeterminedByPairMultiset(name, a.(startDate := At(t1)), a.(startDate := At(t2)), env);
    KeyDeterminedByPairMultiset(name, a.(endDate := At(t1)), a.(endDate := At(t2)), env);
    if DateTruthy(a.endDate) {
      QueryStructure(a.(startDate := At(t1)));
      QueryStructure(a.(startDate := At(t2)));
    }
    if DateTruthy(a.startDate) {
      QueryStructure(a.(endDate := At(t1)));
      QueryStructure(a.(endDate := At(t2)));
    }
  }

  /** `columns` shapes the query but not the key. */
  lemma ColumnsShapeQueryOnly(name: string, a: KwArgs, cols: seq<string>, env: KeyEnv)
    requires |cols| > 0
    ensures Key(name, a.(columns := Some(cols)), env) == Key(name, a.(columns := None), env)
    ensures BuildQuery(a.(columns := Some(cols))).source == Some(cols)
    ensures BuildQuery(a.(columns := None)).source == None
  {
    PassThroughArgsNotInKey(name, a.(columns := None), a.docType, Some(cols), env);
  }
}
