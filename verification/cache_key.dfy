/** The cache-key derivation of the `cacheable` wrapper (es_connector.py):
    which keyword arguments of a `get_df` call the key reads, how dates and
    filters are normalised, and how the key string is assembled. */
module CacheKey {
  import opened Wrappers
  import opened Ordering
  import opened Sorting

  /** A `start_date` / `end_date` keyword value: missing or `None`, a
      `datetime` (whole seconds since the epoch), or a string. */
  datatype DateArg = NoDate | At(seconds: int) | Text(s: string)

  /** Python truthiness of a date argument; a `datetime` is always truthy. */
  predicate DateTruthy(d: DateArg) {
    match d
    case NoDate => false
    case At(_) => true
    case Text(s) => s != ""
  }

  /** A filter keyword value: missing or `None`, or a sequence of items that
      is a Python `list` only when `isList` holds (a tuple, say, when not). */
  datatype FilterArg<T> = Absent | Given(items: seq<T>, isList: bool)

  /** Python truthiness of a filter argument: a non-empty sequence. */
  predicate FilterTruthy<T>(f: FilterArg<T>) {
    f.Given? && |f.items| > 0
  }

  /** The `items()` of one dict in `query_params_must`, in iteration order. */
  type Dict = seq<Pair>

  /** The keyword arguments of one `get_df` call. `docType` and `columns` are
      passed through to the target but never read by the wrapper. */
  datatype KwArgs = KwArgs(
    indexName: Option<string>,
    docType: string,
    startDate: DateArg,
    endDate: DateArg,
    must: FilterArg<Dict>,
    mustNot: FilterArg<Pair>,
    columns: Option<seq<string>>)

  /** The two primitives the key uses and the model leaves abstract:
      `md5(str(pairs)).hexdigest()` and `strftime('%Y-%m-%d')`. */
  datatype KeyEnv = KeyEnv(md5: seq<Pair> -> string, formatDay: int -> string)

  /** `'{}'.format(x)` for an optional string: `None` renders as "None". */
  function Render(o: Option<string>): string {
    match o
    case None => "None"
    case Some(s) => s
  }

  /** `kwargs.get(name) or sentinel`, then `strftime` when it is a datetime. */
  function NormalizeDate(d: DateArg, sentinel: string, formatDay: int -> string): (r: string)
    // a missing or falsy date becomes the sentinel
    ensures !DateTruthy(d) ==> r == sentinel
    // a datetime becomes its formatted day, any other string stays as it is
    ensures d.At? ==> r == formatDay(d.seconds)
    ensures d.Text? && d.s != "" ==> r == d.s
  {
    if !DateTruthy(d) then sentinel
    else match d
      case At(t) => formatDay(t)
      case Text(s) => s
      case NoDate => sentinel
  }

  /** All the items of all the dicts, dict after dict. */
  function Flatten(groups: seq<Dict>): seq<Pair>
    decreases |groups|
  {
    if |groups| == 0 then [] else groups[0] + Flatten(groups[1..])
  }

  /** The collected pairs are exactly the items of the must dicts. */
  lemma {:induction false} FlattenMembers(groups: seq<Dict>)
    // every item of every dict is collected ...
    ensures forall i, j :: 0 <= i < |groups| && 0 <= j < |groups[i]| ==> groups[i][j] in Flatten(groups)
    // ... and nothing else
    ensures forall p :: p in Flatten(groups) ==> exists i :: 0 <= i < |groups| && p in groups[i]
    decreases |groups|
  {
    if |groups| > 0 {
      FlattenMembers(groups[1..]);
      forall i, j | 0 <= i < |groups| && 0 <= j < |groups[i]|
        ensures groups[i][j] in Flatten(groups)
      {
        if i > 0 {
          assert groups[i] == groups[1..][i - 1];
        }
      }
      forall p | p in Flatten(groups)
        ensures exists i :: 0 <= i < |groups| && p in groups[i]
      {
        if p !in groups[0] {
          assert p in Flatten(groups[1..]);
          var i :| 0 <= i < |groups[1..]| && p in groups[1..][i];
          assert p in groups[i + 1];
        }
      }
    }
  }

  /** The pairs contributed by `query_params_must`: only a list contributes. */
  function MustPairs(must: FilterArg<Dict>): seq<Pair> {
    if must.Given? && must.isList then Flatten(must.items) else []
  }

  /** The pairs contributed by `query_params_must_not`: only a list contributes. */
  function MustNotPairs(mustNot: FilterArg<Pair>): seq<Pair> {
    if mustNot.Given? && mustNot.isList then mustNot.items else []
  }

  /** The combined, unsorted `query_params` list the wrapper hashes. */
  function QueryPairs(a: KwArgs): (r: seq<Pair>)
    // every item of a must list and every tuple of a must-not list is collected
    ensures a.must.Given? && a.must.isList ==>
      forall i, j :: 0 <= i < |a.must.items| && 0 <= j < |a.must.items[i]| ==> a.must.items[i][j] in r
    ensures a.mustNot.Given? && a.mustNot.isList ==>
      forall p :: p in a.mustNot.items ==> p in r
    // every collected pair comes from one of the two lists
    ensures forall p :: p in r ==>
      || (a.mustNot.Given? && a.mustNot.isList && p in a.mustNot.items)
      || (a.must.Given? && a.must.isList && exists i :: 0 <= i < |a.must.items| && p in a.must.items[i])
    // so anything that is not a list contributes nothing
    ensures (a.must.Absent? || !a.must.isList) && (a.mustNot.Absent? || !a.mustNot.isList) ==> r == []
  {
    FlattenMembers(if a.must.Given? then a.must.items else []);
    MustPairs(a.must) + MustNotPairs(a.mustNot)
  }

  /** `'{}_{}_from_{}_to_{}'.format(method name, index, start, end)`. */
  function Prefix(name: string, a: KwArgs, env: KeyEnv): string {
    name + "_" + Render(a.indexName)
      + "_from_" + NormalizeDate(a.startDate, "EmptyStartDate", env.formatDay)
      + "_to_" + NormalizeDate(a.endDate, "EmptyEndDate", env.formatDay)
  }

  /** The cache file name (without directory and extension) for a call. */
  function Key(name: string, a: KwArgs, env: KeyEnv): (k: string)
    // the key always starts with the header ...
    ensures |k| >= |Prefix(name, a, env)| && k[..|Prefix(name, a, env)|] == Prefix(name, a, env)
    // ... and is longer than it exactly when some filter pair was collected
    ensures |k| == |Prefix(name, a, env)| <==> |QueryPairs(a)| == 0
  {
    var pairs := QueryPairs(a);
    Prefix(name, a, env) + (if |pairs| > 0 then "_" + env.md5(Sort(pairs)) else "")
  }

  /** The parts of a call the key is built from besides the filter pairs
      agree once normalised. */
  predicate SameHeader(a1: KwArgs, a2: KwArgs, env: KeyEnv) {
    && Render(a1.indexName) == Render(a2.indexName)
    && NormalizeDate(a1.startDate, "EmptyStartDate", env.formatDay)
       == NormalizeDate(a2.startDate, "EmptyStartDate", env.formatDay)
    && NormalizeDate(a1.endDate, "EmptyEndDate", env.formatDay)
       == NormalizeDate(a2.endDate, "EmptyEndDate", env.formatDay)
  }

  /** The hash stand-in never maps two different pair lists to one digest. */
  ghost predicate Injective(md5: seq<Pair> -> string) {
    forall s, t :: md5(s) == md5(t) ==> s == t
  }

  // ---------------------------------------------------------------------
  // Shape of the key
  // ---------------------------------------------------------------------

  /** The key is the header, followed by `_` and the digest of the pairs in
      sorted order exactly when there is at least one pair. The sorted order
      is characterised independently of the sorting routine. */
  lemma KeyShape(name: string, a: KwArgs, env: KeyEnv)
    ensures |QueryPairs(a)| == 0 <==> Key(name, a, env) == Prefix(name, a, env)
    ensures forall s :: (Sorted(s) && multiset(s) == multiset(QueryPairs(a)) && |s| > 0
      ==> Key(name, a, env) == Prefix(name, a, env) + "_" + env.md5(s))
  {
    var pairs := QueryPairs(a);
    forall s | Sorted(s) && multiset(s) == multiset(pairs) && |s| > 0
      ensures Key(name, a, env) == Prefix(name, a, env) + "_" + env.md5(s)
    {
      SortedUnique(s, Sort(pairs));
      assert |pairs| == |multiset(pairs)| == |s|;
    }
    if |pairs| > 0 {
      assert |Key(name, a, env)| > |Prefix(name, a, env)|;
    }
  }

  // ---------------------------------------------------------------------
  // Flattening the must groups
  // ---------------------------------------------------------------------

  lemma {:induction false} FlattenAppend(g1: seq<Dict>, g2: seq<Dict>)
    ensures Flatten(g1 + g2) == Flatten(g1) + Flatten(g2)
    decreases |g1|
  {
    if |g1| == 0 {
      assert g1 + g2 == g2;
    } else {
      assert (g1 + g2)[0] == g1[0];
      assert (g1 + g2)[1..] == g1[1..] + g2;
      FlattenAppend(g1[1..], g2);
    }
  }

  /** Taking one dict out of the list takes exactly its items out of the
      collected pairs. */
  lemma FlattenRemove(gs: seq<Dict>, j: nat)
    requires j < |gs|
    ensures multiset(Flatten(gs))
         == multiset(gs[j]) + multiset(Flatten(gs[..j] + gs[j + 1..]))
  {
    var before, after := gs[..j], gs[j + 1..];
    assert gs == before + ([gs[j]] + after);
    FlattenSplit(before, gs[j], after);
    FlattenAppend(before, after);
  }

  /** The pairs of a list with one dict in the middle. */
  lemma FlattenSplit(before: seq<Dict>, d: Dict, after: seq<Dict>)
    ensures Flatten(before + ([d] + after)) == Flatten(before) + (d + Flatten(after))
  {
    FlattenAppend(before, [d] + after);
    assert ([d] + after)[1..] == after;
  }

  /** Reordering the must dicts does not change the multiset of pairs. */
  lemma {:induction false} FlattenGroupPermutation(g1: seq<Dict>, g2: seq<Dict>)
    requires multiset(g1) == multiset(g2)
    ensures multiset(Flatten(g1)) == multiset(Flatten(g2))
    decreases |g1|
  {
    if |g1| == 0 {
      assert |g2| == |multiset(g2)| == 0;
    } else {
      var g := g1[0];
      assert g in multiset(g2);
      var j :| 0 <= j < |g2| && g2[j] == g;
      var rest2 := g2[..j] + g2[j + 1..];
      assert g2 == g2[..j] + [g] + g2[j + 1..];
      assert multiset(rest2) == multiset(g2) - multiset{g};
      assert g1 == [g] + g1[1..];
      assert multiset(g1[1..]) == multiset(g1) - multiset{g};
      FlattenGroupPermutation(g1[1..], rest2);
      FlattenRemove(g2, j);
      assert Flatten(g1) == g + Flatten(g1[1..]);
    }
  }

  /** Reordering the items inside each must dict does not change the
      multiset of pairs. */
  lemma {:induction false} FlattenItemPermutation(g1: seq<Dict>, g2: seq<Dict>)
    requires |g1| == |g2|
    requires forall i :: 0 <= i < |g1| ==> multiset(g1[i]) == multiset(g2[i])
    ensures multiset(Flatten(g1)) == multiset(Flatten(g2))
    decreases |g1|
  {
    if |g1| > 0 {
      FlattenItemPermutation(g1[1..], g2[1..]);
    }
  }

  /** How many of the must dicts hold the pair `p` (a dict holds a given
      pair at most once, but nothing here relies on it). */
  function CountIn(groups: seq<Dict>, p: Pair): nat
    decreases |groups|
  {
    if |groups| == 0 then 0 else multiset(groups[0])[p] + CountIn(groups[1..], p)
  }

  /** Flattening keeps every occurrence: a pair is collected once per dict
      that holds it. */
  lemma {:induction false} FlattenCount(groups: seq<Dict>, p: Pair)
    ensures multiset(Flatten(groups))[p] == CountIn(groups, p)
    decreases |groups|
  {
    if |groups| > 0 {
      FlattenCount(groups[1..], p);
    }
  }

  /** The hashed list keeps duplicates: a pair occurs in it once for each
      must dict of a must list that holds it plus once for each must-not
      tuple of a must-not list equal to it. */
  lemma QueryPairsCount(a: KwArgs, p: Pair)
    ensures multiset(QueryPairs(a))[p]
         == (if a.must.Given? && a.must.isList then CountIn(a.must.items, p) else 0)
          + (if a.mustNot.Given? && a.mustNot.isList then multiset(a.mustNot.items)[p] else 0)
  {
    FlattenCount(if a.must.Given? then a.must.items else [], p);
  }

  // ---------------------------------------------------------------------
  // What the key depends on
  // ---------------------------------------------------------------------

  /** The key is determined by the header and the multiset of filter pairs:
      the order in which the pairs were collected is forgotten. */
  lemma KeyDeterminedByPairMultiset(name: string, a1: KwArgs, a2: KwArgs, env: KeyEnv)
    requires SameHeader(a1, a2, env)
    requires multiset(QueryPairs(a1)) == multiset(QueryPairs(a2))
    ensures Key(name, a1, env) == Key(name, a2, env)
  {
    SortDeterminedByMultiset(QueryPairs(a1), QueryPairs(a2));
    assert |QueryPairs(a1)| == |multiset(QueryPairs(a1))| == |QueryPairs(a2)|;
  }

  /** A shared prefix can be cancelled. */
  lemma AppendCancel(head: string, x: string, y: string)
    requires head + x == head + y
    ensures x == y
  {
    assert x == (head + x)[|head|..];
    assert y == (head + y)[|head|..];
  }

  /** With an injective digest the converse holds too: calls with the same
      header share a key only if they carry the same multiset of pairs. */
  lemma KeySensitiveToPairs(name: string, a1: KwArgs, a2: KwArgs, env: KeyEnv)
    requires SameHeader(a1, a2, env)
    requires Injective(env.md5)
    ensures Key(name, a1, env) == Key(name, a2, env)
      <==> multiset(QueryPairs(a1)) == multiset(QueryPairs(a2))
  {
    var p1, p2 := QueryPairs(a1), QueryPairs(a2);
    var head := Prefix(name, a1, env);
    assert Prefix(name, a2, env) == head;
    var x1 := if |p1| > 0 then "_" + env.md5(Sort(p1)) else "";
    var x2 := if |p2| > 0 then "_" + env.md5(Sort(p2)) else "";
    assert Key(name, a1, env) == head + x1;
    assert Key(name, a2, env) == head + x2;
    if multiset(p1) == multiset(p2) {
      KeyDeterminedByPairMultiset(name, a1, a2, env);
    } else if head + x1 == head + x2 {
      AppendCancel(head, x1, x2);
      if |p1| > 0 && |p2| > 0 {
        assert x1[1..] == env.md5(Sort(p1));
      }
      assert false;
    }
  }

  /** Reordering the must dicts gives the same key. */
  lemma MustGroupOrderIrrelevant(name: string, a: KwArgs, groups: seq<Dict>, env: KeyEnv)
    requires a.must.Given?
    requires multiset(groups) == multiset(a.must.items)
    ensures Key(name, a.(must := a.must.(items := groups)), env) == Key(name, a, env)
  {
    var b := a.(must := a.must.(items := groups));
    if a.must.isList {
      FlattenGroupPermutation(groups, a.must.items);
    }
    KeyDeterminedByPairMultiset(name, b, a, env);
  }

  /** Reordering the items inside the must dicts gives the same key. */
  lemma MustItemOrderIrrelevant(name: string, a: KwArgs, groups: seq<Dict>, env: KeyEnv)
    requires a.must.Given? && |groups| == |a.must.items|
    requires forall i :: 0 <= i < |groups| ==> multiset(groups[i]) == multiset(a.must.items[i])
    ensures Key(name, a.(must := a.must.(items := groups)), env) == Key(name, a, env)
  {
    var b := a.(must := a.must.(items := groups));
    if a.must.isList {
      FlattenItemPermutation(groups, a.must.items);
    }
    KeyDeterminedByPairMultiset(name, b, a, env);
  }

  /** Reordering the must-not tuples gives the same key. */
  lemma MustNotOrderIrrelevant(name: string, a: KwArgs, items: seq<Pair>, env: KeyEnv)
    requires a.mustNot.Given?
    requires multiset(items) == multiset(a.mustNot.items)
    ensures Key(name, a.(mustNot := a.mustNot.(items := items)), env) == Key(name, a, env)
  {
    KeyDeterminedByPairMultiset(name, a.(mustNot := a.mustNot.(items := items)), a, env);
  }

  /** Filters that are missing, `None`, an empty list or not a list at all
      contribute nothing: the key is the bare header, without a digest. */
  lemma EmptyFiltersCollapse(name: string, a: KwArgs, env: KeyEnv)
    requires a.must == Absent || (a.must.Given? && (a.must.items == [] || !a.must.isList))
    requires a.mustNot == Absent || (a.mustNot.Given? && (a.mustNot.items == [] || !a.mustNot.isList))
    ensures Key(name, a, env) == Prefix(name, a, env)
    ensures Key(name, a, env) == Key(name, a.(must := Absent, mustNot := Absent), env)
  {
    assert Flatten([]) == [];
  }

  /** Dates that normalise alike give the same key: `None` and `""` both
      become the sentinel, and a datetime collides with its formatted day
      written as a string. */
  lemma EquivalentDatesShareKey(name: string, a: KwArgs, t: int, env: KeyEnv)
    requires env.formatDay(t) != ""
    ensures Key(name, a.(startDate := Text("")), env) == Key(name, a.(startDate := NoDate), env)
    ensures Key(name, a.(startDate := Text("EmptyStartDate")), env) == Key(name, a.(startDate := NoDate), env)
    ensures Key(name, a.(endDate := Text("")), env) == Key(name, a.(endDate := NoDate), env)
    ensures Key(name, a.(endDate := Text("EmptyEndDate")), env) == Key(name, a.(endDate := NoDate), env)
    ensures Key(name, a.(startDate := At(t)), env) == Key(name, a.(startDate := Text(env.formatDay(t))), env)
    ensures Key(name, a.(endDate := At(t)), env) == Key(name, a.(endDate := Text(env.formatDay(t))), env)
  {
    KeyDeterminedByPairMultiset(name, a.(startDate := Text("")), a.(startDate := NoDate), env);
    KeyDeterminedByPairMultiset(name, a.(startDate := Text("EmptyStartDate")), a.(startDate := NoDate), env);
    KeyDeterminedByPairMultiset(name, a.(endDate := Text("")), a.(endDate := NoDate), env);
    KeyDeterminedByPairMultiset(name, a.(endDate := Text("EmptyEndDate")), a.(endDate := NoDate), env);
    KeyDeterminedByPairMultiset(name, a.(startDate := At(t)), a.(startDate := Text(env.formatDay(t))), env);
    KeyDeterminedByPairMultiset(name, a.(endDate := At(t)), a.(endDate := Text(env.formatDay(t))), env);
  }

  /** The key does not record which list a pair came from: a pair required
      by `query_params_must` and the same pair excluded by
      `query_params_must_not` produce one key. */
  lemma MustAndMustNotShareKey(name: string, a: KwArgs, p: Pair, env: KeyEnv)
    ensures Key(name, a.(must := Given([[p]], true), mustNot := Absent), env)
         == Key(name, a.(must := Absent, mustNot := Given([p], true)), env)
  {
    var b1 := a.(must := Given([[p]], true), mustNot := Absent);
    var b2 := a.(must := Absent, mustNot := Given([p], true));
    assert Flatten([[p]]) == [p] + Flatten([]);
    assert QueryPairs(b1) == [p] == QueryPairs(b2);
  }

  /** The key forgets how the must pairs were grouped: one dict requiring
      both pairs (an AND) and two dicts holding one pair each (an OR) give
      one key. */
  lemma MustGroupingForgotten(name: string, a: KwArgs, p: Pair, q: Pair, env: KeyEnv)
    ensures Key(name, a.(must := Given([[p, q]], true)), env)
         == Key(name, a.(must := Given([[p], [q]], true)), env)
  {
    assert Flatten([[p, q]]) == [p, q] + Flatten([]);
    assert Flatten([[q]]) == [q] + Flatten([]);
    assert Flatten([[p], [q]]) == [p] + Flatten([[q]]);
    KeyDeterminedByPairMultiset(name, a.(must := Given([[p, q]], true)), a.(must := Given([[p], [q]], true)), env);
  }

  /** The key counts repeated pairs: a must list that names the same
      condition twice (`p` OR `p`) and one that names it once select the
      same documents, yet with an injective digest their keys differ. */
  lemma DuplicateGroupSplitsKey(name: string, a: KwArgs, p: Pair, env: KeyEnv)
    requires Injective(env.md5)
    ensures Key(name, a.(must := Given([[p], [p]], true), mustNot := Absent), env)
         != Key(name, a.(must := Given([[p]], true), mustNot := Absent), env)
  {
    var twice := a.(must := Given([[p], [p]], true), mustNot := Absent);
    var once := a.(must := Given([[p]], true), mustNot := Absent);
    QueryPairsCount(twice, p);
    QueryPairsCount(once, p);
    assert [[p], [p]][1..] == [[p]];
    assert CountIn([[p], [p]], p) == 2;
    assert CountIn([[p]], p) == 1;
    KeySensitiveToPairs(name, twice, once, env);
  }

  /** `doc_type` and `columns` are not part of the key. */
  lemma PassThroughArgsNotInKey(name: string, a: KwArgs, docType: string, columns: Option<seq<string>>, env: KeyEnv)
    ensures Key(name, a.(docType := docType, columns := columns), env) == Key(name, a, env)
  {
  }

  /** Fields are joined with `_` and nothing is escaped, so two different
      index/date combinations can yield one key. */
  lemma FieldBoundaryAmbiguity(env: KeyEnv)
    ensures Key("get_df", KwArgs(Some("x_from_a"), "", Text("b"), Text("c"), Absent, Absent, None), env)
         == Key("get_df", KwArgs(Some("x"), "", Text("a_from_b"), Text("c"), Absent, Absent, None), env)
  {
    var a1 := KwArgs(Some("x_from_a"), "", Text("b"), Text("c"), Absent, Absent, None);
    var a2 := KwArgs(Some("x"), "", Text("a_from_b"), Text("c"), Absent, Absent, None);
    assert Flatten([]) == [];
    // both headers split into the same four pieces
    assert "x_from_a" == "x" + "_from_" + "a";
    assert "a_from_b" == "a" + "_from_" + "b";
    assert Prefix("get_df", a1, env) == "get_df_" + "x" + "_from_" + "a" + "_from_" + "b" + "_to_" + "c";
    assert Prefix("get_df", a2, env) == "get_df_" + "x" + "_from_" + "a" + "_from_" + "b" + "_to_" + "c";
  }
}
