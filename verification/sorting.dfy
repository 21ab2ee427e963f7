/** `list.sort()` on a list of filter pairs, as a pure function, and the fact
    the cache key relies on: the sorted list depends only on the multiset of
    pairs, not on the order they were collected in. */
module Sorting {
  import opened Ordering

  predicate Sorted(s: seq<Pair>) {
    forall i, j :: 0 <= i < j < |s| ==> PairLe(s[i], s[j])
  }

  /** Inserts `x` into the sorted sequence `s` before the first element it
      does not exceed. */
  function Insert(x: Pair, s: seq<Pair>): (r: seq<Pair>)
    requires Sorted(s)
    ensures Sorted(r)
    ensures multiset(r) == multiset(s) + multiset{x}
    ensures forall y :: y in r ==> y == x || y in s
    decreases |s|
  {
    if |s| == 0 then [x]
    else if PairLe(x, s[0]) then
      PairLeTransitiveFrom(x, s);
      [x] + s
    else
      PairLeTotal(x, s[0]);
      var rest := Insert(x, s[1..]);
      assert s == [s[0]] + s[1..];
      forall y | y in rest
        ensures PairLe(s[0], y)
      {
        if y != x {
          var k :| 0 <= k < |s[1..]| && s[1..][k] == y;
          assert s[k + 1] == y;
        }
      }
      [s[0]] + rest
  }

  /** An element not above the head of a sorted sequence is not above any of it. */
  lemma PairLeTransitiveFrom(x: Pair, s: seq<Pair>)
    requires Sorted(s) && |s| > 0 && PairLe(x, s[0])
    ensures Sorted([x] + s)
  {
    forall j | 0 <= j < |s|
      ensures PairLe(x, s[j])
    {
      if j > 0 {
        PairLeTransitive(x, s[0], s[j]);
      }
    }
  }

  /** Python's `list.sort()` on the filter pairs: the result is ordered and is
      a permutation of the input. */
  function Sort(s: seq<Pair>): (r: seq<Pair>)
    ensures Sorted(r)
    ensures multiset(r) == multiset(s)
    decreases |s|
  {
    if |s| == 0 then []
    else
      assert s == [s[0]] + s[1..];
      Insert(s[0], Sort(s[1..]))
  }

  /** Two sorted sequences holding the same multiset of pairs are equal: the
      order on pairs is total and antisymmetric, so nothing is left to chance. */
  lemma {:induction false} SortedUnique(a: seq<Pair>, b: seq<Pair>)
    requires Sorted(a) && Sorted(b)
    requires multiset(a) == multiset(b)
    ensures a == b
    decreases |a|
  {
    assert |a| == |multiset(a)| == |multiset(b)| == |b|;
    if |a| > 0 {
      assert a[0] in multiset(b);
      var j :| 0 <= j < |b| && b[j] == a[0];
      if j > 0 { assert PairLe(b[0], b[j]); } else { PairLeReflexive(b[0]); }
      assert b[0] in multiset(a);
      var i :| 0 <= i < |a| && a[i] == b[0];
      if i > 0 { assert PairLe(a[0], a[i]); } else { PairLeReflexive(a[0]); }
      PairLeAntisymmetric(a[0], b[0]);
      assert a == [a[0]] + a[1..];
      assert b == [b[0]] + b[1..];
      assert multiset(a) == multiset{a[0]} + multiset(a[1..]);
      assert multiset(b) == multiset{b[0]} + multiset(b[1..]);
      assert multiset(a[1..]) == multiset(a) - multiset{a[0]};
      assert multiset(b[1..]) == multiset(b) - multiset{b[0]};
      SortedUnique(a[1..], b[1..]);
    }
  }

  /** Sorting forgets the input order: permutations sort to the same list. */
  lemma SortDeterminedByMultiset(s: seq<Pair>, t: seq<Pair>)
    requires multiset(s) == multiset(t)
    ensures Sort(s) == Sort(t)
  {
    SortedUnique(Sort(s), Sort(t));
  }
}
