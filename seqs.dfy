/** `Array.prototype.filter` and the facts about it that the commands' counts and partitions rest on. */
module Seqs {

  /** `xs.filter(p)`: the elements that satisfy `p`, in their original order. */
  function Filter<T>(xs: seq<T>, p: T -> bool): (r: seq<T>)
    ensures |r| <= |xs|
    ensures forall i :: 0 <= i < |r| ==> r[i] in xs && p(r[i])
    ensures forall i :: 0 <= i < |xs| && p(xs[i]) ==> xs[i] in r
  {
    if |xs| == 0 then [] else (if p(xs[0]) then [xs[0]] else []) + Filter(xs[1..], p)
  }

  /** Two tests that agree on every element select the same elements. */
  lemma {:induction false} FilterCongruent<T>(xs: seq<T>, p: T -> bool, q: T -> bool)
    requires forall i :: 0 <= i < |xs| ==> p(xs[i]) == q(xs[i])
    ensures Filter(xs, p) == Filter(xs, q)
    decreases |xs|
  {
    if |xs| > 0 {
      FilterCongruent(xs[1..], p, q);
    }
  }

  /** `a` can be obtained from `b` by deleting elements: it keeps `b`'s order. */
  predicate Subsequence<T(==)>(a: seq<T>, b: seq<T>)
    decreases |b|
  {
    |a| == 0 ||
    (|b| > 0 && ((a[0] == b[0] && Subsequence(a[1..], b[1..])) || Subsequence(a, b[1..])))
  }

  lemma {:induction false} FilterIsSubsequence<T>(xs: seq<T>, p: T -> bool)
    ensures Subsequence(Filter(xs, p), xs)
    decreases |xs|
  {
    if |xs| > 0 {
      FilterIsSubsequence(xs[1..], p);
      var r := Filter(xs, p);
      if p(xs[0]) {
        assert |r| > 0 && r[0] == xs[0] && r[1..] == Filter(xs[1..], p);
      } else {
        assert r == Filter(xs[1..], p);
        assert |r| == 0 || Subsequence(r, xs[1..]);
      }
    }
  }

  /** No element occurs twice. */
  predicate Distinct<T(==)>(xs: seq<T>)
  {
    forall i, j :: 0 <= i < j < |xs| ==> xs[i] != xs[j]
  }

  /** On a list without repeats, the filter's length is the number of distinct elements that pass. */
  lemma {:induction false} DistinctFilterCount<T>(xs: seq<T>, p: T -> bool)
    requires Distinct(xs)
    ensures |Filter(xs, p)| == |set x | x in xs && p(x)|
    decreases |xs|
  {
    if |xs| == 0 {
      assert (set x | x in xs && p(x)) == {};
    } else {
      var rest := xs[1..];
      DistinctTail(xs);
      DistinctFilterCount(rest, p);
      var tail := set x | x in rest && p(x);
      var all := set x | x in xs && p(x);
      PassingOfCons(xs, p);
      if p(xs[0]) {
        assert xs[0] !in tail;
      }
    }
  }

  /** The tail of a list without repeats has none either, and does not hold the head. */
  lemma DistinctTail<T>(xs: seq<T>)
    requires Distinct(xs) && |xs| > 0
    ensures Distinct(xs[1..])
    ensures xs[0] !in xs[1..]
  {
    var rest := xs[1..];
    forall i, j | 0 <= i < j < |rest| ensures rest[i] != rest[j] {
      assert rest[i] == xs[i + 1] && rest[j] == xs[j + 1];
    }
    forall i | 0 <= i < |rest| ensures rest[i] != xs[0] {
      assert rest[i] == xs[i + 1];
    }
  }

  /** The passing elements of a list are those of its tail, plus the head when it passes. */
  lemma PassingOfCons<T>(xs: seq<T>, p: T -> bool)
    requires |xs| > 0
    ensures (set x | x in xs && p(x)) == (set x | x in xs[1..] && p(x)) + (if p(xs[0]) then {xs[0]} else {})
  {
    assert xs == [xs[0]] + xs[1..];
  }

  /** The same count, for any set described as the passing elements of `xs`. */
  lemma DistinctFilterCountOf<T>(xs: seq<T>, p: T -> bool, passing: set<T>)
    requires Distinct(xs)
    requires forall x :: x in passing <==> x in xs && p(x)
    ensures |Filter(xs, p)| == |passing|
  {
    DistinctFilterCount(xs, p);
    assert passing == set x | x in xs && p(x);
  }

  /** A subset is no larger than its superset. */
  lemma SubsetSize<T>(a: set<T>, b: set<T>)
    requires a <= b
    ensures |a| <= |b|
  {
    assert b == a + (b - a);
  }

  /** On a list without repeats, a filter that only passes members of `s` keeps at most `|s|` elements. */
  lemma FilterBoundedBy<T>(xs: seq<T>, p: T -> bool, s: set<T>)
    requires Distinct(xs)
    requires forall x :: p(x) ==> x in s
    ensures |Filter(xs, p)| <= |s|
  {
    DistinctFilterCount(xs, p);
    var passed := set x | x in xs && p(x);
    assert passed <= s;
    SubsetSize(passed, s);
  }

  /** Two tests that never both pass keep, together, at most the whole list. */
  lemma {:induction false} FilterDisjointCount<T>(xs: seq<T>, p: T -> bool, q: T -> bool)
    requires forall i :: 0 <= i < |xs| ==> !(p(xs[i]) && q(xs[i]))
    ensures |Filter(xs, p)| + |Filter(xs, q)| <= |xs|
    decreases |xs|
  {
    if |xs| > 0 {
      FilterDisjointCount(xs[1..], p, q);
    }
  }

  /** Exactly one of the three tests passes on `x`. */
  predicate ExactlyOne<T>(p: T -> bool, q: T -> bool, r: T -> bool, x: T)
  {
    (p(x) && !q(x) && !r(x)) || (!p(x) && q(x) && !r(x)) || (!p(x) && !q(x) && r(x))
  }

  /** Three tests of which exactly one passes on each element split the input three ways, with multiplicities. */
  lemma {:induction false} FilterSplit3<T>(xs: seq<T>, p: T -> bool, q: T -> bool, r: T -> bool)
    requires forall i :: 0 <= i < |xs| ==> ExactlyOne(p, q, r, xs[i])
    ensures multiset(Filter(xs, p)) + multiset(Filter(xs, q)) + multiset(Filter(xs, r)) == multiset(xs)
    decreases |xs|
  {
    if |xs| > 0 {
      var x, rest := xs[0], xs[1..];
      assert ExactlyOne(p, q, r, x);
      FilterSplit3(rest, p, q, r);
      assert xs == [x] + rest;
      assert multiset(xs) == multiset{x} + multiset(rest);
    }
  }
}
