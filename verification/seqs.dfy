/** Sequence filtering, the one algorithm behind every query of the dashboard:
    JavaScript's `Array.prototype.filter` keeps, in their original order, the
    elements a predicate accepts. */
module Seqs {

  /** `a` can be obtained from `b` by deleting elements: `a` is an
      order-preserving subsequence of `b`. */
  predicate IsSubseq<T(==)>(a: seq<T>, b: seq<T>)
    decreases |b|
  {
    || |a| == 0
    || (&& |b| > 0
        && ((a[0] == b[0] && IsSubseq(a[1..], b[1..])) || IsSubseq(a, b[1..])))
  }

  /** `s.filter(keep)`: the elements of `s` accepted by `keep`, in the order of `s`. */
  function Filter<T(==)>(s: seq<T>, keep: T -> bool): (r: seq<T>)
    ensures |r| <= |s|
    ensures IsSubseq(r, s)
    ensures forall i :: 0 <= i < |r| ==> keep(r[i])
  {
    if |s| == 0 then []
    else
      var rest := Filter(s[1..], keep);
      if keep(s[0]) then [s[0]] + rest else rest
  }

  /** The filter keeps every accepted value exactly as often as it occurs in
      `s` and drops every rejected one; with the subsequence property of
      `Filter` this determines the result uniquely. */
  lemma {:induction false} FilterMultiset<T(!new)>(s: seq<T>, keep: T -> bool)
    ensures forall x :: multiset(Filter(s, keep))[x] == if keep(x) then multiset(s)[x] else 0
  {
    if |s| > 0 {
      FilterMultiset(s[1..], keep);
      assert s == [s[0]] + s[1..];
    }
  }

  /** A value is in the result exactly when it is in `s` and accepted. */
  lemma FilterMembers<T(!new)>(s: seq<T>, keep: T -> bool)
    ensures forall x :: x in Filter(s, keep) <==> x in s && keep(x)
  {
    FilterMultiset(s, keep);
    forall x
      ensures x in Filter(s, keep) <==> x in s && keep(x)
    {
      assert x in Filter(s, keep) <==> multiset(Filter(s, keep))[x] > 0;
      assert x in s <==> multiset(s)[x] > 0;
    }
  }

  /** When no element is accepted the result is empty. */
  lemma {:induction false} FilterNoneKept<T>(s: seq<T>, keep: T -> bool)
    requires forall i :: 0 <= i < |s| ==> !keep(s[i])
    ensures Filter(s, keep) == []
  {
    if |s| > 0 {
      FilterNoneKept(s[1..], keep);
    }
  }

  /** One step of the filter: the head is kept or dropped, the tail is filtered. */
  lemma FilterCons<T>(x: T, s: seq<T>, keep: T -> bool)
    ensures Filter([x] + s, keep) == (if keep(x) then [x] else []) + Filter(s, keep)
  {
    assert ([x] + s)[1..] == s;
  }

  /** `x` alone when it is kept, nothing otherwise. */
  function Kept<T>(x: T, keep: T -> bool): (r: seq<T>)
    ensures keep(x) <==> r == [x]
    ensures !keep(x) <==> r == []
  {
    if keep(x) then [x] else []
  }

  /** One step of the filter over a suffix: its first element is kept or
      dropped, and the rest of the suffix is filtered. */
  lemma FilterStep<T>(s: seq<T>, k: nat, keep: T -> bool)
    requires k < |s|
    ensures Filter(s[k..], keep) == Kept(s[k], keep) + Filter(s[k + 1..], keep)
  {
    assert s[k..][0] == s[k] && s[k..][1..] == s[k + 1..];
  }

  /** The filter of a ten-element sequence, element by element. */
  lemma FilterOfTen<T>(s: seq<T>, keep: T -> bool)
    requires |s| == 10
    ensures Filter(s, keep)
         == Kept(s[0], keep) + (Kept(s[1], keep) + (Kept(s[2], keep) + (Kept(s[3], keep)
          + (Kept(s[4], keep) + (Kept(s[5], keep) + (Kept(s[6], keep) + (Kept(s[7], keep)
          + (Kept(s[8], keep) + Kept(s[9], keep)))))))))
  {
    FilterStep(s, 9, keep);
    assert Filter(s[9..], keep) == Kept(s[9], keep);
    FilterStep(s, 8, keep);
    FilterStep(s, 7, keep);
    FilterStep(s, 6, keep);
    FilterStep(s, 5, keep);
    FilterStep(s, 4, keep);
    FilterStep(s, 3, keep);
    FilterStep(s, 2, keep);
    FilterStep(s, 1, keep);
    FilterStep(s, 0, keep);
    assert s[0..] == s && s[10..] == [];
  }

  /** Two predicates that agree on the elements of `s` filter it identically. */
  lemma {:induction false} FilterAgree<T>(s: seq<T>, a: T -> bool, b: T -> bool)
    requires forall i :: 0 <= i < |s| ==> a(s[i]) == b(s[i])
    ensures Filter(s, a) == Filter(s, b)
  {
    if |s| > 0 {
      FilterAgree(s[1..], a, b);
    }
  }

  /** Filtering by `a` and then by `b` is filtering once by their conjunction. */
  lemma {:induction false} FilterTwice<T>(s: seq<T>, a: T -> bool, b: T -> bool, ab: T -> bool)
    requires forall x :: ab(x) == (a(x) && b(x))
    ensures Filter(Filter(s, a), b) == Filter(s, ab)
  {
    if |s| > 0 {
      FilterTwice(s[1..], a, b, ab);
      assert Filter(s, a) == (if a(s[0]) then [s[0]] else []) + Filter(s[1..], a);
      if a(s[0]) {
        assert Filter(s, a)[1..] == Filter(s[1..], a);
      }
    }
  }

  /** Every element is kept by exactly one of `keep` and its negation, so the two
      results together are a rearrangement of `s`. */
  lemma FilterSplit<T(!new)>(s: seq<T>, keep: T -> bool, drop: T -> bool)
    requires forall x :: drop(x) == !keep(x)
    ensures multiset(Filter(s, keep)) + multiset(Filter(s, drop)) == multiset(s)
    ensures |Filter(s, keep)| + |Filter(s, drop)| == |s|
  {
    var kept, dropped := Filter(s, keep), Filter(s, drop);
    FilterMultiset(s, keep);
    FilterMultiset(s, drop);
    assert multiset(kept) + multiset(dropped) == multiset(s);
    assert |multiset(kept)| == |kept| && |multiset(dropped)| == |dropped|;
  }

  /** The first `n` elements (`s.slice(0, n)` for non-negative `n`). */
  function Take<T>(s: seq<T>, n: nat): (r: seq<T>)
    ensures |r| == if n < |s| then n else |s|
    ensures forall i :: 0 <= i < |r| ==> r[i] == s[i]
  {
    if n < |s| then s[..n] else s
  }
}
