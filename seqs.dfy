/**
 * List comprehensions `[x for x in s if p(x)]` and the facts about them that the
 * queries rely on: a filter keeps exactly the matching elements, in order.
 */
module Seqs {

  /** a can be obtained from b by deleting elements: it keeps b's order. */
  ghost predicate IsSubsequence<T>(a: seq<T>, b: seq<T>)
    decreases |b|
  {
    a == [] || (b != [] && ((a[0] == b[0] && IsSubsequence(a[1..], b[1..])) || IsSubsequence(a, b[1..])))
  }

  lemma {:induction false} SubsequenceRefl<T>(s: seq<T>)
    ensures IsSubsequence(s, s)
  {
    if s != [] {
      SubsequenceRefl(s[1..]);
    }
  }

  /** Deleting from a subsequence gives a subsequence. */
  lemma {:induction false} SubsequenceTrans<T>(a: seq<T>, b: seq<T>, c: seq<T>)
    requires IsSubsequence(a, b) && IsSubsequence(b, c)
    ensures IsSubsequence(a, c)
    decreases |c|
  {
    if a != [] {
      if b[0] == c[0] && IsSubsequence(b[1..], c[1..]) {
        if a[0] == b[0] && IsSubsequence(a[1..], b[1..]) {
          SubsequenceTrans(a[1..], b[1..], c[1..]);
        } else {
          SubsequenceTrans(a, b[1..], c[1..]);
        }
      } else {
        SubsequenceTrans(a, b, c[1..]);
      }
    }
  }

  /** `[x for x in s if p(x)]`. */
  function Filter<T>(s: seq<T>, p: T -> bool): (r: seq<T>)
    ensures |r| <= |s|
    ensures IsSubsequence(r, s)
    ensures forall i :: 0 <= i < |r| ==> p(r[i])
    ensures forall i :: 0 <= i < |r| ==> r[i] in s
    ensures forall i :: 0 <= i < |s| && p(s[i]) ==> s[i] in r
  {
    if s == [] then []
    else if p(s[0]) then [s[0]] + Filter(s[1..], p)
    else Filter(s[1..], p)
  }

  /** A filter keeps every matching element as often as it occurs, and nothing else. */
  lemma {:induction false} FilterCounts<T>(s: seq<T>, p: T -> bool, x: T)
    ensures multiset(Filter(s, p))[x] == if p(x) then multiset(s)[x] else 0
  {
    if s != [] {
      FilterCounts(s[1..], p, x);
      assert s == [s[0]] + s[1..];
      assert multiset(s) == multiset{s[0]} + multiset(s[1..]);
      if p(s[0]) {
        assert multiset(Filter(s, p)) == multiset{s[0]} + multiset(Filter(s[1..], p));
      } else {
        assert Filter(s, p) == Filter(s[1..], p);
      }
    }
  }

  /**
   * A filter that applies only when its argument was given. Each element is kept as
   * often as it occurs when no filter applies or it passes the test, and never otherwise.
   */
  function FilterWhen<T(!new)>(given: bool, s: seq<T>, p: T -> bool): (r: seq<T>)
    ensures IsSubsequence(r, s)
    ensures given ==> forall i :: 0 <= i < |r| ==> p(r[i])
    ensures given ==> forall i :: 0 <= i < |s| && p(s[i]) ==> s[i] in r
    ensures !given ==> r == s
    ensures forall x :: multiset(r)[x] == if !given || p(x) then multiset(s)[x] else 0
  {
    SubsequenceRefl(s);
    if given then
      assert forall x :: multiset(Filter(s, p))[x] == if p(x) then multiset(s)[x] else 0 by {
        forall x: T {
          FilterCounts(s, p, x);
        }
      }
      Filter(s, p)
    else s
  }

  /** Two optional filters in a row keep what passes c, the conjunction of the filters that apply. */
  lemma FilterWhenTwice<T(!new)>(g1: bool, p: T -> bool, g2: bool, q: T -> bool, c: T -> bool, s: seq<T>)
    requires forall x :: c(x) == ((!g1 || p(x)) && (!g2 || q(x)))
    ensures var r := FilterWhen(g2, FilterWhen(g1, s, p), q);
      IsSubsequence(r, s)
      && (forall x :: multiset(r)[x] == if c(x) then multiset(s)[x] else 0)
      && (forall i :: 0 <= i < |r| ==> c(r[i]))
      && (forall i :: 0 <= i < |s| && c(s[i]) ==> s[i] in r)
  {
    var mid := FilterWhen(g1, s, p);
    var r := FilterWhen(g2, mid, q);
    SubsequenceTrans(r, mid, s);
    forall i | 0 <= i < |r| ensures c(r[i]) {
      assert r[i] in multiset(r);
    }
    forall i | 0 <= i < |s| && c(s[i]) ensures s[i] in r {
      assert s[i] in multiset(s);
      assert multiset(r)[s[i]] == multiset(s)[s[i]];
    }
  }

  /** Filtering a concatenation filters each half. */
  lemma {:induction false} FilterAppend<T>(a: seq<T>, b: seq<T>, p: T -> bool)
    ensures Filter(a + b, p) == Filter(a, p) + Filter(b, p)
  {
    if a != [] {
      assert (a + b)[1..] == a[1..] + b;
      FilterAppend(a[1..], b, p);
    } else {
      assert a + b == b;
    }
  }

  /** A filter that every element passes changes nothing. */
  lemma {:induction false} FilterAll<T>(s: seq<T>, p: T -> bool)
    requires forall i :: 0 <= i < |s| ==> p(s[i])
    ensures Filter(s, p) == s
  {
    if s != [] {
      FilterAll(s[1..], p);
    }
  }

  function Both<T>(p: T -> bool, q: T -> bool): T -> bool
  {
    x => p(x) && q(x)
  }

  /** Two successive filters are one filter on the conjunction. */
  lemma {:induction false} FilterFuse<T>(s: seq<T>, p: T -> bool, q: T -> bool)
    ensures Filter(Filter(s, p), q) == Filter(s, Both(p, q))
  {
    if s != [] {
      FilterFuse(s[1..], p, q);
      if p(s[0]) {
        assert ([s[0]] + Filter(s[1..], p))[1..] == Filter(s[1..], p);
      }
    }
  }

  /** The order in which two filters are applied does not matter. */
  lemma FilterCommute<T>(s: seq<T>, p: T -> bool, q: T -> bool)
    ensures Filter(Filter(s, p), q) == Filter(Filter(s, q), p)
  {
    FilterFuse(s, p, q);
    FilterFuse(s, q, p);
    FilterSamePredicate(s, Both(p, q), Both(q, p));
  }

  /** Filters by predicates that agree on every element give the same result. */
  lemma {:induction false} FilterSamePredicate<T>(s: seq<T>, p: T -> bool, q: T -> bool)
    requires forall i :: 0 <= i < |s| ==> p(s[i]) == q(s[i])
    ensures Filter(s, p) == Filter(s, q)
  {
    if s != [] {
      FilterSamePredicate(s[1..], p, q);
    }
  }
}
