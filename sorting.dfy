/**
 * The ordering of resolved cases by success rate, highest first. The service uses
 * the language's built-in sort in descending mode, which is stable, so cases of
 * equal rate keep their original order.
 *
 * SortByRate is the reference definition (a stable insertion sort on values);
 * SortByRateDesc sorts an array in place and is proved to produce the same
 * sequence, through SortedUnique: a sequence sorted by rate whose cases of each
 * rate appear in a given order is unique.
 */
module Sorting {
  import opened Seqs
  import opened Catalog

  function HasRate(v: real): SimilarCase -> bool
  {
    (c: SimilarCase) => c.successRate == v
  }

  /** Success rates never increase from left to right. */
  predicate SortedDesc(s: seq<SimilarCase>)
  {
    forall i, j :: 0 <= i < j < |s| ==> s[i].successRate >= s[j].successRate
  }

  /** For every rate, s and t list the cases of that rate in the same order. */
  ghost predicate SameRateGroups(s: seq<SimilarCase>, t: seq<SimilarCase>)
  {
    forall v :: Filter(s, HasRate(v)) == Filter(t, HasRate(v))
  }

  /** Puts x after the leading cases of s whose rate is at least x's. */
  function Insert(x: SimilarCase, s: seq<SimilarCase>): (r: seq<SimilarCase>)
    ensures |r| == |s| + 1
  {
    if s == [] then [x]
    else if s[0].successRate >= x.successRate then [s[0]] + Insert(x, s[1..])
    else [x] + s
  }

  /** A case of rate at least the head's, put in front of a sorted sequence, keeps it sorted. */
  lemma SortedCons(h: SimilarCase, t: seq<SimilarCase>)
    requires SortedDesc(t)
    requires t != [] ==> h.successRate >= t[0].successRate
    ensures SortedDesc([h] + t)
  {
    var r := [h] + t;
    assert forall j :: 1 <= j < |r| ==> r[j] == t[j - 1];
  }

  /** Inserting into a sorted sequence keeps it sorted; the head is the larger of x and s's head. */
  lemma {:induction false} InsertSorted(x: SimilarCase, s: seq<SimilarCase>)
    requires SortedDesc(s)
    ensures SortedDesc(Insert(x, s))
    ensures Insert(x, s)[0] == if s == [] || s[0].successRate < x.successRate then x else s[0]
  {
    if s == [] {
    } else if s[0].successRate >= x.successRate {
      assert SortedDesc(s[1..]);
      InsertSorted(x, s[1..]);
      SortedCons(s[0], Insert(x, s[1..]));
    } else {
      SortedCons(x, s);
    }
  }

  /** Inserting adds exactly x. */
  lemma {:induction false} InsertMultiset(x: SimilarCase, s: seq<SimilarCase>)
    ensures multiset(Insert(x, s)) == multiset(s) + multiset{x}
  {
    if s != [] && s[0].successRate >= x.successRate {
      InsertMultiset(x, s[1..]);
      assert s == [s[0]] + s[1..];
    }
  }

  /** The stable descending sort by success rate. */
  function SortByRate(s: seq<SimilarCase>): (r: seq<SimilarCase>)
    ensures SortedDesc(r)
    ensures multiset(r) == multiset(s)
    ensures |r| == |s|
  {
    if s == [] then []
    else
      var init, last := s[..|s| - 1], s[|s| - 1];
      assert s == init + [last];
      InsertSorted(last, SortByRate(init));
      InsertMultiset(last, SortByRate(init));
      Insert(last, SortByRate(init))
  }

  /** Inserting x into a sorted sequence appends it to the group of its rate and leaves the other groups alone. */
  lemma {:induction false} InsertGroups(x: SimilarCase, s: seq<SimilarCase>, v: real)
    requires SortedDesc(s)
    ensures Filter(Insert(x, s), HasRate(v)) == Filter(s, HasRate(v)) + Filter([x], HasRate(v))
  {
    var p := HasRate(v);
    if s == [] {
    } else if s[0].successRate >= x.successRate {
      var rest := Insert(x, s[1..]);
      assert Insert(x, s) == [s[0]] + rest;
      assert SortedDesc(s[1..]);
      InsertGroups(x, s[1..], v);
      FilterAppend([s[0]], rest, p);
      assert s == [s[0]] + s[1..];
      FilterAppend([s[0]], s[1..], p);
    } else {
      assert Insert(x, s) == [x] + s;
      InsertAhead(x, s, v);
    }
  }

  /** x placed ahead of a sorted sequence of lower rates ends the group of its rate. */
  lemma InsertAhead(x: SimilarCase, s: seq<SimilarCase>, v: real)
    requires SortedDesc(s)
    requires s != [] && s[0].successRate < x.successRate
    ensures Filter([x] + s, HasRate(v)) == Filter(s, HasRate(v)) + Filter([x], HasRate(v))
  {
    var p := HasRate(v);
    FilterAppend([x], s, p);
    if x.successRate == v {
      assert forall i :: 0 <= i < |s| ==> !p(s[i]);
      NoneKept(s, p);
    }
  }

  /** A filter no element passes is empty. */
  lemma NoneKept(s: seq<SimilarCase>, p: SimilarCase -> bool)
    requires forall i :: 0 <= i < |s| ==> !p(s[i])
    ensures Filter(s, p) == []
  {
  }

  /** SortByRate is stable: the cases of each rate keep their input order. */
  lemma {:induction false} SortByRateStable(s: seq<SimilarCase>)
    ensures SameRateGroups(SortByRate(s), s)
  {
    if s != [] {
      var init, last := s[..|s| - 1], s[|s| - 1];
      SortByRateStable(init);
      assert s == init + [last];
      forall v ensures Filter(SortByRate(s), HasRate(v)) == Filter(s, HasRate(v)) {
        InsertGroups(last, SortByRate(init), v);
        FilterAppend(init, [last], HasRate(v));
      }
    }
  }

  /** Two sorted sequences with the same rate groups are equal. */
  lemma {:induction false} SortedUnique(r1: seq<SimilarCase>, r2: seq<SimilarCase>)
    requires SortedDesc(r1) && SortedDesc(r2)
    requires SameRateGroups(r1, r2)
    ensures r1 == r2
    decreases |r1|
  {
    if r1 != [] {
      assert r1[0] in Filter(r1, HasRate(r1[0].successRate));
    }
    if r2 != [] {
      assert r2[0] in Filter(r2, HasRate(r2[0].successRate));
    }
    if r1 == [] || r2 == [] {
    } else {
      var v1, v2 := r1[0].successRate, r2[0].successRate;
      var g1 := Filter(r2, HasRate(v1));
      assert r1[0] in Filter(r1, HasRate(v1));
      assert r1[0] in g1;
      assert v1 <= v2;
      assert r2[0] in Filter(r2, HasRate(v2));
      assert r2[0] in Filter(r1, HasRate(v2));
      assert v2 <= v1;
      assert Filter(r1, HasRate(v1)) == [r1[0]] + Filter(r1[1..], HasRate(v1));
      assert Filter(r2, HasRate(v1)) == [r2[0]] + Filter(r2[1..], HasRate(v1));
      forall w ensures Filter(r1[1..], HasRate(w)) == Filter(r2[1..], HasRate(w)) {
        if w != v1 {
          assert Filter(r1, HasRate(w)) == Filter(r1[1..], HasRate(w));
          assert Filter(r2, HasRate(w)) == Filter(r2[1..], HasRate(w));
        }
      }
      SortedUnique(r1[1..], r2[1..]);
      assert r1 == [r1[0]] + r1[1..];
      assert r2 == [r2[0]] + r2[1..];
    }
  }

  /** Swapping two neighbours of different rates keeps every rate group. */
  lemma SwapKeepsRateGroups(s: seq<SimilarCase>, j: int, orig: seq<SimilarCase>)
    requires 0 < j < |s|
    requires s[j - 1].successRate != s[j].successRate
    requires SameRateGroups(s, orig)
    ensures SameRateGroups(SwapDown(s, j), orig)
  {
    var t := s[j - 1 := s[j]][j := s[j - 1]];
    var front, back := s[..j - 1], s[j + 1..];
    assert s == front + [s[j - 1], s[j]] + back;
    assert t == front + [s[j], s[j - 1]] + back;
    forall v ensures Filter(t, HasRate(v)) == Filter(orig, HasRate(v)) {
      var p := HasRate(v);
      FilterAppend(front + [s[j - 1], s[j]], back, p);
      FilterAppend(front, [s[j - 1], s[j]], p);
      FilterAppend(front + [s[j], s[j - 1]], back, p);
      FilterAppend(front, [s[j], s[j - 1]], p);
      FilterAppend([s[j - 1]], [s[j]], p);
      FilterAppend([s[j]], [s[j - 1]], p);
    }
  }

  /** s with its neighbours at j - 1 and j exchanged. */
  function SwapDown(s: seq<SimilarCase>, j: int): seq<SimilarCase>
    requires 0 < j < |s|
  {
    s[j - 1 := s[j]][j := s[j - 1]]
  }

  /**
   * The state of sinking s[j] into s[..i + 1]: apart from position j the prefix is
   * sorted, and s[j] rates higher than everything after it in the prefix.
   */
  predicate Sinking(s: seq<SimilarCase>, i: int, j: int)
    requires 0 <= j <= i < |s|
  {
    (forall p, q :: 0 <= p < q <= i && p != j && q != j ==> s[p].successRate >= s[q].successRate)
    && (forall q :: j < q <= i ==> s[j].successRate > s[q].successRate)
  }

  lemma SinkStart(s: seq<SimilarCase>, i: int)
    requires 0 <= i < |s|
    requires SortedDesc(s[..i])
    ensures Sinking(s, i, i)
  {
    assert forall p :: 0 <= p < i ==> s[..i][p] == s[p];
  }

  /** One swap moves the sinking case one place left. */
  lemma SinkStep(s: seq<SimilarCase>, i: int, j: int)
    requires 0 < j <= i < |s|
    requires Sinking(s, i, j)
    requires s[j - 1].successRate < s[j].successRate
    ensures Sinking(SwapDown(s, j), i, j - 1)
    ensures SwapDown(s, j)[i + 1..] == s[i + 1..]
  {
  }

  /** Once the case rates no higher than its left neighbour, the prefix is sorted. */
  lemma SinkDone(s: seq<SimilarCase>, i: int, j: int)
    requires 0 <= j <= i < |s|
    requires Sinking(s, i, j)
    requires j == 0 || s[j - 1].successRate >= s[j].successRate
    ensures SortedDesc(s[..i + 1])
  {
    assert forall p :: 0 <= p <= i ==> s[..i + 1][p] == s[p];
  }

  /**
   * Moves a[i] left past the cases of lower rate before it, so that a[..i + 1]
   * is sorted when a[..i] was, and leaves the cases after i where they were.
   */
  method SinkLast(a: array<SimilarCase>, i: nat, ghost orig: seq<SimilarCase>)
    requires i < a.Length
    requires SortedDesc(a[..i])
    requires SameRateGroups(a[..], orig)
    modifies a
    ensures SortedDesc(a[..i + 1])
    ensures SameRateGroups(a[..], orig)
    ensures a[i + 1..] == old(a[i + 1..])
  {
    SinkStart(a[..], i);
    var j := i;
    while j > 0 && a[j - 1].successRate < a[j].successRate
      invariant 0 <= j <= i
      invariant Sinking(a[..], i, j)
      invariant SameRateGroups(a[..], orig)
      invariant a[i + 1..] == old(a[i + 1..])
    {
      ghost var before := a[..];
      SwapKeepsRateGroups(before, j, orig);
      SinkStep(before, i, j);
      a[j - 1], a[j] := a[j], a[j - 1];
      assert a[..] == SwapDown(before, j);
      j := j - 1;
    }
    SinkDone(a[..], i, j);
  }

  /** Sorts a in place by success rate, highest first, keeping equal rates in order. */
  method SortByRateDesc(a: array<SimilarCase>)
    modifies a
    ensures a[..] == SortByRate(old(a[..]))
  {
    ghost var orig := a[..];
    var i := 0;
    while i < a.Length
      invariant 0 <= i <= a.Length
      invariant SortedDesc(a[..i])
      invariant SameRateGroups(a[..], orig)
    {
      SinkLast(a, i, orig);
      i := i + 1;
    }
    SortByRateStable(orig);
    assert a[..] == a[..a.Length];
    SortedUnique(a[..], SortByRate(orig));
  }

  /**
   * A list built by a comprehension, then sorted in place: the cases go into a
   * fresh array, which SortByRateDesc sorts.
   */
  method SortCases(cases: seq<SimilarCase>) returns (sorted: seq<SimilarCase>)
    ensures sorted == SortByRate(cases)
  {
    var a := new SimilarCase[|cases|](i requires 0 <= i < |cases| => cases[i]);
    assert a[..] == cases;
    SortByRateDesc(a);
    sorted := a[..];
  }
}
