/** Sequence helpers standing for Array.prototype.filter, map, find and findIndex. */
module Seqs {
  import opened Wrappers

  /** `a` is a subsequence of `b`: `a` is `b` with some elements dropped, order kept. */
  predicate Subseq<T(==)>(a: seq<T>, b: seq<T>)
    decreases |b|
  {
    if b == [] then a == []
    else
      || Subseq(a, b[..|b| - 1])
      || (a != [] && a[|a| - 1] == b[|b| - 1] && Subseq(a[..|a| - 1], b[..|b| - 1]))
  }

  /** Array.prototype.filter. */
  function Filter<T(==)>(s: seq<T>, p: T -> bool): (r: seq<T>)
    ensures |r| <= |s|
    ensures forall i :: 0 <= i < |r| ==> r[i] in s && p(r[i])
    ensures forall i :: 0 <= i < |s| && p(s[i]) ==> s[i] in r
    ensures Subseq(r, s)
    decreases |s|
  {
    if s == [] then []
    else
      assert s == s[..|s| - 1] + [s[|s| - 1]];
      var front := Filter(s[..|s| - 1], p);
      if p(s[|s| - 1]) then
        assert (front + [s[|s| - 1]])[..|front|] == front;
        front + [s[|s| - 1]]
      else
        front
  }

  /** Array.prototype.map. */
  function Map<T, U>(s: seq<T>, f: T -> U): (r: seq<U>)
    ensures |r| == |s|
    ensures forall i :: 0 <= i < |s| ==> r[i] == f(s[i])
  {
    seq(|s|, i requires 0 <= i < |s| => f(s[i]))
  }

  /** Array.prototype.findIndex, with None for -1. */
  function FirstIndex<T>(s: seq<T>, p: T -> bool): (r: Option<nat>)
    ensures r.Some? ==> r.value < |s| && p(s[r.value]) && forall j :: 0 <= j < r.value ==> !p(s[j])
    ensures r.None? <==> forall j :: 0 <= j < |s| ==> !p(s[j])
  {
    FirstIndexFrom(s, p, 0)
  }

  function FirstIndexFrom<T>(s: seq<T>, p: T -> bool, k: nat): (r: Option<nat>)
    requires k <= |s|
    requires forall j :: 0 <= j < k ==> !p(s[j])
    ensures r.Some? ==> k <= r.value < |s| && p(s[r.value]) && forall j :: 0 <= j < r.value ==> !p(s[j])
    ensures r.None? <==> forall j :: 0 <= j < |s| ==> !p(s[j])
    decreases |s| - k
  {
    if k == |s| then None
    else if p(s[k]) then Some(k)
    else FirstIndexFrom(s, p, k + 1)
  }

  /** A filter keeps every passing element as often as it occurs, and no other. */
  lemma {:induction false} FilterMultiplicity<T>(s: seq<T>, p: T -> bool)
    ensures forall x :: multiset(Filter(s, p))[x] == (if p(x) then multiset(s)[x] else 0)
    decreases |s|
  {
    if s != [] {
      var front := s[..|s| - 1];
      var y := s[|s| - 1];
      assert s == front + [y];
      FilterMultiplicity(front, p);
      FilterSnoc(front, y, p);
      assert multiset(s) == multiset(front) + multiset{y};
    }
  }

  /** Filtering an element placed in front puts it in front of the filtered rest, when it passes. */
  lemma {:induction false} FilterCons<T>(x: T, s: seq<T>, p: T -> bool)
    ensures Filter([x] + s, p) == (if p(x) then [x] else []) + Filter(s, p)
    decreases |s|
  {
    if s == [] {
      assert [x] + s == [] + [x];
      FilterSnoc([], x, p);
    } else {
      var front := s[..|s| - 1];
      var y := s[|s| - 1];
      assert s == front + [y];
      assert [x] + s == ([x] + front) + [y];
      FilterCons(x, front, p);
      FilterSnoc([x] + front, y, p);
      FilterSnoc(front, y, p);
      SeqAssoc(if p(x) then [x] else [], Filter(front, p), if p(y) then [y] else []);
    }
  }

  /** Putting the same element in front of two sequences keeps a relation between their filters. */
  lemma FilterConsBoth<T>(x: T, s: seq<T>, t: seq<T>, p: T -> bool, extra: seq<T>)
    requires Filter(s, p) == Filter(t, p) + extra
    ensures Filter([x] + s, p) == Filter([x] + t, p) + extra
  {
    var head := if p(x) then [x] else [];
    FilterCons(x, s, p);
    FilterCons(x, t, p);
    SeqAssoc(head, Filter(t, p), extra);
  }

  lemma SeqAssoc<T>(a: seq<T>, b: seq<T>, c: seq<T>)
    ensures a + (b + c) == (a + b) + c
  {
  }

  /** No element passes: the filter is empty. */
  lemma {:induction false} FilterNone<T>(s: seq<T>, p: T -> bool)
    requires forall i :: 0 <= i < |s| ==> !p(s[i])
    ensures Filter(s, p) == []
    decreases |s|
  {
    if s != [] {
      FilterNone(s[..|s| - 1], p);
    }
  }

  /** Filtering with a predicate and with its complement splits the sequence. */
  lemma {:induction false} FilterSplit<T>(s: seq<T>, p: T -> bool, q: T -> bool)
    requires forall x :: q(x) == !p(x)
    ensures |Filter(s, p)| + |Filter(s, q)| == |s|
    decreases |s|
  {
    if s != [] {
      FilterSplit(s[..|s| - 1], p, q);
    }
  }

  /** A filter keeps the whole sequence exactly when every element passes. */
  lemma {:induction false} FilterKeepsAll<T>(s: seq<T>, p: T -> bool)
    ensures |Filter(s, p)| == |s| <==> forall i :: 0 <= i < |s| ==> p(s[i])
    decreases |s|
  {
    if s != [] {
      FilterKeepsAll(s[..|s| - 1], p);
      if !p(s[|s| - 1]) {
        assert |Filter(s, p)| <= |s| - 1;
      }
    }
  }

  /** Filtering with a predicate every element satisfies is the identity. */
  lemma {:induction false} FilterAll<T>(s: seq<T>, p: T -> bool)
    requires forall i :: 0 <= i < |s| ==> p(s[i])
    ensures Filter(s, p) == s
    decreases |s|
  {
    if s != [] {
      assert forall i :: 0 <= i < |s| - 1 ==> s[..|s| - 1][i] == s[i];
      FilterAll(s[..|s| - 1], p);
      assert s == s[..|s| - 1] + [s[|s| - 1]];
    }
  }

  /** Filtering an appended element extends the filtered prefix. */
  lemma FilterSnoc<T>(s: seq<T>, x: T, p: T -> bool)
    ensures Filter(s + [x], p) == Filter(s, p) + (if p(x) then [x] else [])
  {
    assert (s + [x])[..|s + [x]| - 1] == s;
  }

  /** Mapping an appended element extends the mapped prefix. */
  lemma MapSnoc<T, U>(s: seq<T>, x: T, f: T -> U)
    ensures Map(s + [x], f) == Map(s, f) + [f(x)]
  {
    assert forall i :: 0 <= i < |s| ==> (s + [x])[i] == s[i];
  }

  /** Filtering twice is filtering once by the conjunction. */
  lemma {:induction false} FilterFuse<T>(s: seq<T>, p: T -> bool, q: T -> bool, both: T -> bool)
    requires forall x :: both(x) == (p(x) && q(x))
    ensures Filter(Filter(s, p), q) == Filter(s, both)
    decreases |s|
  {
    if s != [] {
      var front := s[..|s| - 1];
      var x := s[|s| - 1];
      assert s == front + [x];
      FilterFuse(front, p, q, both);
      FilterSnoc(front, x, p);
      FilterSnoc(front, x, both);
      if p(x) {
        FilterSnoc(Filter(front, p), x, q);
      }
    }
  }
}
