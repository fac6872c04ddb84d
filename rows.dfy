/** Row selection on an ordered frame: the boolean-mask selection `df[mask]`
    of pandas keeps the rows whose mask entry is true, in their order. */
module Rows {

  /** The rows of `s` that satisfy `p`, in their original order. */
  function Filter<T>(s: seq<T>, p: T -> bool): (r: seq<T>)
    ensures |r| <= |s|
    ensures forall i :: 0 <= i < |r| ==> p(r[i])
  {
    if s == [] then []
    else if p(s[0]) then [s[0]] + Filter(s[1..], p)
    else Filter(s[1..], p)
  }

  /** `r` is obtained from `s` by deleting some of its elements. */
  predicate IsSubseq<T(==)>(r: seq<T>, s: seq<T>)
    decreases |s|
  {
    r == [] || (s != [] && ((r[0] == s[0] && IsSubseq(r[1..], s[1..])) || IsSubseq(r, s[1..])))
  }

  /** Selection keeps the relative order of the rows it keeps. */
  lemma {:induction false} FilterIsSubseq<T>(s: seq<T>, p: T -> bool)
    ensures IsSubseq(Filter(s, p), s)
  {
    if s != [] {
      FilterIsSubseq(s[1..], p);
      var r := Filter(s, p);
      if p(s[0]) {
        assert r[0] == s[0] && r[1..] == Filter(s[1..], p);
      }
    }
  }

  /** Selection keeps every occurrence of a matching row and no occurrence
      of any other row. */
  lemma {:induction false} FilterMultiset<T>(s: seq<T>, p: T -> bool)
    ensures forall x :: multiset(Filter(s, p))[x] == if p(x) then multiset(s)[x] else 0
  {
    if s != [] {
      FilterMultiset(s[1..], p);
      assert s == [s[0]] + s[1..];
      assert multiset(s) == multiset{s[0]} + multiset(s[1..]);
    }
  }

  /** A row is selected exactly when it is a row of `s` that satisfies `p`. */
  lemma FilterMembership<T>(s: seq<T>, p: T -> bool)
    ensures forall x :: x in Filter(s, p) <==> x in s && p(x)
  {
    FilterMultiset(s, p);
    forall x ensures x in Filter(s, p) <==> x in s && p(x) {
      assert x in Filter(s, p) <==> multiset(Filter(s, p))[x] > 0;
      assert x in s <==> multiset(s)[x] > 0;
    }
  }

  /** A predicate every row satisfies selects everything. */
  lemma {:induction false} FilterAllPass<T>(s: seq<T>, p: T -> bool)
    requires forall i :: 0 <= i < |s| ==> p(s[i])
    ensures Filter(s, p) == s
  {
    if s != [] {
      FilterAllPass(s[1..], p);
      assert s == [s[0]] + s[1..];
    }
  }

  /** A predicate no row satisfies selects nothing. */
  lemma {:induction false} FilterNonePass<T>(s: seq<T>, p: T -> bool)
    requires forall i :: 0 <= i < |s| ==> !p(s[i])
    ensures Filter(s, p) == []
  {
    if s != [] {
      FilterNonePass(s[1..], p);
    }
  }

  /** Two selections commute: their order does not change the result. */
  lemma {:induction false} FilterCommutes<T>(s: seq<T>, p: T -> bool, q: T -> bool)
    ensures Filter(Filter(s, p), q) == Filter(Filter(s, q), p)
  {
    if s != [] {
      FilterCommutes(s[1..], p, q);
      var t := s[1..];
      if p(s[0]) {
        assert Filter(s, p) == [s[0]] + Filter(t, p);
        assert Filter([s[0]] + Filter(t, p), q) == if q(s[0]) then [s[0]] + Filter(Filter(t, p), q) else Filter(Filter(t, p), q) by {
          assert ([s[0]] + Filter(t, p))[0] == s[0];
          assert ([s[0]] + Filter(t, p))[1..] == Filter(t, p);
        }
      }
      if q(s[0]) {
        assert Filter(s, q) == [s[0]] + Filter(t, q);
        assert Filter([s[0]] + Filter(t, q), p) == if p(s[0]) then [s[0]] + Filter(Filter(t, q), p) else Filter(Filter(t, q), p) by {
          assert ([s[0]] + Filter(t, q))[0] == s[0];
          assert ([s[0]] + Filter(t, q))[1..] == Filter(t, q);
        }
      }
    }
  }

  /** Two masks that never hold together select disjoint groups of rows, which
      together are no larger than the frame; when every row satisfies one of
      the masks, the two groups account for every row. */
  lemma {:induction false} FilterSplitLength<T>(s: seq<T>, p: T -> bool, q: T -> bool)
    requires forall i :: 0 <= i < |s| ==> !(p(s[i]) && q(s[i]))
    ensures |Filter(s, p)| + |Filter(s, q)| <= |s|
    ensures (forall i :: 0 <= i < |s| ==> p(s[i]) || q(s[i])) ==> |Filter(s, p)| + |Filter(s, q)| == |s|
  {
    if s != [] {
      FilterSplitLength(s[1..], p, q);
      assert forall i :: 1 <= i < |s| ==> s[i] == s[1..][i - 1];
    }
  }

  /** The frame obtained by deriving every row with `f`, row by row. */
  function Map<T, U>(s: seq<T>, f: T -> U): (r: seq<U>)
    ensures |r| == |s|
    ensures forall i :: 0 <= i < |s| ==> r[i] == f(s[i])
  {
    seq(|s|, i requires 0 <= i < |s| => f(s[i]))
  }

  /** Selecting after a row-wise derivation is deriving after selecting with
      the mask read through the derivation: the same rows survive, in the
      same order and with the same multiplicities. */
  lemma {:induction false} FilterMap<T, U>(s: seq<T>, f: T -> U, p: U -> bool, q: T -> bool)
    requires forall x :: q(x) == p(f(x))
    ensures Filter(Map(s, f), p) == Map(Filter(s, q), f)
  {
    if s != [] {
      FilterMap(s[1..], f, p, q);
      assert Map(s, f)[0] == f(s[0]);
      assert Map(s, f)[1..] == Map(s[1..], f);
      if q(s[0]) {
        assert Map(Filter(s, q), f) == [f(s[0])] + Map(Filter(s[1..], q), f);
      }
    }
  }
}
