/**
 * JavaScript's `Array.prototype.filter` and the summing `reduce((sum, x) => sum + f(x), 0)`,
 * with the facts the admin pages rely on: filtering keeps order and membership,
 * disjoint filters never count an element twice, and a sum splits along a filter.
 */
module Seqs {

  /** `s.filter(p)` */
  function Filter<T>(s: seq<T>, p: T -> bool): (r: seq<T>)
    ensures |r| <= |s|
    ensures forall i :: 0 <= i < |r| ==> r[i] in s && p(r[i])
    ensures forall i :: 0 <= i < |s| && p(s[i]) ==> s[i] in r
  {
    if s == [] then [] else (if p(s[0]) then [s[0]] else []) + Filter(s[1..], p)
  }

  /** `a` is `b` with some elements left out, the others kept in their order. */
  ghost predicate SubsequenceOf<T>(a: seq<T>, b: seq<T>)
    decreases |b|
  {
    if b == [] then a == []
    else (a != [] && a[0] == b[0] && SubsequenceOf(a[1..], b[1..])) || SubsequenceOf(a, b[1..])
  }

  /** `s.reduce((sum, x) => sum + f(x), 0)` over integers. */
  function SumInt<T>(s: seq<T>, f: T -> int): int {
    if s == [] then 0 else f(s[0]) + SumInt(s[1..], f)
  }

  /** `s.reduce((sum, x) => sum + f(x), 0)` over exact numbers. */
  function SumReal<T>(s: seq<T>, f: T -> real): real {
    if s == [] then 0.0 else f(s[0]) + SumReal(s[1..], f)
  }

  /** Filtering a concatenation filters each part in place: the kept elements stay in their original order. */
  lemma {:induction false} FilterAppend<T>(a: seq<T>, b: seq<T>, p: T -> bool)
    ensures Filter(a + b, p) == Filter(a, p) + Filter(b, p)
  {
    if a == [] {
      assert a + b == b;
    } else {
      assert (a + b)[0] == a[0] && (a + b)[1..] == a[1..] + b;
      FilterAppend(a[1..], b, p);
    }
  }

  /** A filter only leaves elements out: what it keeps stays in its original order. */
  lemma {:induction false} FilterIsSubsequence<T>(s: seq<T>, p: T -> bool)
    ensures SubsequenceOf(Filter(s, p), s)
  {
    if s != [] {
      FilterIsSubsequence(s[1..], p);
      if p(s[0]) {
        assert Filter(s, p)[1..] == Filter(s[1..], p);
      } else {
        assert Filter(s, p) == Filter(s[1..], p);
      }
    }
  }

  /** With no negative terms, the sum over what a filter keeps lies between 0 and the whole sum. */
  lemma {:induction false} SumRealFilterBounds<T>(s: seq<T>, p: T -> bool, f: T -> real)
    requires forall i :: 0 <= i < |s| ==> f(s[i]) >= 0.0
    ensures 0.0 <= SumReal(Filter(s, p), f) <= SumReal(s, f)
  {
    if s != [] {
      SumRealFilterBounds(s[1..], p, f);
      if p(s[0]) {
        assert Filter(s, p) == [s[0]] + Filter(s[1..], p);
        assert SumReal(Filter(s, p), f) == f(s[0]) + SumReal(Filter(s[1..], p), f) by {
          assert Filter(s, p)[1..] == Filter(s[1..], p);
        }
      } else {
        assert Filter(s, p) == Filter(s[1..], p);
      }
    }
  }

  /** Three filters that no element passes two of count, together, at most the whole sequence. */
  lemma ThreeDisjointCounts<T>(s: seq<T>, p: T -> bool, q: T -> bool, r: T -> bool)
    requires forall i :: 0 <= i < |s| ==> !(p(s[i]) && q(s[i])) && !(p(s[i]) && r(s[i])) && !(q(s[i]) && r(s[i]))
    ensures |Filter(s, p)| + |Filter(s, q)| + |Filter(s, r)| <= |s|
  {
    DisjointFilterCounts(s, p, q);
    var pq := x => p(x) || q(x);
    DisjointFilterCounts(s, pq, r);
  }

  /** A filter that every element passes keeps the whole sequence. */
  lemma {:induction false} FilterKeepsAll<T>(s: seq<T>, p: T -> bool)
    requires forall i :: 0 <= i < |s| ==> p(s[i])
    ensures Filter(s, p) == s
  {
    if s != [] {
      FilterKeepsAll(s[1..], p);
    }
  }

  /** Two filters that no element passes together select, between them, exactly what their disjunction selects. */
  lemma {:induction false} DisjointFilterCounts<T>(s: seq<T>, p: T -> bool, q: T -> bool)
    requires forall i :: 0 <= i < |s| ==> !(p(s[i]) && q(s[i]))
    ensures |Filter(s, p)| + |Filter(s, q)| == |Filter(s, x => p(x) || q(x))| <= |s|
  {
    if s != [] {
      DisjointFilterCounts(s[1..], p, q);
    }
  }

  /** The complementary filters split a sequence's length. */
  lemma {:induction false} FilterComplementCount<T>(s: seq<T>, p: T -> bool)
    ensures |Filter(s, p)| + |Filter(s, x => !p(x))| == |s|
  {
    if s != [] {
      FilterComplementCount(s[1..], p);
    }
  }

  /** A sum splits into the part a filter keeps and the part its complement `q` keeps. */
  lemma {:induction false} SumIntSplit<T>(s: seq<T>, p: T -> bool, q: T -> bool, f: T -> int)
    requires forall x :: q(x) == !p(x)
    ensures SumInt(s, f) == SumInt(Filter(s, p), f) + SumInt(Filter(s, q), f)
  {
    if s != [] {
      SumIntSplit(s[1..], p, q, f);
      var head := [s[0]];
      SumIntAppend(if p(s[0]) then head else [], Filter(s[1..], p), f);
      SumIntAppend(if p(s[0]) then [] else head, Filter(s[1..], q), f);
    }
  }

  lemma {:induction false} SumIntAppend<T>(a: seq<T>, b: seq<T>, f: T -> int)
    ensures SumInt(a + b, f) == SumInt(a, f) + SumInt(b, f)
  {
    if a == [] {
      assert a + b == b;
    } else {
      assert (a + b)[0] == a[0] && (a + b)[1..] == a[1..] + b;
      SumIntAppend(a[1..], b, f);
    }
  }

  lemma {:induction false} SumRealSplit<T>(s: seq<T>, p: T -> bool, q: T -> bool, f: T -> real)
    requires forall x :: q(x) == !p(x)
    ensures SumReal(s, f) == SumReal(Filter(s, p), f) + SumReal(Filter(s, q), f)
  {
    if s != [] {
      SumRealSplit(s[1..], p, q, f);
      var head := [s[0]];
      SumRealAppend(if p(s[0]) then head else [], Filter(s[1..], p), f);
      SumRealAppend(if p(s[0]) then [] else head, Filter(s[1..], q), f);
    }
  }

  lemma {:induction false} SumRealAppend<T>(a: seq<T>, b: seq<T>, f: T -> real)
    ensures SumReal(a + b, f) == SumReal(a, f) + SumReal(b, f)
  {
    if a == [] {
      assert a + b == b;
    } else {
      assert (a + b)[0] == a[0] && (a + b)[1..] == a[1..] + b;
      SumRealAppend(a[1..], b, f);
    }
  }

  lemma {:induction false} SumIntNonNegative<T>(s: seq<T>, f: T -> int)
    requires forall i :: 0 <= i < |s| ==> f(s[i]) >= 0
    ensures SumInt(s, f) >= 0
  {
    if s != [] {
      SumIntNonNegative(s[1..], f);
    }
  }

  lemma {:induction false} SumRealNonNegative<T>(s: seq<T>, f: T -> real)
    requires forall i :: 0 <= i < |s| ==> f(s[i]) >= 0.0
    ensures SumReal(s, f) >= 0.0
  {
    if s != [] {
      SumRealNonNegative(s[1..], f);
    }
  }
}
