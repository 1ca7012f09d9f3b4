/** Folds over finite sequences shared by the analytics: counting, filtering,
    sums and means of exact reals, and literal substring search. */
module Seqs {

  /** Number of elements of `s` satisfying `p` (a pandas boolean-mask `.sum()`). */
  function Count<T>(s: seq<T>, p: T -> bool): (n: nat)
    ensures n <= |s|
    ensures n == 0 <==> forall i :: 0 <= i < |s| ==> !p(s[i])
    ensures n == |s| <==> forall i :: 0 <= i < |s| ==> p(s[i])
  {
    if |s| == 0 then 0
    else Count(s[..|s| - 1], p) + (if p(s[|s| - 1]) then 1 else 0)
  }

  /** The elements of `s` satisfying `p`, in their original order
      (a pandas boolean-mask row selection). */
  function Filter<T(!new)>(s: seq<T>, p: T -> bool): (r: seq<T>)
    ensures |r| == Count(s, p)
    ensures forall i :: 0 <= i < |r| ==> p(r[i])
    ensures forall x :: multiset(r)[x] == if p(x) then multiset(s)[x] else 0
  {
    if |s| == 0 then []
    else
      var init := s[..|s| - 1];
      assert s == init + [s[|s| - 1]];
      Filter(init, p) + (if p(s[|s| - 1]) then [s[|s| - 1]] else [])
  }

  lemma ConcatAssoc<T>(x: seq<T>, y: seq<T>, z: seq<T>)
    ensures (x + y) + z == x + (y + z)
  {
  }

  lemma SplitAt<T>(s: seq<T>, k: int)
    requires 0 <= k <= |s|
    ensures s[..k] + s[k..] == s
  {
  }

  lemma DropLastOfAppend<T>(a: seq<T>, b: seq<T>)
    requires |b| > 0
    ensures (a + b)[..|a + b| - 1] == a + b[..|b| - 1]
    ensures (a + b)[|a + b| - 1] == b[|b| - 1]
  {
  }

  /** Filtering distributes over concatenation. */
  lemma {:induction false} FilterAppend<T(!new)>(a: seq<T>, b: seq<T>, p: T -> bool)
    ensures Filter(a + b, p) == Filter(a, p) + Filter(b, p)
  {
    if |b| == 0 {
      assert a + b == a;
    } else {
      var init := b[..|b| - 1];
      var last := b[|b| - 1];
      var tail := if p(last) then [last] else [];
      DropLastOfAppend(a, b);
      FilterAppend(a, init, p);
      assert Filter(a + b, p) == Filter(a + init, p) + tail;
      assert Filter(b, p) == Filter(init, p) + tail;
      ConcatAssoc(Filter(a, p), Filter(init, p), tail);
    }
  }

  /** `Filter` keeps the original order: a matching element of `s` sits in
      the result at the position given by the number of matches before it.
      Together with the length this fixes the result completely. */
  lemma FilterInOrder<T(!new)>(s: seq<T>, p: T -> bool, i: int)
    requires 0 <= i < |s| && p(s[i])
    ensures Count(s[..i], p) < |Filter(s, p)|
    ensures Filter(s, p)[Count(s[..i], p)] == s[i]
  {
    var upto := s[..i + 1];
    SplitAt(s, i + 1);
    assert upto[..i] == s[..i];
    assert Filter(upto, p) == Filter(s[..i], p) + [s[i]];
    FilterAppend(upto, s[i + 1..], p);
  }

  /** Two sequences of equal length whose elements agree position by
      position on two predicates have the same counts. */
  lemma {:induction false} CountPointwise<A, B>(xs: seq<A>, ys: seq<B>, p: A -> bool, q: B -> bool)
    requires |xs| == |ys|
    requires forall i :: 0 <= i < |xs| ==> p(xs[i]) == q(ys[i])
    ensures Count(xs, p) == Count(ys, q)
  {
    if |xs| > 0 {
      CountPointwise(xs[..|xs| - 1], ys[..|ys| - 1], p, q);
    }
  }

  /** Counting distributes over concatenation. */
  lemma {:induction false} CountAppend<T>(s: seq<T>, t: seq<T>, p: T -> bool)
    ensures Count(s + t, p) == Count(s, p) + Count(t, p)
  {
    if |t| > 0 {
      var t' := t[..|t| - 1];
      assert (s + t)[..|s + t| - 1] == s + t';
      CountAppend(s, t', p);
    } else {
      assert s + t == s;
    }
  }

  /** The conjunction of two element predicates (chained boolean masks). */
  function Both<T>(p: T -> bool, q: T -> bool): T -> bool {
    x => p(x) && q(x)
  }

  /** Counting within a filtered sequence counts the conjunction in the
      original one. */
  lemma {:induction false} CountFilter<T(!new)>(s: seq<T>, p: T -> bool, q: T -> bool)
    ensures Count(Filter(s, p), q) == Count(s, Both(p, q))
  {
    if |s| > 0 {
      var init := s[..|s| - 1];
      var last := s[|s| - 1];
      CountFilter(init, p, q);
      var tail := if p(last) then [last] else [];
      CountAppend(Filter(init, p), tail, q);
      assert Count(tail, q) == if p(last) && q(last) then 1 else 0 by {
        if p(last) {
          assert tail[..0] == [];
        }
      }
    }
  }

  function Sum(xs: seq<real>): real {
    if |xs| == 0 then 0.0 else Sum(xs[..|xs| - 1]) + xs[|xs| - 1]
  }

  function Mean(xs: seq<real>): real
    requires |xs| > 0
  {
    Sum(xs) / |xs| as real
  }

  /** Peeling the first element off a sum. */
  lemma {:induction false} SumFront(xs: seq<real>)
    requires |xs| > 0
    ensures Sum(xs) == xs[0] + Sum(xs[1..])
  {
    if |xs| > 1 {
      var init := xs[..|xs| - 1];
      SumFront(init);
      assert init[1..] == xs[1..][..|xs[1..]| - 1];
    }
  }

  /** A sum of values in [lo, hi] lies in [n*lo, n*hi]. */
  lemma {:induction false} SumBounds(xs: seq<real>, lo: real, hi: real)
    requires forall i :: 0 <= i < |xs| ==> lo <= xs[i] <= hi
    ensures lo * |xs| as real <= Sum(xs) <= hi * |xs| as real
  {
    if |xs| > 0 {
      SumBounds(xs[..|xs| - 1], lo, hi);
    }
  }

  /** A mean of values in [lo, hi] lies in [lo, hi]. */
  lemma MeanBounds(xs: seq<real>, lo: real, hi: real)
    requires |xs| > 0
    requires forall i :: 0 <= i < |xs| ==> lo <= xs[i] <= hi
    ensures lo <= Mean(xs) <= hi
  {
    SumBounds(xs, lo, hi);
    var n := |xs| as real;
    assert Mean(xs) * n == Sum(xs);
  }

  /** `sub` occurs in `s` starting at index `i`. */
  predicate OccursAt(s: string, sub: string, i: int) {
    0 <= i && i + |sub| <= |s| && s[i..i + |sub|] == sub
  }

  /** Case-sensitive literal substring test, as Python's `sub in s`. */
  predicate Contains(s: string, sub: string)
    decreases |s|
  {
    |sub| <= |s| && (s[..|sub|] == sub || Contains(s[1..], sub))
  }

  /** `Contains` holds exactly when there is a position where `sub` occurs. */
  lemma {:induction false} ContainsIff(s: string, sub: string)
    ensures Contains(s, sub) <==> exists i :: OccursAt(s, sub, i)
    decreases |s|
  {
    if |sub| <= |s| {
      if s[..|sub|] == sub {
        assert OccursAt(s, sub, 0);
        return;
      }
      ContainsIff(s[1..], sub);
      if Contains(s[1..], sub) {
        var j :| OccursAt(s[1..], sub, j);
        OccursInTail(s, sub, j + 1);
      } else {
        forall i | 0 < i && i + |sub| <= |s|
          ensures !OccursAt(s, sub, i)
        {
          OccursInTail(s, sub, i);
        }
      }
    }
  }

  /** An occurrence at `i > 0` is an occurrence at `i - 1` in the tail. */
  lemma OccursInTail(s: string, sub: string, i: int)
    requires 0 < i && i + |sub| <= |s|
    ensures OccursAt(s, sub, i) <==> OccursAt(s[1..], sub, i - 1)
  {
    assert s[1..][i - 1..i - 1 + |sub|] == s[i..i + |sub|];
  }
}
