/** Sequence combinators with the meaning of JavaScript's `Array.prototype.filter`,
    `slice(0, n)` and `reduce((acc, x) => acc + f(x), 0)`, and the facts about
    them that the store and the views rely on. */
module Seqs {

  /** `xs.filter(keep)`: the elements of `xs` that satisfy `keep`, in their order. */
  function Filter<T(==)>(xs: seq<T>, keep: T -> bool): (r: seq<T>)
    ensures |r| <= |xs|
    ensures forall i :: 0 <= i < |r| ==> keep(r[i]) && r[i] in xs
    ensures forall i :: 0 <= i < |xs| && keep(xs[i]) ==> xs[i] in r
  {
    if xs == [] then []
    else
      assert xs == [xs[0]] + xs[1..];
      if keep(xs[0]) then [xs[0]] + Filter(xs[1..], keep) else Filter(xs[1..], keep)
  }

  /** Filtering keeps every occurrence of a kept value and none of a dropped one:
      the result's multiset is the input's, restricted to `keep`. */
  lemma {:induction false} FilterCounts<T>(xs: seq<T>, keep: T -> bool)
    ensures forall x :: multiset(Filter(xs, keep))[x] == if keep(x) then multiset(xs)[x] else 0
  {
    if xs != [] {
      FilterCounts(xs[1..], keep);
      assert xs == [xs[0]] + xs[1..];
      assert multiset(xs) == multiset([xs[0]]) + multiset(xs[1..]);
      var rest := Filter(xs[1..], keep);
      if keep(xs[0]) {
        assert Filter(xs, keep) == [xs[0]] + rest;
        assert multiset([xs[0]] + rest) == multiset([xs[0]]) + multiset(rest);
      }
    }
  }

  /** `a` is an order-preserving subsequence of `b` (greedy matching). */
  predicate IsSubseq<T(==)>(a: seq<T>, b: seq<T>)
    decreases |b|
  {
    if a == [] then true
    else if b == [] then false
    else if a[0] == b[0] then IsSubseq(a[1..], b[1..])
    else IsSubseq(a, b[1..])
  }

  /** Filtering never reorders: the result is a subsequence of the input. */
  lemma {:induction false} FilterIsSubseq<T>(xs: seq<T>, keep: T -> bool)
    ensures IsSubseq(Filter(xs, keep), xs)
  {
    if xs != [] {
      FilterIsSubseq(xs[1..], keep);
      if !keep(xs[0]) {
        SubseqDropHead(Filter(xs[1..], keep), xs);
      }
    }
  }

  /** A subsequence of the tail of `b` is a subsequence of `b`. */
  lemma {:induction false} SubseqDropHead<T>(a: seq<T>, b: seq<T>)
    requires b != []
    requires IsSubseq(a, b[1..])
    ensures IsSubseq(a, b)
    decreases |b|, 0
  {
    if a != [] && a[0] == b[0] {
      // b[1..] must contain a[0] followed by the rest of a; peel one step.
      SubseqTail(a, b[1..]);
    }
  }

  /** Dropping the first element of a subsequence keeps it a subsequence. */
  lemma {:induction false} SubseqTail<T>(a: seq<T>, b: seq<T>)
    requires a != []
    requires IsSubseq(a, b)
    ensures IsSubseq(a[1..], b)
    decreases |b|, 1
  {
    assert b != [];
    if a[0] == b[0] {
      if a[1..] != [] {
        SubseqDropHead(a[1..], b);
      }
    } else {
      SubseqTail(a, b[1..]);
      if a[1..] != [] {
        SubseqDropHead(a[1..], b);
      }
    }
  }

  /** When every element is kept, filtering is the identity. */
  lemma {:induction false} FilterKeepsAll<T>(xs: seq<T>, keep: T -> bool)
    requires forall i :: 0 <= i < |xs| ==> keep(xs[i])
    ensures Filter(xs, keep) == xs
  {
    if xs != [] {
      FilterKeepsAll(xs[1..], keep);
    }
  }

  /** Filtering distributes over concatenation. */
  lemma {:induction false} FilterConcat<T>(xs: seq<T>, ys: seq<T>, keep: T -> bool)
    ensures Filter(xs + ys, keep) == Filter(xs, keep) + Filter(ys, keep)
  {
    if xs == [] {
      assert xs + ys == ys;
    } else {
      assert (xs + ys)[1..] == xs[1..] + ys;
      FilterConcat(xs[1..], ys, keep);
    }
  }

  /** A stronger predicate keeps no more elements than a weaker one. */
  lemma {:induction false} FilterMonotone<T>(xs: seq<T>, p: T -> bool, q: T -> bool)
    requires forall x :: p(x) ==> q(x)
    ensures |Filter(xs, p)| <= |Filter(xs, q)|
  {
    if xs != [] {
      FilterMonotone(xs[1..], p, q);
    }
  }

  /** Every element is kept either by `keep` or by its negation, never both. */
  lemma {:induction false} FilterComplement<T>(xs: seq<T>, keep: T -> bool, drop: T -> bool)
    requires forall x :: drop(x) == !keep(x)
    ensures |Filter(xs, keep)| + |Filter(xs, drop)| == |xs|
  {
    if xs != [] {
      FilterComplement(xs[1..], keep, drop);
    }
  }

  /** Predicates that agree on every element filter alike. */
  lemma {:induction false} FilterExt<T>(xs: seq<T>, p: T -> bool, q: T -> bool)
    requires forall i :: 0 <= i < |xs| ==> p(xs[i]) == q(xs[i])
    ensures Filter(xs, p) == Filter(xs, q)
  {
    if xs != [] {
      FilterExt(xs[1..], p, q);
    }
  }

  /** If, position by position, `ys` satisfies `p` only where `xs` does, then `ys`
      keeps no more elements than `xs`. */
  lemma {:induction false} FilterPointwiseMonotone<T>(xs: seq<T>, ys: seq<T>, p: T -> bool)
    requires |xs| == |ys|
    requires forall i :: 0 <= i < |ys| && p(ys[i]) ==> p(xs[i])
    ensures |Filter(ys, p)| <= |Filter(xs, p)|
  {
    if xs != [] {
      FilterPointwiseMonotone(xs[1..], ys[1..], p);
    }
  }

  /** `xs.slice(0, n)`: the first `min(n, |xs|)` elements. */
  function Take<T>(xs: seq<T>, n: nat): (r: seq<T>)
    ensures |r| == if n < |xs| then n else |xs|
    ensures r <= xs
  {
    if n < |xs| then xs[..n] else xs
  }

  /** `xs.reduce((acc, x) => acc + f(x), 0)`. */
  function SumBy<T>(xs: seq<T>, f: T -> int): int
  {
    if xs == [] then 0 else f(xs[0]) + SumBy(xs[1..], f)
  }

  /** The sum over a concatenation is the sum of the sums. */
  lemma {:induction false} SumByConcat<T>(xs: seq<T>, ys: seq<T>, f: T -> int)
    ensures SumBy(xs + ys, f) == SumBy(xs, f) + SumBy(ys, f)
  {
    if xs == [] {
      assert xs + ys == ys;
    } else {
      assert (xs + ys)[1..] == xs[1..] + ys;
      SumByConcat(xs[1..], ys, f);
    }
  }
}
