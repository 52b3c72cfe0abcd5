/** `Array.prototype.filter` over immutable sequences, and the order-preserving
    subsequence relation its results stand in. */
module Seqs {

  /** `sub` can be obtained from `xs` by deleting elements, without reordering. */
  ghost predicate IsSubsequence<T>(sub: seq<T>, xs: seq<T>)
    decreases |xs|
  {
    && |sub| <= |xs|
    && (|sub| == 0
        || (sub[0] == xs[0] && IsSubsequence(sub[1..], xs[1..]))
        || IsSubsequence(sub, xs[1..]))
  }

  /** `xs.filter(keep)`: the elements of `xs` that satisfy `keep`, in their original order,
      every occurrence of a kept element kept and every occurrence of another one dropped. */
  function Filter<T(!new)>(xs: seq<T>, keep: T -> bool): (r: seq<T>)
    ensures forall x :: x in r <==> x in xs && keep(x)
    ensures forall x :: multiset(r)[x] == if keep(x) then multiset(xs)[x] else 0
    ensures IsSubsequence(r, xs)
    decreases |xs|
  {
    if |xs| == 0 then []
    else
      var rest := Filter(xs[1..], keep);
      assert xs == [xs[0]] + xs[1..];
      assert multiset(xs) == multiset([xs[0]]) + multiset(xs[1..]);
      if keep(xs[0]) then
        assert ([xs[0]] + rest)[1..] == rest;
        assert multiset([xs[0]] + rest) == multiset([xs[0]]) + multiset(rest);
        [xs[0]] + rest
      else rest
  }

  /** Filtering depends only on which elements the predicate keeps. */
  lemma {:induction false} FilterSamePredicate<T(!new)>(xs: seq<T>, p: T -> bool, q: T -> bool)
    requires forall i :: 0 <= i < |xs| ==> p(xs[i]) == q(xs[i])
    ensures Filter(xs, p) == Filter(xs, q)
    decreases |xs|
  {
    if |xs| > 0 {
      FilterSamePredicate(xs[1..], p, q);
    }
  }

  /** When every element passes, filtering returns the sequence itself. */
  lemma {:induction false} FilterKeepsAll<T(!new)>(xs: seq<T>, keep: T -> bool)
    requires forall i :: 0 <= i < |xs| ==> keep(xs[i])
    ensures Filter(xs, keep) == xs
    decreases |xs|
  {
    if |xs| > 0 {
      FilterKeepsAll(xs[1..], keep);
      assert xs == [xs[0]] + xs[1..];
    }
  }

  /** Filtering with a stronger predicate gives a subsequence of filtering with a weaker one. */
  lemma {:induction false} FilterMonotone<T(!new)>(xs: seq<T>, strong: T -> bool, weak: T -> bool)
    requires forall x :: strong(x) ==> weak(x)
    ensures IsSubsequence(Filter(xs, strong), Filter(xs, weak))
    ensures forall x :: x in Filter(xs, strong) ==> x in Filter(xs, weak)
    decreases |xs|
  {
    if |xs| > 0 {
      FilterMonotone(xs[1..], strong, weak);
      var s := Filter(xs[1..], strong);
      var w := Filter(xs[1..], weak);
      if strong(xs[0]) {
        assert ([xs[0]] + s)[1..] == s;
        assert ([xs[0]] + w)[1..] == w;
      } else if weak(xs[0]) {
        assert ([xs[0]] + w)[1..] == w;
      }
    }
  }
}
