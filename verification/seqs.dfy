/** Sequence helpers shared by the store and the matcher: order-preserving
    filtering (a list comprehension with an `if`), Python's `xs[:k]` slice,
    and counting. */
module Seqs {
  import opened Wrappers

  /** `ys` can be obtained from `xs` by deleting elements, so it keeps the
      relative order of what it retains. */
  ghost predicate IsSubsequence<T>(ys: seq<T>, xs: seq<T>)
    decreases |xs|
  {
    ys == [] ||
    (xs != [] &&
     ((ys[0] == xs[0] && IsSubsequence(ys[1..], xs[1..])) || IsSubsequence(ys, xs[1..])))
  }

  /** `[x for x in xs if p(x)]` */
  function Filter<T(!new)>(xs: seq<T>, p: T -> bool): (r: seq<T>)
    ensures |r| <= |xs|
    ensures forall x :: x in r <==> x in xs && p(x)
    ensures IsSubsequence(r, xs)
  {
    if xs == [] then []
    else
      var rest := Filter(xs[1..], p);
      if p(xs[0]) then [xs[0]] + rest else rest
  }

  lemma {:induction false} FilterKeepsAll<T(!new)>(xs: seq<T>, p: T -> bool)
    requires forall i :: 0 <= i < |xs| ==> p(xs[i])
    ensures Filter(xs, p) == xs
    decreases |xs|
  {
    if xs != [] {
      FilterKeepsAll(xs[1..], p);
    }
  }

  /** Predicates that agree on every element of `xs` filter it alike. */
  lemma {:induction false} FilterAgree<T(!new)>(xs: seq<T>, p: T -> bool, q: T -> bool)
    requires forall i :: 0 <= i < |xs| ==> p(xs[i]) == q(xs[i])
    ensures Filter(xs, p) == Filter(xs, q)
    decreases |xs|
  {
    if xs != [] {
      FilterAgree(xs[1..], p, q);
    }
  }

  /** Every element `Filter` keeps satisfies `p`, and any property `q` all
      of `xs` has. */
  lemma {:induction false} FilterPreserves<T(!new)>(xs: seq<T>, p: T -> bool, q: T -> bool)
    requires forall i :: 0 <= i < |xs| ==> q(xs[i])
    ensures forall i :: 0 <= i < |Filter(xs, p)| ==> p(Filter(xs, p)[i]) && q(Filter(xs, p)[i])
    decreases |xs|
  {
    if xs != [] {
      FilterPreserves(xs[1..], p, q);
    }
  }

  /** `Filter` keeps every occurrence of what satisfies `p` and nothing
      else: each value occurs in the result as often as in `xs` when it
      satisfies `p`, and not at all otherwise. */
  lemma {:induction false} FilterCounts<T(!new)>(xs: seq<T>, p: T -> bool)
    ensures forall x :: multiset(Filter(xs, p))[x] == if p(x) then multiset(xs)[x] else 0
    decreases |xs|
  {
    if xs != [] {
      FilterCounts(xs[1..], p);
      assert xs == [xs[0]] + xs[1..];
    }
  }

  /** The first failure `f` reports along `xs`, as a loop that stops at the
      first element that raises. */
  function FirstFailure<T, E>(xs: seq<T>, f: T -> Option<E>): (r: Option<E>)
    ensures r.None? <==> forall i :: 0 <= i < |xs| ==> f(xs[i]).None?
    decreases |xs|
  {
    if xs == [] then None
    else if f(xs[0]).Some? then f(xs[0])
    else
      var r := FirstFailure(xs[1..], f);
      assert forall i :: 1 <= i < |xs| ==> xs[i] == xs[1..][i - 1];
      r
  }

  /** The failure reported is the one at the first element that fails. */
  lemma {:induction false} FirstFailureAt<T, E>(xs: seq<T>, f: T -> Option<E>, i: nat)
    requires i < |xs| && f(xs[i]).Some?
    requires forall j :: 0 <= j < i ==> f(xs[j]).None?
    ensures FirstFailure(xs, f) == f(xs[i])
    decreases i
  {
    if i > 0 {
      FirstFailureAt(xs[1..], f, i - 1);
    }
  }

  /** Number of elements of `xs` satisfying `p`. */
  function Count<T(!new)>(xs: seq<T>, p: T -> bool): (n: nat)
    ensures n <= |xs|
    ensures n == |Filter(xs, p)|
  {
    if xs == [] then 0 else (if p(xs[0]) then 1 else 0) + Count(xs[1..], p)
  }

  /** Two properties no element has at once are counted at most `|xs|` times
      between them. */
  lemma {:induction false} DisjointCounts<T(!new)>(xs: seq<T>, p: T -> bool, q: T -> bool)
    requires forall i :: 0 <= i < |xs| ==> !(p(xs[i]) && q(xs[i]))
    ensures Count(xs, p) + Count(xs, q) <= |xs|
    decreases |xs|
  {
    if xs != [] {
      DisjointCounts(xs[1..], p, q);
    }
  }

  /** A property implied by another is counted at least as often. */
  lemma {:induction false} CountImplied<T(!new)>(xs: seq<T>, p: T -> bool, q: T -> bool)
    requires forall i :: 0 <= i < |xs| ==> p(xs[i]) ==> q(xs[i])
    ensures Count(xs, p) <= Count(xs, q)
    decreases |xs|
  {
    if xs != [] {
      CountImplied(xs[1..], p, q);
    }
  }

  function Min(a: int, b: int): int {
    if a <= b then a else b
  }

  function Max(a: int, b: int): int {
    if a >= b then a else b
  }

  /** The length of `xs[:bound]` for a list of length `n`. */
  function SliceLength(n: nat, bound: Option<int>): nat {
    match bound
    case None => n
    case Some(k) => if k >= 0 then Min(k, n) else Max(0, n + k)
  }

  /** Python's `xs[:bound]`: `None` keeps everything, a bound past the end
      keeps everything, a negative bound drops that many elements from the
      end. */
  function Take<T>(xs: seq<T>, bound: Option<int>): (r: seq<T>)
    ensures |r| <= |xs| && r == xs[..|r|]
    ensures |r| == SliceLength(|xs|, bound)
    ensures bound.None? ==> |r| == |xs|
    ensures bound.Some? && bound.value >= 0 ==> |r| == Min(bound.value, |xs|)
    ensures bound.Some? && bound.value < 0 ==> |r| == Max(0, |xs| + bound.value)
  {
    match bound
    case None => xs
    case Some(k) =>
      if k >= 0 then (if k < |xs| then xs[..k] else xs)
      else (if |xs| + k > 0 then xs[..|xs| + k] else [])
  }

  /** `[f(x) for x in xs]` */
  function Map<T, U>(xs: seq<T>, f: T -> U): (r: seq<U>)
    ensures |r| == |xs|
    ensures forall i :: 0 <= i < |xs| ==> r[i] == f(xs[i])
  {
    seq(|xs|, i requires 0 <= i < |xs| => f(xs[i]))
  }
}
