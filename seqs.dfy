/** List operations the source writes with comprehensions and slices:
    `[x for x in s if f(x)]` and `s[:n]`. */
module Seqs {
  import opened Common

  /** `[x for x in s if f(x)]`: the elements of `s` that satisfy `f`, in order. */
  function Filter<T(!new)>(s: seq<T>, f: T -> bool): (r: seq<T>)
    ensures |r| <= |s|
    ensures forall x :: x in r <==> x in s && f(x)
  {
    if |s| == 0 then [] else Filter(s[..|s| - 1], f) + (if f(s[|s| - 1]) then [s[|s| - 1]] else [])
  }

  /** One more step of a loop that filters `s` from the left. */
  lemma FilterStep<T(!new)>(s: seq<T>, i: int, f: T -> bool)
    requires 0 <= i < |s|
    ensures Filter(s[..i + 1], f) == Filter(s[..i], f) + (if f(s[i]) then [s[i]] else [])
  {
    assert s[..i + 1][..i] == s[..i];
  }

  /** Filtering a concatenation filters each part. */
  lemma {:induction false} FilterAppend<T(!new)>(a: seq<T>, b: seq<T>, f: T -> bool)
    ensures Filter(a + b, f) == Filter(a, f) + Filter(b, f)
    decreases |b|
  {
    if |b| > 0 {
      assert (a + b)[..|a + b| - 1] == a + b[..|b| - 1];
      FilterAppend(a, b[..|b| - 1], f);
    } else {
      assert a + b == a;
    }
  }

  /** Lists with equal filters still have equal filters after the same element is appended. */
  lemma FilterSnocCongruent<T(!new)>(a: seq<T>, b: seq<T>, y: T, f: T -> bool)
    requires Filter(a, f) == Filter(b, f)
    ensures Filter(a + [y], f) == Filter(b + [y], f)
  {
    FilterAppend(a, [y], f);
    FilterAppend(b, [y], f);
  }

  /** An element that passes the test is kept at the end. */
  lemma FilterSnocIn<T(!new)>(s: seq<T>, y: T, f: T -> bool)
    requires f(y)
    ensures Filter(s + [y], f) == Filter(s, f) + [y]
  {
    assert (s + [y])[..|s|] == s;
  }

  /** An element that fails the test is dropped. */
  lemma FilterSnocOut<T(!new)>(s: seq<T>, y: T, f: T -> bool)
    requires !f(y)
    ensures Filter(s + [y], f) == Filter(s, f)
  {
    assert (s + [y])[..|s|] == s;
  }

  /** Appending `last` after a list that filters like `u + [x]` filters like
      `u + [last, x]` when `x` and `last` do not both pass the test. */
  lemma FilterSwapLast<T(!new)>(u: seq<T>, v: seq<T>, x: T, last: T, f: T -> bool)
    requires Filter(v, f) == Filter(u + [x], f)
    requires !(f(x) && f(last))
    ensures Filter(v + [last], f) == Filter(u + [last] + [x], f)
  {
    if f(x) {
      FilterSnocOut(v, last, f);
      FilterSnocIn(u, x, f);
      FilterSnocIn(u + [last], x, f);
      FilterSnocOut(u, last, f);
    } else if f(last) {
      FilterSnocIn(v, last, f);
      FilterSnocOut(u, x, f);
      FilterSnocOut(u + [last], x, f);
      FilterSnocIn(u, last, f);
    } else {
      FilterSnocOut(v, last, f);
      FilterSnocOut(u, x, f);
      FilterSnocOut(u + [last], x, f);
      FilterSnocOut(u, last, f);
    }
  }

  /** A filter that every element passes keeps the whole list. */
  lemma {:induction false} FilterAll<T(!new)>(s: seq<T>, f: T -> bool)
    requires forall k :: 0 <= k < |s| ==> f(s[k])
    ensures Filter(s, f) == s
  {
    if |s| > 0 {
      FilterAll(s[..|s| - 1], f);
    }
  }

  /** `[f(x) for x in s]`. */
  function Map<T, U>(s: seq<T>, f: T -> U): (r: seq<U>)
    ensures |r| == |s|
    ensures forall k :: 0 <= k < |s| ==> r[k] == f(s[k])
  {
    if |s| == 0 then [] else [f(s[0])] + Map(s[1..], f)
  }

  /** Mapping a sequence with one more element appends that element's image. */
  lemma MapAppend<T, U>(s: seq<T>, x: T, f: T -> U)
    ensures Map(s + [x], f) == Map(s, f) + [f(x)]
  {
  }

  /** `s[:n]` for `n >= 0`. */
  function Take<T>(s: seq<T>, n: nat): (r: seq<T>)
    ensures |r| <= n && |r| <= |s|
    ensures |s| <= n ==> r == s
    ensures n <= |s| ==> |r| == n
    ensures forall k :: 0 <= k < |r| ==> r[k] == s[k]
  {
    if |s| <= n then s else s[..n]
  }

  /** Python's `s[k:]`: a negative `k` counts from the end, and an index past
      either end is clamped to it. */
  function SliceFrom<T>(s: seq<T>, k: int): (r: seq<T>)
    ensures |r| <= |s| && r == s[|s| - |r|..]
    ensures k >= 0 ==> |r| == if k <= |s| then |s| - k else 0
    ensures k < 0 ==> |r| == if -k <= |s| then -k else |s|
  {
    if k >= 0 then (if k <= |s| then s[k..] else [])
    else if -k <= |s| then s[|s| + k..] else s
  }

  /** Where a loop that applies `step` to each element in order ends: the value
      reached, and whether a step failed (the loop's `try` caught an exception). */
  datatype Folded<S> = Folded(result: S, halted: bool)

  function FoldUntil<S, T>(step: (S, T) -> Option<S>, c: S, xs: seq<T>): Folded<S>
    decreases |xs|
  {
    if |xs| == 0 then Folded(c, false)
    else
      match step(c, xs[0])
      case None => Folded(c, true)
      case Some(c') => FoldUntil(step, c', xs[1..])
  }

  /** The fold from position `i` on is one step, then the fold from `i + 1` on. */
  lemma FoldUntilNext<S, T>(step: (S, T) -> Option<S>, c: S, xs: seq<T>, i: int)
    requires 0 <= i < |xs|
    ensures FoldUntil(step, c, xs[i..]) ==
      match step(c, xs[i])
      case None => Folded(c, true)
      case Some(c') => FoldUntil(step, c', xs[i + 1..])
  {
    assert xs[i..][1..] == xs[i + 1..];
  }

  /** Folding `a + b` folds `a`, then, unless a step failed, `b` from there. */
  lemma {:induction false} FoldUntilAppend<S, T>(step: (S, T) -> Option<S>, c: S, a: seq<T>, b: seq<T>)
    ensures FoldUntil(step, c, a + b) ==
      if FoldUntil(step, c, a).halted then FoldUntil(step, c, a) else FoldUntil(step, FoldUntil(step, c, a).result, b)
    decreases |a|
  {
    if |a| > 0 {
      assert (a + b)[1..] == a[1..] + b;
      match step(c, a[0])
      case None =>
      case Some(c') => FoldUntilAppend(step, c', a[1..], b);
    } else {
      assert a + b == b;
    }
  }

  /** An element on which every step fails ends the fold there. */
  lemma FoldUntilStops<S, T>(step: (S, T) -> Option<S>, c: S, a: seq<T>, x: T, b: seq<T>)
    requires forall v :: step(v, x).None?
    ensures FoldUntil(step, c, a + [x] + b).result == FoldUntil(step, c, a).result
  {
    FoldUntilAppend(step, c, a, [x] + b);
    assert a + [x] + b == a + ([x] + b);
  }

  /** An element on which every step changes nothing can be dropped. */
  lemma FoldUntilSkips<S, T>(step: (S, T) -> Option<S>, c: S, a: seq<T>, x: T, b: seq<T>)
    requires forall v :: step(v, x) == Some(v)
    ensures FoldUntil(step, c, a + [x] + b) == FoldUntil(step, c, a + b)
  {
    FoldUntilAppend(step, c, a, [x] + b);
    FoldUntilAppend(step, c, a, b);
    assert a + [x] + b == a + ([x] + b);
    assert ([x] + b)[1..] == b;
  }

  /** After a fold that did not stop, one more element is one more step. */
  lemma FoldUntilLast<S, T>(step: (S, T) -> Option<S>, c: S, a: seq<T>, x: T)
    requires !FoldUntil(step, c, a).halted
    requires step(FoldUntil(step, c, a).result, x).Some?
    ensures FoldUntil(step, c, a + [x]).result == step(FoldUntil(step, c, a).result, x).value
  {
    FoldUntilAppend(step, c, a, [x]);
    assert [x][1..] == [];
  }

  /** A fold whose every step succeeds, passing through the given values. */
  lemma {:induction false} FoldUntilSteps<S, T>(step: (S, T) -> Option<S>, xs: seq<T>, states: seq<S>)
    requires |states| == |xs| + 1
    requires forall i :: 0 <= i < |xs| ==> step(states[i], xs[i]) == Some(states[i + 1])
    ensures FoldUntil(step, states[0], xs) == Folded(states[|xs|], false)
    decreases |xs|
  {
    if |xs| > 0 {
      assert step(states[0], xs[0]) == Some(states[1]);
      FoldUntilSteps(step, xs[1..], states[1..]);
    }
  }

  /** A fold over four elements whose every step succeeds. */
  lemma FoldUntilSteps4<S, T>(step: (S, T) -> Option<S>, x0: T, x1: T, x2: T, x3: T, s0: S, s1: S, s2: S, s3: S, s4: S)
    requires step(s0, x0) == Some(s1) && step(s1, x1) == Some(s2)
    requires step(s2, x2) == Some(s3) && step(s3, x3) == Some(s4)
    ensures FoldUntil(step, s0, [x0, x1, x2, x3]) == Folded(s4, false)
  {
    FoldUntilSteps(step, [x0, x1, x2, x3], [s0, s1, s2, s3, s4]);
  }
}
