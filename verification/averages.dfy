/** The conditional averages of the range filter: the conditional EMA that
    every smoothed quantity goes through, the plain mean of a list, the
    population variance that the standard-deviation scale takes the root of,
    and the bounded first-in-first-out list that feeds both. */
module Averages {
  import opened Prelude

  /** Smoothing factor 2/(n+1) of an n-period exponential average. */
  function Alpha(n: int): real
    requires n != -1
  {
    2.0 / (n as real + 1.0)
  }

  lemma AlphaIsUnitWeight(n: int)
    requires n >= 1
    ensures 0.0 < Alpha(n) <= 1.0
    ensures n == 1 ==> Alpha(n) == 1.0
  {
    assert Alpha(n) * (n as real + 1.0) == 2.0;
  }

  /** Scaling a difference by a weight in [0, 1] keeps it between zero and itself. */
  lemma WeightedStep(d: real, k: real)
    requires 0.0 <= k <= 1.0
    ensures Between(d * k, 0.0, d)
  {
    if d >= 0.0 {
      assert d * k <= d * 1.0;
    } else {
      assert d * k >= d * 1.0;
    }
  }

  /** Conditional exponential moving average. The average moves towards `x`
      only when `cond` holds; an undefined previous average is replaced by `x`
      on the first update and stays undefined while `cond` is false. */
  function CondEma(x: real, cond: bool, n: int, prev: Option<real>): (r: Option<real>)
    requires n != -1
    ensures !cond ==> r == prev
    ensures cond ==> r.Some?
    ensures cond && prev.None? ==> r == Some(x)
    ensures cond && prev.Some? && n >= 1 ==> Between(r.value, prev.value, x)
    ensures cond && n == 1 ==> r == Some(x)
  {
    var k := Alpha(n);
    if cond then
      match prev
      case None => Some(x)
      case Some(p) =>
        if n >= 1 then
          AlphaIsUnitWeight(n);
          WeightedStep(x - p, k);
          Some((x - p) * k + p)
        else
          Some((x - p) * k + p)
    else
      prev
  }

  /** Feeding the same value to an average that already holds it changes nothing. */
  lemma CondEmaFixedPoint(x: real, cond: bool, n: int)
    requires n != -1
    ensures CondEma(x, cond, n, Some(x)) == Some(x)
  {
  }

  function Sum(xs: seq<real>): real
  {
    if |xs| == 0 then 0.0 else xs[0] + Sum(xs[1..])
  }

  lemma {:induction false} SumAtLeast(xs: seq<real>, lo: real)
    requires forall i :: 0 <= i < |xs| ==> lo <= xs[i]
    ensures |xs| as real * lo <= Sum(xs)
  {
    if |xs| > 0 {
      SumAtLeast(xs[1..], lo);
    }
  }

  lemma {:induction false} SumAtMost(xs: seq<real>, hi: real)
    requires forall i :: 0 <= i < |xs| ==> xs[i] <= hi
    ensures Sum(xs) <= |xs| as real * hi
  {
    if |xs| > 0 {
      SumAtMost(xs[1..], hi);
    }
  }

  /** Arithmetic mean of a list; undefined for the empty list. */
  function Mean(xs: seq<real>): (r: Option<real>)
    ensures r.None? <==> |xs| == 0
    ensures |xs| == 1 ==> r == Some(xs[0])
  {
    if |xs| == 0 then None
    else
      assert |xs| == 1 ==> Sum(xs[1..]) == 0.0;
      Some(Sum(xs) / |xs| as real)
  }

  /** The mean of a non-empty list lies within any bounds that hold for every element. */
  lemma MeanWithin(xs: seq<real>, lo: real, hi: real)
    requires |xs| > 0
    requires forall i :: 0 <= i < |xs| ==> lo <= xs[i] <= hi
    ensures lo <= Mean(xs).value <= hi
  {
    SumAtLeast(xs, lo);
    SumAtMost(xs, hi);
    var n := |xs| as real;
    var m := Mean(xs).value;
    assert m * n == Sum(xs);
    assert (m - hi) * n <= 0.0;
  }

  lemma MeanAtLeast(xs: seq<real>, lo: real)
    requires |xs| > 0
    requires forall i :: 0 <= i < |xs| ==> lo <= xs[i]
    ensures lo <= Mean(xs).value
  {
    SumAtLeast(xs, lo);
    var n := |xs| as real;
    assert Mean(xs).value * n == Sum(xs);
  }

  lemma SquareNonNegative(d: real)
    ensures d * d >= 0.0
  {
    if d < 0.0 {
      assert d * d == (-d) * (-d);
    }
  }

  function SquaredDeviations(xs: seq<real>, m: real): (ys: seq<real>)
    ensures |ys| == |xs|
    ensures forall i :: 0 <= i < |xs| ==> ys[i] == (xs[i] - m) * (xs[i] - m)
  {
    seq(|xs|, i requires 0 <= i < |xs| => (xs[i] - m) * (xs[i] - m))
  }

  lemma SquaredDeviationsNonNegative(xs: seq<real>, m: real)
    ensures forall i :: 0 <= i < |xs| ==> SquaredDeviations(xs, m)[i] >= 0.0
  {
    var ys := SquaredDeviations(xs, m);
    forall i | 0 <= i < |xs|
      ensures ys[i] >= 0.0
    {
      SquareNonNegative(xs[i] - m);
    }
  }

  /** Mean squared deviation of a list from a given centre, undefined for the
      empty list. With the list's own mean as centre this is the population
      variance, the square of the indicator's standard deviation. */
  function MeanSquareDeviation(xs: seq<real>, m: real): (r: Option<real>)
    ensures r.None? <==> |xs| == 0
    ensures r.Some? ==> r.value >= 0.0
  {
    var ys := SquaredDeviations(xs, m);
    if |ys| == 0 then None
    else
      SquaredDeviationsNonNegative(xs, m);
      MeanAtLeast(ys, 0.0);
      Mean(ys)
  }

  /** Population variance: the mean squared deviation from the list's own mean. */
  function Variance(xs: seq<real>): (r: Option<real>)
    ensures r.None? <==> |xs| == 0
    ensures r.Some? ==> r.value >= 0.0
  {
    if |xs| == 0 then None else MeanSquareDeviation(xs, Mean(xs).value)
  }

  /** A window in which every value is the same has no spread. */
  lemma VarianceOfConstant(xs: seq<real>, c: real)
    requires |xs| > 0
    requires forall i :: 0 <= i < |xs| ==> xs[i] == c
    ensures Variance(xs) == Some(0.0)
  {
    MeanWithin(xs, c, c);
    var ys := SquaredDeviations(xs, c);
    MeanWithin(ys, 0.0, 0.0);
  }

  /** The last `k` elements of `s` (all of `s` when it is shorter). */
  function Suffix<T>(s: seq<T>, k: nat): (t: seq<T>)
    ensures |t| == if |s| < k then |s| else k
  {
    if |s| <= k then s else s[|s| - k..]
  }

  /** Append `x`, then drop the oldest element once if the list is longer than `cap`. */
  function BoundedPush<T>(w: seq<T>, x: T, cap: int): (r: seq<T>)
    ensures |w| <= Cap(cap) ==> r == Suffix(w + [x], Cap(cap))
    ensures |w| <= Cap(cap) ==> |r| <= Cap(cap)
    ensures cap >= 1 ==> |r| > 0 && r[|r| - 1] == x
  {
    var w' := w + [x];
    if |w'| > cap then w'[1..] else w'
  }

  /** Pushing every value of `xs` in turn into an initially empty bounded list. */
  function PushAll<T>(xs: seq<T>, cap: int): seq<T>
  {
    if |xs| == 0 then [] else BoundedPush(PushAll(xs[..|xs| - 1], cap), xs[|xs| - 1], cap)
  }

  /** The bounded list is a sliding window: after any number of pushes it holds
      exactly the last `cap` values pushed, oldest first. */
  lemma {:induction false} PushAllIsSlidingWindow<T>(xs: seq<T>, cap: int)
    ensures PushAll(xs, cap) == Suffix(xs, Cap(cap))
  {
    if |xs| > 0 {
      var init := xs[..|xs| - 1];
      PushAllIsSlidingWindow(init, cap);
      PushOntoSuffix(init, xs[|xs| - 1], cap);
      assert init + [xs[|xs| - 1]] == xs;
    }
  }

  /** Pushing onto the last `cap` values of `s` gives the last `cap` values of `s` extended. */
  lemma PushOntoSuffix<T>(s: seq<T>, x: T, cap: int)
    ensures BoundedPush(Suffix(s, Cap(cap)), x, cap) == Suffix(s + [x], Cap(cap))
  {
    var k := Cap(cap);
    if |s| >= k {
      var w := s[|s| - k..];
      assert Suffix(s, k) == w;
      assert (w + [x])[1..] == (s + [x])[|s| + 1 - k..];
    }
  }
}
