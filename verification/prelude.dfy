/** Small shared vocabulary: an "undefined" marker for values that the
    indicator starts without, and the real-number helpers every component uses. */
module Prelude {

  /** A value that may be undefined. `None` plays the role of the NaN that
      the indicator stores before a moving average has seen its first input. */
  datatype Option<T> = None | Some(value: T)

  /** The outcome of a whole run: its value, or the reason it has none. */
  datatype Result<T, E> = Success(value: T) | Failure(error: E)

  function Abs(x: real): (r: real)
    ensures r >= 0.0
    ensures r == x || r == -x
  {
    if x < 0.0 then -x else x
  }

  function Max(a: real, b: real): (r: real)
    ensures r >= a && r >= b
    ensures r == a || r == b
  {
    if a >= b then a else b
  }

  /** A list capacity as the source compares it: any capacity below zero
      behaves like zero, because `len(xs) > cap` already holds for the empty list. */
  function Cap(n: int): nat
  {
    if n < 0 then 0 else n
  }

  /** `v` lies between `a` and `b`, in either order. */
  predicate Between(v: real, a: real, b: real)
  {
    (a <= v <= b) || (b <= v <= a)
  }

  /** `d` is a whole number of steps of size `r` (only zero is a multiple of zero). */
  predicate IsMultipleOf(d: real, r: real)
  {
    if r == 0.0 then d == 0.0 else (d / r).Floor as real == d / r
  }

  /** A difference of `k` whole steps is a multiple of the step. */
  lemma MultipleOfSteps(d: real, k: int, r: real)
    requires d == k as real * r
    ensures IsMultipleOf(d, r)
  {
    if r != 0.0 {
      assert d / r == k as real;
    }
  }
}
