/** The filter recurrence: range smoothing, first-bar initialisation, the
    Type 1 clamp, the Type 2 whole-step catch-up, the bands, and the optional
    averaging of the filter over its change events. */
module Recurrence {
  import opened Prelude
  import opened Averages
  import opened Params

  /** Type 1: the filter is pulled to within `r` of the bar, the upper side first. */
  function Type1Step(prev: real, h: real, l: real, r: real): (f: real)
    ensures f == h - r || f == l + r || f == prev
    ensures f > prev ==> f == h - r
    ensures f < prev ==> f == l + r
    ensures h == l && r >= 0.0 ==> h - r <= f <= h + r
  {
    if h - r > prev then h - r
    else if l + r < prev then l + r
    else prev
  }

  function Clamp(v: real, lo: real, hi: real): real
    requires lo <= hi
  {
    if v < lo then lo else if v > hi then hi else v
  }

  /** When the band [h - r, l + r] is not inverted, Type 1 is the ordinary
      clamp of the previous value into it. */
  lemma Type1IsClamp(prev: real, h: real, l: real, r: real)
    requires h - r <= l + r
    ensures Type1Step(prev, h, l, r) == Clamp(prev, h - r, l + r)
  {
  }

  /** Repeating a Type 1 step on the same bar changes nothing exactly when the
      bar spans at most two ranges; on a wider bar the two clamps disagree and
      a second step jumps to the other side. */
  lemma Type1Idempotent(prev: real, h: real, l: real, r: real)
    ensures var f := Type1Step(prev, h, l, r);
      Type1Step(f, h, l, r) == f <==> h - l <= 2.0 * r
  {
  }

  /** Type 2 moves the filter when price reaches a whole range away from it. */
  predicate Type2Moves(prev: real, h: real, l: real, r: real)
  {
    h >= prev + r || l <= prev - r
  }

  /** Floor of `d / r` scaled back by `r`: the whole steps of size `r > 0` that fit in `d`. */
  lemma WholeSteps(d: real, r: real)
    requires r > 0.0
    ensures (d / r).Floor as real * r <= d
    ensures d < (d / r).Floor as real * r + r
  {
    var q := d / r;
    var k := q.Floor as real;
    assert k <= q < k + 1.0;
    assert q * r == d;
    var e := q - k;
    assert 0.0 <= e < 1.0;
    assert e * r < r;
    assert d == k * r + e * r;
    assert d < k * r + r;
    assert k * r + r == (d / r).Floor as real * r + r;
  }

  /** The whole steps of size `r` that price `p` has travelled from `prev`. */
  function StepCount(prev: real, p: real, r: real): int
    requires r != 0.0
  {
    (Abs(p - prev) / r).Floor
  }

  /** The distance covered by those whole steps. */
  function Travel(prev: real, p: real, r: real): real
    requires r != 0.0
  {
    StepCount(prev, p, r) as real * r
  }

  /** Type 2: the filter moves by as many whole ranges as the price has
      travelled past it, checking the upper side first. Dividing by a zero
      range is undefined, hence the precondition: with `r == 0` only the
      holding case can be evaluated. The ensures only unfold the three
      branches for the proofs about whole runs; what a Type 2 step promises
      is stated by `Type2WholeSteps`, `TravelBounds` and `Type2Catches`. */
  function Type2Step(prev: real, h: real, l: real, r: real): (f: real)
    requires r != 0.0 || !Type2Moves(prev, h, l, r)
    ensures !Type2Moves(prev, h, l, r) ==> f == prev
    ensures h >= prev + r ==> f - prev == Travel(prev, h, r)
    ensures !(h >= prev + r) && l <= prev - r ==> prev - f == Travel(prev, l, r)
  {
    if h >= prev + r then prev + Travel(prev, h, r)
    else if l <= prev - r then prev - Travel(prev, l, r)
    else prev
  }

  /** Every Type 2 move is a whole number of ranges, and a bar that does not
      reach a whole range away leaves the filter where it was. */
  lemma Type2WholeSteps(prev: real, h: real, l: real, r: real)
    requires r != 0.0 || !Type2Moves(prev, h, l, r)
    ensures IsMultipleOf(Type2Step(prev, h, l, r) - prev, r)
    ensures !Type2Moves(prev, h, l, r) ==> Type2Step(prev, h, l, r) == prev
  {
    if h >= prev + r {
      Type2UpIsWhole(prev, h, l, r);
    } else if l <= prev - r {
      Type2DownIsWhole(prev, h, l, r);
    } else {
      MultipleOfSteps(0.0, 0, r);
    }
  }

  lemma Type2UpIsWhole(prev: real, h: real, l: real, r: real)
    requires r != 0.0 && h >= prev + r
    ensures IsMultipleOf(Type2Step(prev, h, l, r) - prev, r)
  {
    MultipleOfSteps(Travel(prev, h, r), StepCount(prev, h, r), r);
  }

  lemma Type2DownIsWhole(prev: real, h: real, l: real, r: real)
    requires r != 0.0 && !(h >= prev + r) && l <= prev - r
    ensures IsMultipleOf(Type2Step(prev, h, l, r) - prev, r)
  {
    MultipleOfSteps(-Travel(prev, l, r), -StepCount(prev, l, r), r);
  }

  /** Whole steps of `r > 0` towards a price at least one step away cover at
      least one step and fall short of the price by less than one step. */
  lemma TravelBounds(prev: real, p: real, r: real)
    requires r > 0.0 && Abs(p - prev) >= r
    ensures r <= Travel(prev, p, r) <= Abs(p - prev) < Travel(prev, p, r) + r
  {
    var d := Abs(p - prev);
    var k := StepCount(prev, p, r);
    WholeSteps(d, r);
    var q := d / r;
    assert q * r == d;
    assert (q - 1.0) * r == d - r >= 0.0;
    assert q >= 1.0;
    assert k >= 1;
    assert (k as real - 1.0) * r >= 0.0;
  }

  /** With a positive range, an upward Type 2 move lands on the highest whole
      step not above `h`, a downward one on the lowest whole step not below
      `l`; with the close as movement source the filter ends less than one
      range from the close. */
  lemma Type2Catches(prev: real, h: real, l: real, r: real)
    requires r > 0.0
    ensures var f := Type2Step(prev, h, l, r);
      && (h >= prev + r ==> prev + r <= f <= h < f + r)
      && (!(h >= prev + r) && l <= prev - r ==> f - r < l <= f <= prev - r)
      && (h == l ==> Abs(f - h) < r)
  {
    if h >= prev + r {
      TravelBounds(prev, h, r);
    } else if l <= prev - r {
      TravelBounds(prev, l, r);
    }
  }

  /** Filter state carried from bar to bar: the smoothed range, the previous
      raw filter value, and the filter values recorded at change events. */
  datatype FilterState = FilterState(smooth: Option<real>, last: Option<real>, changes: seq<real>)

  const InitialFilterState := FilterState(None, None, [])

  /** Result of one filter step: the reported filter value and bands, the
      range `r` they were computed with, and the raw recurrence value. */
  datatype FilterOut = FilterOut(value: real, hiBand: real, loBand: real, range: real, raw: real)

  /** The range used on this bar: the smoothed one when smoothing is on. */
  function UsedRange(smoothRange: bool, smoothPer: int, size: real, smooth: Option<real>): (r: real)
    requires smoothPer != -1
    ensures !smoothRange ==> r == size
    ensures smooth.None? ==> r == size
    ensures smoothRange ==> r == CondEma(size, true, smoothPer, smooth).value
  {
    var s := CondEma(size, true, smoothPer, smooth);
    if smoothRange then s.value else size
  }

  /** With a period of at least one, a positive size and a positive (or no)
      smoothed range so far, the smoothed range and the range used stay positive. */
  lemma UsedRangePositive(smoothRange: bool, smoothPer: int, size: real, smooth: Option<real>)
    requires smoothPer >= 1 && size > 0.0
    requires smooth.Some? ==> smooth.value > 0.0
    ensures CondEma(size, true, smoothPer, smooth).value > 0.0
    ensures UsedRange(smoothRange, smoothPer, size, smooth) > 0.0
  {
  }

  /** The raw filter recurrence: the midpoint of the bar on the first bar,
      otherwise the configured step from the previous value. `None` when a
      Type 2 step would divide by a zero range. */
  function RawFilter(fType: FilterType, last: Option<real>, h: real, l: real, r: real): (f: Option<real>)
    ensures last.None? ==> f == Some((h + l) / 2.0)
    ensures f.None? <==> fType == Type2 && last.Some? && r == 0.0 && Type2Moves(last.value, h, l, r)
    ensures f.Some? && last.Some? && fType == Type1 ==>
      f.value == Type1Step(last.value, h, l, r)
    ensures f.Some? && last.Some? && fType == Type2 ==>
      (r != 0.0 || !Type2Moves(last.value, h, l, r)) && f.value == Type2Step(last.value, h, l, r)
    ensures last.Some? && fType == Unlisted ==> f == last
  {
    match last
    case None => Some((h + l) / 2.0)
    case Some(p) =>
      match fType
      case Type1 => Some(Type1Step(p, h, l, r))
      case Type2 =>
        if r == 0.0 && Type2Moves(p, h, l, r) then None else Some(Type2Step(p, h, l, r))
      case Unlisted => Some(p)
  }

  /** The change averager: a new raw value is recorded only when it differs
      from the previous one (an undefined previous value always differs), the
      record keeps at most `cap` values, and the output is their mean, or the
      raw value while nothing is recorded. */
  function ChangeAverage(changes: seq<real>, raw: real, last: Option<real>, cap: int)
    : (res: (seq<real>, real))
    ensures last == Some(raw) ==> res.0 == changes
    ensures last != Some(raw) && |changes| <= Cap(cap) ==>
      res.0 == Suffix(changes + [raw], Cap(cap))
    ensures |changes| <= Cap(cap) ==> |res.0| <= Cap(cap)
    ensures |res.0| == 0 ==> res.1 == raw
    ensures |res.0| > 0 ==> res.1 == Mean(res.0).value
  {
    var changes' := if last != Some(raw) then BoundedPush(changes, raw, cap) else changes;
    (changes', if |changes'| > 0 then Mean(changes').value else raw)
  }

  /** With room for a single sample, the change averager reports the raw filter. */
  lemma SingleSampleIsRaw(changes: seq<real>, raw: real, last: Option<real>)
    requires last.None? ==> changes == []
    requires last.Some? ==> changes == [last.value]
    ensures ChangeAverage(changes, raw, last, 1) == ([raw], raw)
  {
    if last != Some(raw) {
      assert (changes + [raw])[|changes| + 1 - 1..] == [raw];
    }
  }

  /** The reported value of a change average lies between the smallest and
      largest recorded filter values. */
  lemma ChangeAverageWithin(changes: seq<real>, raw: real, last: Option<real>, cap: int,
                            lo: real, hi: real)
    requires lo <= raw <= hi
    requires forall i :: 0 <= i < |changes| ==> lo <= changes[i] <= hi
    ensures var res := ChangeAverage(changes, raw, last, cap);
      && lo <= res.1 <= hi
      && forall i :: 0 <= i < |res.0| ==> lo <= res.0[i] <= hi
  {
    var res := ChangeAverage(changes, raw, last, cap);
    var w := changes + [raw];
    assert forall i :: 0 <= i < |w| ==> lo <= w[i] <= hi;
    if |res.0| > 0 {
      MeanWithin(res.0, lo, hi);
    }
  }

  /** One bar of the range filter, from the movement source `h`/`l` and the
      unsmoothed range size. `None` when a Type 2 step would divide by zero. */
  function FilterStep(cfg: Config, h: real, l: real, size: real, st: FilterState)
    : (res: Option<(FilterOut, FilterState)>)
    requires cfg.smoothPer != -1
    ensures res.None? <==> RawFilter(cfg.fType, st.last, h, l, UsedRange(cfg.smoothRange, cfg.smoothPer, size, st.smooth)).None?
    ensures res.Some? ==>
      var (out, st') := res.value;
      && out.range == UsedRange(cfg.smoothRange, cfg.smoothPer, size, st.smooth)
      && out.hiBand - out.loBand == 2.0 * out.range
      && out.hiBand == out.value + out.range
      && Some(out.raw) == RawFilter(cfg.fType, st.last, h, l, out.range)
      && st'.last == Some(out.raw)
      && st'.smooth == CondEma(size, true, cfg.smoothPer, st.smooth)
      && (!cfg.avVals ==> out.value == out.raw && st'.changes == st.changes)
      && (cfg.avVals ==> (st'.changes, out.value) == ChangeAverage(st.changes, out.raw, st.last, cfg.avSamples))
      && (st'.changes != st.changes ==> cfg.avVals && st.last != Some(out.raw))
  {
    var r := UsedRange(cfg.smoothRange, cfg.smoothPer, size, st.smooth);
    match RawFilter(cfg.fType, st.last, h, l, r)
    case None => None
    case Some(raw) =>
      Some(Report(cfg.avVals, cfg.avSamples, raw, r, CondEma(size, true, cfg.smoothPer, st.smooth), st))
  }

  /** The reported value and bands of a bar with raw filter `raw` and range
      `r`, and the state carried to the next bar. */
  function Report(avVals: bool, avSamples: int, raw: real, r: real, smooth: Option<real>, st: FilterState)
    : (FilterOut, FilterState)
  {
    if avVals then
      var (changes, v) := ChangeAverage(st.changes, raw, st.last, avSamples);
      (FilterOut(v, v + r, v - r, r, raw), FilterState(smooth, Some(raw), changes))
    else
      (FilterOut(raw, raw + r, raw - r, r, raw), FilterState(smooth, Some(raw), st.changes))
  }

  /** A filter state as the change averager with room for one sample leaves
      it: nothing recorded before the first bar, afterwards exactly the
      current filter value. */
  predicate HoldsLastOnly(st: FilterState)
  {
    && (st.last.None? ==> st.changes == [])
    && (st.last.Some? ==> st.changes == [st.last.value])
  }

  /** Averaging over a single change sample gives the same bar as no
      averaging at all, and keeps the one-sample record in step. */
  lemma FilterStepSingleSample(cfg: Config, h: real, l: real, size: real, a: FilterState, b: FilterState)
    requires cfg.smoothPer != -1
    requires a.smooth == b.smooth && a.last == b.last && HoldsLastOnly(a)
    ensures var ra := FilterStep(cfg.(avVals := true, avSamples := 1), h, l, size, a);
      var rb := FilterStep(cfg.(avVals := false), h, l, size, b);
      && ra.None? == rb.None?
      && (ra.Some? ==>
          && ra.value.0 == rb.value.0
          && ra.value.1.smooth == rb.value.1.smooth
          && ra.value.1.last == rb.value.1.last
          && HoldsLastOnly(ra.value.1))
  {
    var r := UsedRange(cfg.smoothRange, cfg.smoothPer, size, a.smooth);
    var raw := RawFilter(cfg.fType, a.last, h, l, r);
    if raw.Some? {
      SingleSampleIsRaw(a.changes, raw.value, a.last);
    }
  }
}
