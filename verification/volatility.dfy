/** The range size: how far price must move before the filter follows it.
    Each bar updates three volatility estimates (an EMA of the true range,
    an EMA of the absolute change of the mid price, and a sliding window for
    the standard deviation) and then picks one of eight scales, multiplied by
    the range quantity. */
module Volatility {
  import opened Prelude
  import opened Averages
  import opened Params

  /** True range of a bar: its own span, widened by a gap from the previous
      close when there is one. */
  function TrueRange(bar: Bar, prevClose: Option<real>): (tr: real)
    ensures prevClose.None? ==> tr == bar.high - bar.low
    ensures tr >= bar.high - bar.low
    ensures prevClose.Some? ==>
      && tr >= 0.0
      && tr >= Abs(bar.high - prevClose.value)
      && tr >= Abs(bar.low - prevClose.value)
      && (|| tr == bar.high - bar.low
          || tr == Abs(bar.high - prevClose.value)
          || tr == Abs(bar.low - prevClose.value))
  {
    match prevClose
    case None => bar.high - bar.low
    case Some(c) => Max(Max(bar.high - bar.low, Abs(bar.high - c)), Abs(bar.low - c))
  }

  /** Absolute change of the movement price against the previous bar's
      high/low midpoint; zero on the first bar. */
  function AbsChange(x: real, prev: Option<Bar>): (ac: real)
    ensures ac >= 0.0
    ensures prev.None? ==> ac == 0.0
  {
    match prev
    case None => 0.0
    case Some(p) => Abs(x - (p.high + p.low) / 2.0)
  }

  /** Volatility state carried from bar to bar. `None` means "not yet defined". */
  datatype RangeState = RangeState(ac: Option<real>, atr: Option<real>, window: seq<real>)

  const InitialRangeState := RangeState(None, None, [])

  /** The size of one unit of each scale. Pips, points and ticks are fixed
      instrument constants; percent of price is one hundredth of the close. */
  function ScaleUnit(scale: Scale, close: real, atr: real, ac: real, sd: real): real
  {
    match scale
    case Pips => 0.0001
    case Points => 1.0
    case Ticks => 0.01
    case PercentOfPrice => close / 100.0
    case Atr => atr
    case AverageChange => ac
    case StandardDeviation => sd
    case Absolute => 1.0
  }

  /** The scale selection as the indicator evaluates it, branch by branch. */
  function ScaledRange(scale: Scale, qty: real, close: real, atr: real, ac: real, sd: real): (r: real)
    ensures r == qty * ScaleUnit(scale, close, atr, ac, sd)
  {
    if scale == Pips then qty * 0.0001
    else if scale == Points then qty * 1.0
    else if scale == PercentOfPrice then close * qty / 100.0
    else if scale == Atr then qty * atr
    else if scale == AverageChange then qty * ac
    else if scale == StandardDeviation then qty * sd
    else if scale == Ticks then qty * 0.01
    else qty
  }

  datatype RangeOut = RangeOut(size: real, state: RangeState)

  /** One bar of the range-size computation with scale `scale`, quantity
      `qty` and period `n`. `x` is the bar's movement price, `prev` the
      previous bar (absent on the first bar) and `root` the square root used
      to turn the window's variance into a standard deviation. */
  function RangeStep(scale: Scale, qty: real, n: int, bar: Bar, prev: Option<Bar>, x: real,
                     st: RangeState, root: real -> real): (out: RangeOut)
    requires n != -1 && (scale == StandardDeviation ==> n >= 1)
    ensures out.state.atr.Some? && out.state.ac.Some?
    ensures |st.window| <= Cap(n) ==> out.state.window == Suffix(st.window + [x], Cap(n))
    ensures n >= 1 ==> |out.state.window| > 0 && out.state.window[|out.state.window| - 1] == x
    ensures prev.None? && st.atr.None? ==> out.state.atr == Some(bar.high - bar.low)
    ensures prev.None? && st.ac.None? ==> out.state.ac == Some(0.0)
    ensures out.size == ScaledRange(scale, qty, bar.close, out.state.atr.value, out.state.ac.value,
                                    Deviation(scale, out.state.window, root))
  {
    var st' := UpdateEstimates(n, bar, prev, x, st);
    RangeOut(ScaledRange(scale, qty, bar.close, st'.atr.value, st'.ac.value, Deviation(scale, st'.window, root)),
             st')
  }

  /** The three volatility estimates after one more bar. */
  function UpdateEstimates(n: int, bar: Bar, prev: Option<Bar>, x: real, st: RangeState): (st': RangeState)
    requires n != -1
    ensures st'.atr.Some? && st'.ac.Some?
    ensures n >= 1 && st.atr.Some? ==>
      Between(st'.atr.value, st.atr.value, TrueRange(bar, match prev case None => None case Some(p) => Some(p.close)))
    ensures n >= 1 && st.ac.Some? ==> Between(st'.ac.value, st.ac.value, AbsChange(x, prev))
    ensures st.atr.None? ==> st'.atr == Some(TrueRange(bar, match prev case None => None case Some(p) => Some(p.close)))
    ensures st.ac.None? ==> st'.ac == Some(AbsChange(x, prev))
    ensures |st.window| <= Cap(n) ==> st'.window == Suffix(st.window + [x], Cap(n))
  {
    var prevClose := match prev case None => None case Some(p) => Some(p.close);
    RangeState(CondEma(AbsChange(x, prev), true, n, st.ac),
               CondEma(TrueRange(bar, prevClose), true, n, st.atr),
               BoundedPush(st.window, x, n))
  }

  /** The standard deviation of the window, taken only for the scale that uses it. */
  function Deviation(scale: Scale, window: seq<real>, root: real -> real): real
    requires scale == StandardDeviation ==> |window| > 0
  {
    if scale == StandardDeviation then root(Variance(window).value) else 0.0
  }

  /** The range size is proportional to the range quantity, and the quantity
      has no influence on the volatility state. */
  lemma RangeLinearInQuantity(scale: Scale, qty: real, n: int, bar: Bar, prev: Option<Bar>, x: real,
                              st: RangeState, root: real -> real)
    requires n != -1 && (scale == StandardDeviation ==> n >= 1)
    ensures var unit := RangeStep(scale, 1.0, n, bar, prev, x, st, root);
      var out := RangeStep(scale, qty, n, bar, prev, x, st, root);
      out.size == qty * unit.size && out.state == unit.state
  {
    var st' := UpdateEstimates(n, bar, prev, x, st);
    ScaledRangeLinear(scale, qty, bar.close, st'.atr.value, st'.ac.value, Deviation(scale, st'.window, root));
  }

  lemma ScaledRangeLinear(scale: Scale, qty: real, close: real, atr: real, ac: real, sd: real)
    ensures ScaledRange(scale, qty, close, atr, ac, sd) == qty * ScaledRange(scale, 1.0, close, atr, ac, sd)
  {
    assert ScaledRange(scale, 1.0, close, atr, ac, sd) == ScaleUnit(scale, close, atr, ac, sd);
  }

  /** On well-formed bars (low not above high), with a non-negative quantity,
      a period of at least one and non-negative estimates so far, every
      volatility estimate and the range size stay non-negative. */
  lemma RangeNonNegative(scale: Scale, qty: real, n: int, bar: Bar, prev: Option<Bar>, x: real,
                         st: RangeState, root: real -> real)
    requires n >= 1 && qty >= 0.0
    requires bar.low <= bar.high
    requires st.atr.Some? ==> st.atr.value >= 0.0
    requires st.ac.Some? ==> st.ac.value >= 0.0
    requires scale == PercentOfPrice ==> bar.close >= 0.0
    requires forall v :: v >= 0.0 ==> root(v) >= 0.0
    ensures var out := RangeStep(scale, qty, n, bar, prev, x, st, root);
      out.size >= 0.0 && out.state.atr.value >= 0.0 && out.state.ac.value >= 0.0
  {
    var st' := UpdateEstimates(n, bar, prev, x, st);
    ScaledRangeNonNegative(scale, qty, bar.close, st'.atr.value, st'.ac.value, Deviation(scale, st'.window, root));
  }

  lemma ScaledRangeNonNegative(scale: Scale, qty: real, close: real, atr: real, ac: real, sd: real)
    requires qty >= 0.0 && atr >= 0.0 && ac >= 0.0 && sd >= 0.0
    requires scale == PercentOfPrice ==> close >= 0.0
    ensures ScaledRange(scale, qty, close, atr, ac, sd) >= 0.0
  {
    ProductNonNegative(qty, ScaleUnit(scale, close, atr, ac, sd));
  }

  lemma ProductNonNegative(a: real, b: real)
    requires a >= 0.0 && b >= 0.0
    ensures a * b >= 0.0
  {
  }

  /** The scales whose unit is an instrument constant rather than an estimate. */
  predicate FixedScale(scale: Scale)
  {
    scale == Pips || scale == Points || scale == Ticks || scale == Absolute
  }

  /** With a fixed scale and a positive quantity, every bar's range size is positive. */
  lemma FixedRangePositive(scale: Scale, qty: real, n: int, bar: Bar, prev: Option<Bar>, x: real,
                           st: RangeState, root: real -> real)
    requires n != -1 && FixedScale(scale) && qty > 0.0
    ensures RangeStep(scale, qty, n, bar, prev, x, st, root).size > 0.0
  {
    var st' := UpdateEstimates(n, bar, prev, x, st);
    var u := ScaleUnit(scale, bar.close, st'.atr.value, st'.ac.value, Deviation(scale, st'.window, root));
    assert u >= 0.0001;
    assert qty * u > 0.0;
  }
}
