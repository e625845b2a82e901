/** The indicator's input bars and its configuration. */
module Params {

  /** One open/high/low/close observation. Bars are given oldest first. */
  datatype Bar = Bar(open: real, high: real, low: real, close: real)

  /** `f_type`: any name other than "Type 1" or "Type 2" selects neither
      recurrence, and the filter then keeps its first-bar value (`Unlisted`). */
  datatype FilterType = Type1 | Type2 | Unlisted

  /** `mov_src`: "Wicks" moves the filter on the bar's high and low; any other
      name uses the close for both. */
  datatype Source = Wicks | Close

  /** `rng_scale`: any name not listed behaves as `Absolute`. */
  datatype Scale =
    | Pips | Points | PercentOfPrice | Atr | AverageChange | StandardDeviation | Ticks | Absolute

  datatype Config = Config(
    fType: FilterType,
    movSrc: Source,
    rngQty: real,
    rngScale: Scale,
    rngPer: int,
    smoothRange: bool,
    smoothPer: int,
    avVals: bool,
    avSamples: int)

  /** The configurations on which a run is defined: both averaging periods
      give a finite EMA weight 2/(n+1), and the standard-deviation window
      keeps at least one value. */
  predicate ValidConfig(cfg: Config)
  {
    && cfg.rngPer != -1
    && cfg.smoothPer != -1
    && (cfg.rngScale == StandardDeviation ==> cfg.rngPer >= 1)
  }

  /** The upper price the filter reacts to on a bar. */
  function MoveHigh(src: Source, bar: Bar): real
  {
    match src
    case Wicks => bar.high
    case Close => bar.close
  }

  /** The lower price the filter reacts to on a bar. */
  function MoveLow(src: Source, bar: Bar): real
  {
    match src
    case Wicks => bar.low
    case Close => bar.close
  }

  /** Midpoint of the movement source; with the close source this is the close. */
  function MovePrice(src: Source, bar: Bar): (x: real)
    ensures src == Close ==> x == bar.close
    ensures src == Wicks ==> x == (bar.high + bar.low) / 2.0
  {
    (MoveHigh(src, bar) + MoveLow(src, bar)) / 2.0
  }

  /** On a well-formed bar (close between low and high) the movement low,
      midpoint and high are ordered and lie within the bar. */
  lemma MoveBounds(src: Source, bar: Bar)
    requires bar.low <= bar.close <= bar.high
    ensures bar.low <= MoveLow(src, bar) <= MovePrice(src, bar) <= MoveHigh(src, bar) <= bar.high
  {
  }
}
