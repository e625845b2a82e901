/** The run: one forward pass over the bars that threads the volatility and
    filter state from bar to bar and classifies the direction of the filter. */
module Trend {
  import opened Prelude
  import opened Averages
  import opened Params
  import opened Volatility
  import opened Recurrence

  /** Direction of the filter: up on a strict rise, down on a strict fall,
      otherwise whatever it was on the previous bar. */
  function Direction(cur: real, prev: real, prevDir: int): (d: int)
    ensures -1 <= prevDir <= 1 ==> -1 <= d <= 1
    ensures prevDir != 0 ==> d != 0
    ensures cur != prev ==> d != 0
  {
    if cur > prev then 1 else if cur < prev then -1 else prevDir
  }

  function UpFlag(d: int): int
  {
    if d == 1 then 1 else 0
  }

  function DownFlag(d: int): int
  {
    if d == -1 then 1 else 0
  }

  /** The per-bar result: filter, bands, direction and its two indicator
      flags, and the range the bands were drawn with. */
  datatype Output = Output(filt: real, hBand: real, lBand: real, fdir: int,
                           upward: int, downward: int, range: real)

  /** Everything carried from one bar to the next besides the outputs. */
  datatype Carry = Carry(range: RangeState, filter: FilterState)

  const InitialCarry := Carry(InitialRangeState, InitialFilterState)

  /** A run stops at the first bar on which a Type 2 step would divide by a
      zero range. It reports that bar and the state the range computation
      and the recurrence had reached: the volatility estimates, the smoothed
      range and the previous raw filter. */
  datatype RunError = ZeroRangeStep(bar: nat, range: RangeState, smooth: Option<real>, last: Option<real>)

  /** On bar `i`, reached with volatility state `st`, smoothed range `smooth`
      and previous raw filter `last`, the range used is zero and a Type 2 step
      would divide by it. */
  predicate ZeroRangeAt(cfg: Config, bars: seq<Bar>, i: nat, st: RangeState, smooth: Option<real>,
                        last: Option<real>, root: real -> real)
    requires ValidConfig(cfg) && i < |bars|
  {
    var r := UsedRange(cfg.smoothRange, cfg.smoothPer,
                       BarRange(cfg.rngScale, cfg.rngQty, cfg.rngPer, cfg.movSrc, bars, i, st, root).size,
                       smooth);
    && cfg.fType == Type2 && last.Some? && r == 0.0
    && Type2Moves(last.value, MoveHigh(cfg.movSrc, bars[i]), MoveLow(cfg.movSrc, bars[i]), r)
  }

  /** Whether a run failed at `e` for that reason. */
  predicate StoppedAt(cfg: Config, bars: seq<Bar>, e: RunError, root: real -> real)
    requires ValidConfig(cfg)
  {
    e.bar < |bars| && ZeroRangeAt(cfg, bars, e.bar, e.range, e.smooth, e.last, root)
  }

  /** The output of a bar from its filter step and the previous bar's output. */
  function Emit(fo: FilterOut, prev: Option<Output>): Output
  {
    var d := match prev case None => 0 case Some(p) => Direction(fo.value, p.filt, p.fdir);
    Output(fo.value, fo.hiBand, fo.loBand, d, UpFlag(d), DownFlag(d), fo.range)
  }

  /** One bar of the run: range size, filter step, then direction against the
      previous output (there is none on the first bar). */
  function BarStep(cfg: Config, bars: seq<Bar>, i: nat, c: Carry, prev: Option<Output>,
                   root: real -> real): (res: Option<(Output, Carry)>)
    requires ValidConfig(cfg) && i < |bars|
    ensures res.None? <==> ZeroRangeAt(cfg, bars, i, c.range, c.filter.smooth, c.filter.last, root)
    ensures res.Some? ==>
      var (o, c') := res.value;
      && o.hBand - o.lBand == 2.0 * o.range
      && o.hBand == o.filt + o.range
      && o.upward == UpFlag(o.fdir) && o.downward == DownFlag(o.fdir)
      && (prev.None? ==> o.fdir == 0)
      && (prev.Some? ==> o.fdir == Direction(o.filt, prev.value.filt, prev.value.fdir))
      && c'.filter.last.Some?
      && (!cfg.avVals ==> c'.filter.last == Some(o.filt))
      && (c.filter.last.None? && c.filter.changes == [] ==> o.filt == MovePrice(cfg.movSrc, bars[i]))
      && (!cfg.avVals ==> Some(o.filt) == RawFilter(cfg.fType, c.filter.last,
            MoveHigh(cfg.movSrc, bars[i]), MoveLow(cfg.movSrc, bars[i]), o.range))
  {
    var rs := BarRange(cfg.rngScale, cfg.rngQty, cfg.rngPer, cfg.movSrc, bars, i, c.range, root);
    FilterBar(cfg, MoveHigh(cfg.movSrc, bars[i]), MoveLow(cfg.movSrc, bars[i]), rs, c.filter, prev)
  }

  /** How a bar step is wired: the range it uses is this bar's range size
      after smoothing, and it carries forward this bar's volatility state,
      the updated smoothed range, the raw filter and the change record the
      averaging leaves. */
  lemma BarStepWiring(cfg: Config, bars: seq<Bar>, i: nat, c: Carry, prev: Option<Output>, root: real -> real)
    requires ValidConfig(cfg) && i < |bars|
    ensures var rs := BarRange(cfg.rngScale, cfg.rngQty, cfg.rngPer, cfg.movSrc, bars, i, c.range, root);
      var res := BarStep(cfg, bars, i, c, prev, root);
      res.Some? ==>
        var (o, c') := res.value;
        && o.range == UsedRange(cfg.smoothRange, cfg.smoothPer, rs.size, c.filter.smooth)
        && c'.range == rs.state
        && c'.filter.smooth == CondEma(rs.size, true, cfg.smoothPer, c.filter.smooth)
        && c'.filter.last.Some?
        && Some(c'.filter.last.value) == RawFilter(cfg.fType, c.filter.last, MoveHigh(cfg.movSrc, bars[i]),
                                                   MoveLow(cfg.movSrc, bars[i]), o.range)
        && (cfg.avVals ==>
              (c'.filter.changes, o.filt) == ChangeAverage(c.filter.changes, c'.filter.last.value,
                                                           c.filter.last, cfg.avSamples))
        && (!cfg.avVals ==> c'.filter.changes == c.filter.changes)
  {
  }

  /** The range half of a bar step: the range size of bar `i`, whose movement
      price is the midpoint of its movement high and low. */
  function BarRange(scale: Scale, qty: real, n: int, src: Source, bars: seq<Bar>, i: nat,
                    st: RangeState, root: real -> real): RangeOut
    requires n != -1 && (scale == StandardDeviation ==> n >= 1) && i < |bars|
  {
    var x := (MoveHigh(src, bars[i]) + MoveLow(src, bars[i])) / 2.0;
    var before := if i == 0 then None else Some(bars[i - 1]);
    RangeStep(scale, qty, n, bars[i], before, x, st, root)
  }

  /** The filter half of a bar step, given the bar's range output. */
  function FilterBar(cfg: Config, h: real, l: real, rs: RangeOut, fs: FilterState,
                     prev: Option<Output>): Option<(Output, Carry)>
    requires cfg.smoothPer != -1
  {
    match FilterStep(cfg, h, l, rs.size, fs)
    case None => None
    case Some((fo, fs')) => Some((Emit(fo, prev), Carry(rs.state, fs')))
  }

  /** The run from bar `i` on, given the outputs `acc` of the bars before it. */
  function Go(cfg: Config, bars: seq<Bar>, root: real -> real, i: nat, c: Carry,
              acc: seq<Output>): (r: Result<seq<Output>, RunError>)
    requires ValidConfig(cfg) && i == |acc| <= |bars|
    ensures r.Success? ==> |r.value| == |bars| && r.value[..i] == acc
    ensures r.Failure? ==>
      cfg.fType == Type2 && i <= r.error.bar && StoppedAt(cfg, bars, r.error, root)
    decreases |bars| - i
  {
    if i == |bars| then Success(acc)
    else
      var prev := if i == 0 then None else Some(acc[i - 1]);
      match BarStep(cfg, bars, i, c, prev, root)
      case None => Failure(ZeroRangeStep(i, c.range, c.filter.smooth, c.filter.last))
      case Some((o, c')) =>
        var r := Go(cfg, bars, root, i + 1, c', acc + [o]);
        assert r.Success? ==> r.value[..i] == (r.value[..i + 1])[..i];
        r
  }

  /** The whole run: one output per bar, or the bar at which a Type 2 step
      met a zero range, with the state that made the range zero. `root` is
      the square root applied to the variance for the standard-deviation
      scale. */
  function Run(cfg: Config, bars: seq<Bar>, root: real -> real): (r: Result<seq<Output>, RunError>)
    requires ValidConfig(cfg)
    ensures r.Success? ==> |r.value| == |bars|
    ensures r.Failure? ==>
      cfg.fType == Type2 && StoppedAt(cfg, bars, r.error, root)
  {
    Go(cfg, bars, root, 0, InitialCarry, [])
  }

  /** The outputs of the first `k` bars and the state carried into bar `k`;
      `None` when some earlier bar stops the run. */
  function Reach(cfg: Config, bars: seq<Bar>, root: real -> real, k: nat): (r: Option<(seq<Output>, Carry)>)
    requires ValidConfig(cfg) && k <= |bars|
    ensures r.Some? ==> |r.value.0| == k
  {
    ReachFrom(cfg, bars, root, 0, InitialCarry, [], k)
  }

  /** The same pass as `Go` from bar `i`, but halted before bar `k`: the
      outputs so far and the state carried into bar `k`. */
  function ReachFrom(cfg: Config, bars: seq<Bar>, root: real -> real, i: nat, c: Carry,
                     acc: seq<Output>, k: nat): (r: Option<(seq<Output>, Carry)>)
    requires ValidConfig(cfg) && i == |acc| <= k <= |bars|
    ensures r.Some? ==> |r.value.0| == k && r.value.0[..i] == acc
    ensures i == k ==> r == Some((acc, c))
    decreases k - i
  {
    if i == k then Some((acc, c))
    else
      var prev := if i == 0 then None else Some(acc[i - 1]);
      match BarStep(cfg, bars, i, c, prev, root)
      case None => None
      case Some((o, c')) =>
        var r := ReachFrom(cfg, bars, root, i + 1, c', acc + [o], k);
        assert r.Some? ==> r.value.0[..i] == (r.value.0[..i + 1])[..i];
        r
  }
}
