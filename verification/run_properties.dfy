/** Properties of a whole run, proved by induction over the bars. */
module RunProperties {
  import opened Prelude
  import opened Averages
  import opened Params
  import opened Volatility
  import opened Recurrence
  import opened Trend

  /** How a bar's direction follows from the bar before it. */
  predicate DirectionRule(before: Output, o: Output)
  {
    && (o.filt > before.filt ==> o.fdir == 1)
    && (o.filt < before.filt ==> o.fdir == -1)
    && (o.filt == before.filt ==> o.fdir == before.fdir)
  }

  /** The direction column of a run: flat on the first bar, then the rule above. */
  ghost predicate DirectionTrace(outs: seq<Output>)
  {
    && (|outs| > 0 ==> outs[0].fdir == 0)
    && forall j :: 0 < j < |outs| ==> DirectionRule(outs[j - 1], outs[j])
  }

  /** One output on its own: bands one range either side of the filter, a
      direction in {-1, 0, 1}, and flags that mirror it and never both hold. */
  predicate Consistent(o: Output)
  {
    && o.hBand == o.filt + o.range
    && o.lBand == o.filt - o.range
    && o.hBand - o.lBand == 2.0 * o.range
    && -1 <= o.fdir <= 1
    && o.upward == (if o.fdir == 1 then 1 else 0)
    && o.downward == (if o.fdir == -1 then 1 else 0)
    && o.upward + o.downward <= 1
  }

  ghost predicate AllConsistent(outs: seq<Output>)
  {
    forall j :: 0 <= j < |outs| ==> Consistent(outs[j])
  }

  lemma {:induction false} GoConsistent(cfg: Config, bars: seq<Bar>, root: real -> real, i: nat,
                                        c: Carry, acc: seq<Output>)
    requires ValidConfig(cfg) && i == |acc| <= |bars|
    requires DirectionTrace(acc) && AllConsistent(acc)
    ensures var r := Go(cfg, bars, root, i, c, acc);
      r.Success? ==> DirectionTrace(r.value) && AllConsistent(r.value)
    decreases |bars| - i
  {
    if i < |bars| {
      var prev := if i == 0 then None else Some(acc[i - 1]);
      match BarStep(cfg, bars, i, c, prev, root)
      case None =>
      case Some((o, c')) =>
        var acc' := acc + [o];
        assert Consistent(o);
        assert forall j :: 0 <= j < |acc'| ==> acc'[j] == if j < i then acc[j] else o;
        assert i > 0 ==> DirectionRule(acc'[i - 1], acc'[i]);
        GoConsistent(cfg, bars, root, i + 1, c', acc');
    }
  }

  /** Every run output has bands exactly one range either side of the
      filter, flags that mirror the direction, and a direction that is 0 on
      the first bar and afterwards +1 on a strict rise, -1 on a strict fall
      and unchanged when the filter stays put. */
  lemma RunDirectionAndBands(cfg: Config, bars: seq<Bar>, root: real -> real)
    requires ValidConfig(cfg)
    ensures var r := Run(cfg, bars, root);
      r.Success? ==> DirectionTrace(r.value) && AllConsistent(r.value)
  {
    GoConsistent(cfg, bars, root, 0, InitialCarry, []);
  }

  lemma {:induction false} StickyFrom(outs: seq<Output>, j: nat, k: nat)
    requires DirectionTrace(outs)
    requires j <= k < |outs| && outs[j].fdir != 0
    ensures outs[k].fdir != 0
    decreases k - j
  {
    if j < k {
      StickyFrom(outs, j, k - 1);
      assert DirectionRule(outs[k - 1], outs[k]);
    }
  }

  /** Once the direction has left 0 it never returns to it. */
  lemma DirectionSticky(outs: seq<Output>)
    requires DirectionTrace(outs)
    ensures forall j, k :: 0 <= j <= k < |outs| && outs[j].fdir != 0 ==> outs[k].fdir != 0
  {
    forall j, k | 0 <= j <= k < |outs| && outs[j].fdir != 0
      ensures outs[k].fdir != 0
    {
      StickyFrom(outs, j, k);
    }
  }

  /** The first bar starts the filter at its movement price (the close with
      the close source), with no direction and neither flag set. */
  lemma RunFirstBar(cfg: Config, bars: seq<Bar>, root: real -> real)
    requires ValidConfig(cfg) && |bars| > 0
    ensures var r := Run(cfg, bars, root);
      r.Success? ==>
        && r.value[0].filt == MovePrice(cfg.movSrc, bars[0])
        && r.value[0].fdir == 0
        && r.value[0].upward == 0 && r.value[0].downward == 0
  {
    var r := Run(cfg, bars, root);
    assert r == Go(cfg, bars, root, 0, InitialCarry, []);
    match BarStep(cfg, bars, 0, InitialCarry, None, root)
    case None =>
    case Some((o, c')) =>
      assert [] + [o] == [o];
      var rest := Go(cfg, bars, root, 1, c', [o]);
      assert r == rest;
      if rest.Success? {
        assert rest.value[..1] == [o];
        assert rest.value[0] == o;
      }
  }

  /** Without change averaging, the carried raw filter is the previous output. */
  ghost predicate TracksOutput(i: nat, c: Carry, acc: seq<Output>)
    requires i == |acc|
  {
    && (i == 0 ==> c.filter.last.None? && c.filter.changes == [])
    && (i > 0 ==> c.filter.last == Some(acc[i - 1].filt))
  }

  /** A Type 2 bar `o` that follows `before` on bar `bar`: the move is a whole
      number of ranges, an upward move of a positive range covers at least one
      range and stops at the high, and a downward one mirrors it. */
  predicate Type2Move(src: Source, bar: Bar, before: Output, o: Output)
  {
    && IsMultipleOf(o.filt - before.filt, o.range)
    && (o.range > 0.0 && o.filt > before.filt ==> before.filt + o.range <= o.filt <= MoveHigh(src, bar))
    && (o.range > 0.0 && o.filt < before.filt ==> MoveLow(src, bar) <= o.filt <= before.filt - o.range)
  }

  /** With the close as movement source and a positive range, the filter is
      within one range of the close. */
  predicate NearClose(src: Source, bar: Bar, o: Output)
  {
    src == Close && o.range > 0.0 ==> Abs(o.filt - bar.close) < o.range
  }

  /** Facts about bar `j` of a Type 2 run without change averaging. */
  predicate Type2At(src: Source, bars: seq<Bar>, outs: seq<Output>, j: nat)
    requires j < |outs| <= |bars|
  {
    && (j > 0 ==> Type2Move(src, bars[j], outs[j - 1], outs[j]))
    && NearClose(src, bars[j], outs[j])
  }

  ghost predicate Type2Trace(src: Source, bars: seq<Bar>, outs: seq<Output>)
    requires |outs| <= |bars|
  {
    forall j :: 0 <= j < |outs| ==> Type2At(src, bars, outs, j)
  }

  lemma Type2Bar(cfg: Config, bars: seq<Bar>, i: nat, c: Carry, acc: seq<Output>, o: Output)
    requires ValidConfig(cfg) && !cfg.avVals && cfg.fType == Type2
    requires i == |acc| < |bars| && TracksOutput(i, c, acc)
    requires Some(o.filt) == RawFilter(cfg.fType, c.filter.last,
               MoveHigh(cfg.movSrc, bars[i]), MoveLow(cfg.movSrc, bars[i]), o.range)
    requires c.filter.last.None? ==> o.filt == MovePrice(cfg.movSrc, bars[i])
    ensures i > 0 ==> Type2Move(cfg.movSrc, bars[i], acc[i - 1], o)
    ensures NearClose(cfg.movSrc, bars[i], o)
  {
    var h := MoveHigh(cfg.movSrc, bars[i]);
    var l := MoveLow(cfg.movSrc, bars[i]);
    if i > 0 {
      var p := acc[i - 1].filt;
      Type2WholeSteps(p, h, l, o.range);
      if o.range > 0.0 {
        Type2Catches(p, h, l, o.range);
      }
    }
  }

  lemma ExtendType2(src: Source, bars: seq<Bar>, acc: seq<Output>, o: Output)
    requires |acc| < |bars| && Type2Trace(src, bars, acc)
    requires |acc| > 0 ==> Type2Move(src, bars[|acc|], acc[|acc| - 1], o)
    requires NearClose(src, bars[|acc|], o)
    ensures Type2Trace(src, bars, acc + [o])
  {
    var i := |acc|;
    var acc' := acc + [o];
    forall j | 0 <= j < |acc'|
      ensures Type2At(src, bars, acc', j)
    {
      if j < i {
        assert acc'[j] == acc[j];
        assert j > 0 ==> acc'[j - 1] == acc[j - 1];
        assert Type2At(src, bars, acc, j);
      } else {
        assert acc'[j] == o;
        assert j > 0 ==> acc'[j - 1] == acc[i - 1];
      }
    }
  }

  lemma {:induction false} GoType2(cfg: Config, bars: seq<Bar>, root: real -> real, i: nat,
                                   c: Carry, acc: seq<Output>)
    requires ValidConfig(cfg) && !cfg.avVals && cfg.fType == Type2
    requires i == |acc| <= |bars| && TracksOutput(i, c, acc)
    requires Type2Trace(cfg.movSrc, bars, acc)
    ensures var r := Go(cfg, bars, root, i, c, acc);
      r.Success? ==> Type2Trace(cfg.movSrc, bars, r.value)
    decreases |bars| - i
  {
    if i < |bars| {
      var prev := if i == 0 then None else Some(acc[i - 1]);
      match BarStep(cfg, bars, i, c, prev, root)
      case None =>
      case Some((o, c')) =>
        Type2Bar(cfg, bars, i, c, acc, o);
        ExtendType2(cfg.movSrc, bars, acc, o);
        GoType2(cfg, bars, root, i + 1, c', acc + [o]);
    }
  }

  /** A Type 2 run without change averaging moves the filter only by whole
      ranges, lands within one range of the price it chases, and with the
      close source keeps the filter within one range of the close. */
  lemma RunType2WholeSteps(cfg: Config, bars: seq<Bar>, root: real -> real)
    requires ValidConfig(cfg) && !cfg.avVals && cfg.fType == Type2
    ensures var r := Run(cfg, bars, root);
      r.Success? ==> Type2Trace(cfg.movSrc, bars, r.value)
  {
    GoType2(cfg, bars, root, 0, InitialCarry, []);
  }

  /** Facts about bar `j` of a Type 1 run without change averaging: after the
      first bar the filter is the high less the range, the low plus the
      range, or its previous value, and with the close source and a
      non-negative range it is within one range of the close. */
  predicate Type1At(src: Source, bars: seq<Bar>, outs: seq<Output>, j: nat)
    requires j < |outs| <= |bars|
  {
    && (j > 0 ==>
          || outs[j].filt == MoveHigh(src, bars[j]) - outs[j].range
          || outs[j].filt == MoveLow(src, bars[j]) + outs[j].range
          || outs[j].filt == outs[j - 1].filt)
    && (src == Close && outs[j].range >= 0.0 ==>
          bars[j].close - outs[j].range <= outs[j].filt <= bars[j].close + outs[j].range)
  }

  ghost predicate Type1Trace(src: Source, bars: seq<Bar>, outs: seq<Output>)
    requires |outs| <= |bars|
  {
    forall j :: 0 <= j < |outs| ==> Type1At(src, bars, outs, j)
  }

  lemma Type1Bar(cfg: Config, bars: seq<Bar>, i: nat, c: Carry, acc: seq<Output>, o: Output)
    requires ValidConfig(cfg) && !cfg.avVals && cfg.fType == Type1
    requires i == |acc| < |bars| && TracksOutput(i, c, acc)
    requires Some(o.filt) == RawFilter(cfg.fType, c.filter.last,
               MoveHigh(cfg.movSrc, bars[i]), MoveLow(cfg.movSrc, bars[i]), o.range)
    requires c.filter.last.None? ==> o.filt == MovePrice(cfg.movSrc, bars[i])
    ensures i > 0 ==>
      || o.filt == MoveHigh(cfg.movSrc, bars[i]) - o.range
      || o.filt == MoveLow(cfg.movSrc, bars[i]) + o.range
      || o.filt == acc[i - 1].filt
    ensures cfg.movSrc == Close && o.range >= 0.0 ==>
      bars[i].close - o.range <= o.filt <= bars[i].close + o.range
  {
  }

  lemma ExtendType1(src: Source, bars: seq<Bar>, acc: seq<Output>, o: Output)
    requires |acc| < |bars| && Type1Trace(src, bars, acc)
    requires var i := |acc|;
      && (i > 0 ==>
            || o.filt == MoveHigh(src, bars[i]) - o.range
            || o.filt == MoveLow(src, bars[i]) + o.range
            || o.filt == acc[i - 1].filt)
      && (src == Close && o.range >= 0.0 ==>
            bars[i].close - o.range <= o.filt <= bars[i].close + o.range)
    ensures Type1Trace(src, bars, acc + [o])
  {
    var i := |acc|;
    var acc' := acc + [o];
    forall j | 0 <= j < |acc'|
      ensures Type1At(src, bars, acc', j)
    {
      if j < i {
        assert acc'[j] == acc[j];
        assert j > 0 ==> acc'[j - 1] == acc[j - 1];
        assert Type1At(src, bars, acc, j);
      } else {
        assert acc'[j] == o;
        assert j > 0 ==> acc'[j - 1] == acc[i - 1];
      }
    }
  }

  lemma {:induction false} GoType1(cfg: Config, bars: seq<Bar>, root: real -> real, i: nat,
                                   c: Carry, acc: seq<Output>)
    requires ValidConfig(cfg) && !cfg.avVals && cfg.fType == Type1
    requires i == |acc| <= |bars| && TracksOutput(i, c, acc)
    requires Type1Trace(cfg.movSrc, bars, acc)
    ensures var r := Go(cfg, bars, root, i, c, acc);
      r.Success? ==> Type1Trace(cfg.movSrc, bars, r.value)
    decreases |bars| - i
  {
    if i < |bars| {
      var prev := if i == 0 then None else Some(acc[i - 1]);
      match BarStep(cfg, bars, i, c, prev, root)
      case None =>
      case Some((o, c')) =>
        Type1Bar(cfg, bars, i, c, acc, o);
        ExtendType1(cfg.movSrc, bars, acc, o);
        GoType1(cfg, bars, root, i + 1, c', acc + [o]);
    }
  }

  /** A Type 1 run without change averaging only ever clamps, and with the
      close source keeps the filter within one range of the close. */
  lemma RunType1Clamps(cfg: Config, bars: seq<Bar>, root: real -> real)
    requires ValidConfig(cfg) && !cfg.avVals && cfg.fType == Type1
    ensures var r := Run(cfg, bars, root);
      r.Success? ==> Type1Trace(cfg.movSrc, bars, r.value)
  {
    GoType1(cfg, bars, root, 0, InitialCarry, []);
  }

  /** Two carries that differ only in the change record, the first of which
      holds the one-sample record. */
  ghost predicate SingleSampleTwins(a: Carry, b: Carry)
  {
    && a.range == b.range
    && a.filter.smooth == b.filter.smooth
    && a.filter.last == b.filter.last
    && HoldsLastOnly(a.filter)
  }

  lemma FilterBarSingleSample(cfg: Config, h: real, l: real, rs: RangeOut,
                              a: FilterState, b: FilterState, prev: Option<Output>)
    requires cfg.smoothPer != -1
    requires a.smooth == b.smooth && a.last == b.last && HoldsLastOnly(a)
    ensures var sA := FilterBar(cfg.(avVals := true, avSamples := 1), h, l, rs, a, prev);
      var sB := FilterBar(cfg.(avVals := false), h, l, rs, b, prev);
      && sA.None? == sB.None?
      && (sA.Some? ==> sA.value.0 == sB.value.0 && SingleSampleTwins(sA.value.1, sB.value.1))
  {
    FilterStepSingleSample(cfg, h, l, rs.size, a, b);
  }

  lemma BarStepSingleSample(cfg: Config, bars: seq<Bar>, root: real -> real, i: nat,
                            a: Carry, b: Carry, prev: Option<Output>)
    requires ValidConfig(cfg) && i < |bars|
    requires SingleSampleTwins(a, b)
    ensures var sA := BarStep(cfg.(avVals := true, avSamples := 1), bars, i, a, prev, root);
      var sB := BarStep(cfg.(avVals := false), bars, i, b, prev, root);
      && sA.None? == sB.None?
      && (sA.Some? ==> sA.value.0 == sB.value.0 && SingleSampleTwins(sA.value.1, sB.value.1))
  {
    var h := MoveHigh(cfg.movSrc, bars[i]);
    var l := MoveLow(cfg.movSrc, bars[i]);
    var rs := BarRange(cfg.rngScale, cfg.rngQty, cfg.rngPer, cfg.movSrc, bars, i, a.range, root);
    FilterBarSingleSample(cfg, h, l, rs, a.filter, b.filter, prev);
  }

  lemma {:induction false} GoSingleSample(cfg: Config, bars: seq<Bar>, root: real -> real, i: nat,
                                          a: Carry, b: Carry, acc: seq<Output>)
    requires ValidConfig(cfg) && i == |acc| <= |bars|
    requires SingleSampleTwins(a, b)
    ensures Go(cfg.(avVals := true, avSamples := 1), bars, root, i, a, acc)
         == Go(cfg.(avVals := false), bars, root, i, b, acc)
    decreases |bars| - i
  {
    var cA := cfg.(avVals := true, avSamples := 1);
    var cB := cfg.(avVals := false);
    if i < |bars| {
      var prev := if i == 0 then None else Some(acc[i - 1]);
      BarStepSingleSample(cfg, bars, root, i, a, b, prev);
      var sA := BarStep(cA, bars, i, a, prev, root);
      var sB := BarStep(cB, bars, i, b, prev, root);
      if sA.Some? {
        GoSingleSample(cfg, bars, root, i + 1, sA.value.1, sB.value.1, acc + [sA.value.0]);
      }
    }
  }

  /** Averaging the filter over a single change sample reproduces the run
      without averaging, bar for bar. */
  lemma SingleSampleAveragingIsIdentity(cfg: Config, bars: seq<Bar>, root: real -> real)
    requires ValidConfig(cfg)
    ensures Run(cfg.(avVals := true, avSamples := 1), bars, root) == Run(cfg.(avVals := false), bars, root)
  {
    GoSingleSample(cfg, bars, root, 0, InitialCarry, InitialCarry, []);
  }

  /** The smoothed range carried so far is positive, or not yet defined. */
  ghost predicate SmoothPositive(c: Carry)
  {
    c.filter.smooth.Some? ==> c.filter.smooth.value > 0.0
  }

  /** The configurations whose range can never be zero: a fixed scale, a
      positive quantity, and a smoothing period of at least one. */
  predicate PositiveRangeConfig(cfg: Config)
  {
    ValidConfig(cfg) && FixedScale(cfg.rngScale) && cfg.rngQty > 0.0 && cfg.smoothPer >= 1
  }

  lemma BarStepSucceeds(cfg: Config, bars: seq<Bar>, root: real -> real, i: nat, c: Carry,
                        prev: Option<Output>)
    requires PositiveRangeConfig(cfg) && i < |bars| && SmoothPositive(c)
    ensures var s := BarStep(cfg, bars, i, c, prev, root);
      s.Some? && SmoothPositive(s.value.1)
  {
    var h := MoveHigh(cfg.movSrc, bars[i]);
    var l := MoveLow(cfg.movSrc, bars[i]);
    var x := (h + l) / 2.0;
    var before := if i == 0 then None else Some(bars[i - 1]);
    FixedRangePositive(cfg.rngScale, cfg.rngQty, cfg.rngPer, bars[i], before, x, c.range, root);
    var rs := BarRange(cfg.rngScale, cfg.rngQty, cfg.rngPer, cfg.movSrc, bars, i, c.range, root);
    FilterBarSucceeds(cfg, h, l, rs, c.filter, prev);
  }

  lemma FilterBarSucceeds(cfg: Config, h: real, l: real, rs: RangeOut, fs: FilterState, prev: Option<Output>)
    requires cfg.smoothPer >= 1 && rs.size > 0.0
    requires fs.smooth.Some? ==> fs.smooth.value > 0.0
    ensures var s := FilterBar(cfg, h, l, rs, fs, prev);
      s.Some? && SmoothPositive(s.value.1)
  {
    UsedRangePositive(cfg.smoothRange, cfg.smoothPer, rs.size, fs.smooth);
  }

  lemma {:induction false} GoSucceeds(cfg: Config, bars: seq<Bar>, root: real -> real, i: nat,
                                      c: Carry, acc: seq<Output>)
    requires PositiveRangeConfig(cfg) && i == |acc| <= |bars| && SmoothPositive(c)
    ensures Go(cfg, bars, root, i, c, acc).Success?
    decreases |bars| - i
  {
    if i < |bars| {
      var prev := if i == 0 then None else Some(acc[i - 1]);
      BarStepSucceeds(cfg, bars, root, i, c, prev);
      var s := BarStep(cfg, bars, i, c, prev, root);
      GoSucceeds(cfg, bars, root, i + 1, s.value.1, acc + [s.value.0]);
    }
  }

  /** A run whose range cannot be zero always completes: the zero-range stop
      of a Type 2 run needs a range that reaches zero. */
  lemma RunSucceedsWithFixedRange(cfg: Config, bars: seq<Bar>, root: real -> real)
    requires PositiveRangeConfig(cfg)
    ensures Run(cfg, bars, root).Success?
  {
    GoSucceeds(cfg, bars, root, 0, InitialCarry, []);
  }

  /** A pass from bar `i` that reaches bar `k` reaches every bar in between. */
  lemma {:induction false} ReachFromEarlier(cfg: Config, bars: seq<Bar>, root: real -> real, i: nat,
                                            c: Carry, acc: seq<Output>, k: nat, j: nat)
    requires ValidConfig(cfg) && i == |acc| <= j <= k <= |bars|
    requires ReachFrom(cfg, bars, root, i, c, acc, k).Some?
    ensures ReachFrom(cfg, bars, root, i, c, acc, j).Some?
    decreases k - i
  {
    if i < j {
      var prev := if i == 0 then None else Some(acc[i - 1]);
      match BarStep(cfg, bars, i, c, prev, root)
      case None =>
      case Some((o, c')) =>
        ReachFromEarlier(cfg, bars, root, i + 1, c', acc + [o], k, j);
    }
  }

  /** The pass from bar `i` reaches bar `e.bar` carrying exactly the state `e`
      reports, and cannot pass it. */
  predicate StopsFrom(cfg: Config, bars: seq<Bar>, root: real -> real, i: nat, c: Carry,
                      acc: seq<Output>, e: RunError)
    requires ValidConfig(cfg) && i == |acc| <= |bars|
  {
    && i <= e.bar < |bars|
    && ReachFrom(cfg, bars, root, i, c, acc, e.bar).Some?
    && ReachFrom(cfg, bars, root, i, c, acc, e.bar + 1).None?
    && var c' := ReachFrom(cfg, bars, root, i, c, acc, e.bar).value.1;
       c'.range == e.range && c'.filter.smooth == e.smooth && c'.filter.last == e.last
  }

  /** Continuing a run from bar `i` completes exactly when the halted pass
      reaches the end, with the same outputs, and otherwise stops where that
      pass first cannot go on. */
  lemma {:induction false} GoIsReachFrom(cfg: Config, bars: seq<Bar>, root: real -> real, i: nat,
                                         c: Carry, acc: seq<Output>)
    requires ValidConfig(cfg) && i == |acc| <= |bars|
    ensures var r := Go(cfg, bars, root, i, c, acc);
      && (r.Success? <==> ReachFrom(cfg, bars, root, i, c, acc, |bars|).Some?)
      && (r.Success? ==> r.value == ReachFrom(cfg, bars, root, i, c, acc, |bars|).value.0)
      && (r.Failure? ==> StopsFrom(cfg, bars, root, i, c, acc, r.error))
    decreases |bars| - i
  {
    if i < |bars| {
      var prev := if i == 0 then None else Some(acc[i - 1]);
      match BarStep(cfg, bars, i, c, prev, root)
      case None =>
      case Some((o, c')) =>
        GoIsReachFrom(cfg, bars, root, i + 1, c', acc + [o]);
    }
  }

  /** A run completes exactly when it can be carried bar by bar to the end,
      with the same outputs. When it stops, it stops at the first bar it
      cannot pass: every bar up to the reported one is reached, the reported
      state is the one the run carried into that bar, and on that state the
      range used is zero while a Type 2 step would move the filter. */
  lemma RunStopsOnItsOwnState(cfg: Config, bars: seq<Bar>, root: real -> real)
    requires ValidConfig(cfg)
    ensures var r := Run(cfg, bars, root);
      && (r.Success? <==> Reach(cfg, bars, root, |bars|).Some?)
      && (r.Success? ==> r.value == Reach(cfg, bars, root, |bars|).value.0)
      && (r.Failure? ==>
            && r.error.bar < |bars|
            && (forall j :: 0 <= j <= r.error.bar ==> Reach(cfg, bars, root, j).Some?)
            && Reach(cfg, bars, root, r.error.bar + 1).None?
            && var c := Reach(cfg, bars, root, r.error.bar).value.1;
               && c.range == r.error.range && c.filter.smooth == r.error.smooth && c.filter.last == r.error.last
               && ZeroRangeAt(cfg, bars, r.error.bar, c.range, c.filter.smooth, c.filter.last, root))
  {
    GoIsReachFrom(cfg, bars, root, 0, InitialCarry, []);
    var r := Run(cfg, bars, root);
    if r.Failure? {
      forall j | 0 <= j <= r.error.bar
        ensures Reach(cfg, bars, root, j).Some?
      {
        ReachFromEarlier(cfg, bars, root, 0, InitialCarry, [], r.error.bar, j);
      }
    }
  }

  /** The movement prices of a sequence of bars, oldest first. */
  function MovePrices(src: Source, bars: seq<Bar>): (xs: seq<real>)
    ensures |xs| == |bars|
    ensures forall j :: 0 <= j < |bars| ==> xs[j] == MovePrice(src, bars[j])
  {
    seq(|bars|, j requires 0 <= j < |bars| => MovePrice(src, bars[j]))
  }

  /** A bar step pushes the bar's movement price onto the window. */
  lemma BarStepWindow(cfg: Config, bars: seq<Bar>, i: nat, c: Carry, prev: Option<Output>, root: real -> real,
                      o: Output, c': Carry)
    requires ValidConfig(cfg) && i < |bars| && |c.range.window| <= Cap(cfg.rngPer)
    requires BarStep(cfg, bars, i, c, prev, root) == Some((o, c'))
    ensures c'.range.window == Suffix(c.range.window + [MovePrice(cfg.movSrc, bars[i])], Cap(cfg.rngPer))
  {
    BarStepWiring(cfg, bars, i, c, prev, root);
  }

  /** Pushing onto the last `cap` values of `s` keeps the last `cap` values of `s` extended. */
  lemma SuffixSnoc(s: seq<real>, x: real, cap: int)
    ensures Suffix(Suffix(s, Cap(cap)) + [x], Cap(cap)) == Suffix(s + [x], Cap(cap))
  {
    PushOntoSuffix(s, x, cap);
  }

  /** One more bar adds its movement price at the end. */
  lemma MovePricesSnoc(src: Source, bars: seq<Bar>, i: nat)
    requires i < |bars|
    ensures MovePrices(src, bars[..i + 1]) == MovePrices(src, bars[..i]) + [MovePrice(src, bars[i])]
  {
    var xs := MovePrices(src, bars[..i + 1]);
    var ys := MovePrices(src, bars[..i]) + [MovePrice(src, bars[i])];
    assert forall j :: 0 <= j < i + 1 ==> xs[j] == ys[j];
  }

  lemma {:induction false} ReachFromWindow(cfg: Config, bars: seq<Bar>, root: real -> real, i: nat,
                                           c: Carry, acc: seq<Output>, k: nat)
    requires ValidConfig(cfg) && i == |acc| <= k <= |bars|
    requires c.range.window == Suffix(MovePrices(cfg.movSrc, bars[..i]), Cap(cfg.rngPer))
    ensures var r := ReachFrom(cfg, bars, root, i, c, acc, k);
      r.Some? ==> r.value.1.range.window == Suffix(MovePrices(cfg.movSrc, bars[..k]), Cap(cfg.rngPer))
    decreases k - i
  {
    if i < k {
      var prev := if i == 0 then None else Some(acc[i - 1]);
      match BarStep(cfg, bars, i, c, prev, root)
      case None =>
      case Some((o, c')) =>
        BarStepWindow(cfg, bars, i, c, prev, root, o, c');
        MovePricesSnoc(cfg.movSrc, bars, i);
        SuffixSnoc(MovePrices(cfg.movSrc, bars[..i]), MovePrice(cfg.movSrc, bars[i]), cfg.rngPer);
        ReachFromWindow(cfg, bars, root, i + 1, c', acc + [o], k);
    }
  }

  /** The standard-deviation window a run carries into bar `k` is exactly the
      last `rng_per` movement prices of the bars before it, oldest first: the
      same sliding window as `PushAll` of those prices. */
  lemma RunWindowSlides(cfg: Config, bars: seq<Bar>, root: real -> real, k: nat)
    requires ValidConfig(cfg) && k <= |bars|
    ensures var r := Reach(cfg, bars, root, k);
      r.Some? ==> && r.value.1.range.window == Suffix(MovePrices(cfg.movSrc, bars[..k]), Cap(cfg.rngPer))
                  && r.value.1.range.window == PushAll(MovePrices(cfg.movSrc, bars[..k]), cfg.rngPer)
  {
    assert MovePrices(cfg.movSrc, bars[..0]) == [];
    ReachFromWindow(cfg, bars, root, 0, InitialCarry, [], k);
    PushAllIsSlidingWindow(MovePrices(cfg.movSrc, bars[..k]), cfg.rngPer);
  }
}
