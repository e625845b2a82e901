# Range filter: a verified model

This project models the range filter of `trend.py`, a trading indicator.
The indicator takes open/high/low/close bars, oldest first, and produces three things per bar:
- a trend line that ignores moves smaller than a volatility-based "range" (the filter);
- bands one range either side of the filter;
- a direction of -1, 0 or +1, with an upward and a downward flag.

The model is written in Dafny and is purely functional:

- `Prelude` holds the "undefined" marker (`Option`, standing for the NaN the indicator starts its averages with) and a few real-number helpers.
- `Averages` holds the conditional EMA (`Cond_EMA`), the mean of a list (`Cond_SMA`) and the population variance that `Stdev` takes the square root of. It also holds the bounded first-in-first-out list behind both the standard-deviation window and the change record.
- `Params` holds the bars and the configuration. The string options of the constructor become enumerations.
- `Volatility` covers one bar of `rng_size`:
  - true range and the ATR EMA;
  - the absolute change and its EMA;
  - the standard-deviation window;
  - the choice among the eight scales.
- `Recurrence` covers one bar of `rng_filt`:
  - range smoothing and first-bar initialisation;
  - the Type 1 clamp and the Type 2 whole-step catch-up;
  - the bands and the averaging over filter changes.
- `Trend` is the loop of `run`. It threads all state from bar to bar and classifies the direction. It returns one output per bar. Otherwise it returns the first bar at which a Type 2 step would move with a zero range, together with the volatility estimates, smoothed range and previous filter it carried into that bar.
- `RunProperties` proves properties of whole runs by induction over the bars.

Prices are exact reals. The square root used by the standard-deviation scale is a parameter `root` of the run, because Dafny has no real square root. The properties about that scale hold for any `root`, or for any non-negative one where stated.

## Model

| member | source | states |
|---|---|---|
| `Averages.CondEma` | trend.py:52-75 | Without the condition the average is unchanged, even when undefined. With it, an undefined average becomes the input. Otherwise, for a period of at least one, the new value lies between the old average and the input, and a period of one jumps to the input. |
| `Averages.CondEmaFixedPoint` | trend.py:67-75 | Feeding an average the value it already holds leaves it there. |
| `Averages.Mean` | trend.py:77-92 | The mean is undefined exactly for the empty list, and a one-element list's mean is that element. |
| `Averages.MeanWithin` | trend.py:89-92 | The mean of a non-empty list lies within any bounds that every element respects. |
| `Averages.Variance` | trend.py:94-108 | The population variance is undefined exactly for the empty list and is never negative. |
| `Averages.VarianceOfConstant` | trend.py:94-108 | A window whose values are all equal has variance zero. |
| `Averages.BoundedPush` | trend.py:153-156 | Appending and then dropping at most one oldest value keeps the list within its capacity. The result is the last `cap` values of the extended list and ends with the new value. A negative capacity acts as zero. |
| `Averages.PushAllIsSlidingWindow` | trend.py:153-156 | After any sequence of pushes from empty, the list holds exactly the last `cap` values pushed, oldest first. |
| `Volatility.TrueRange` | trend.py:131-139 | The first bar's true range is its high minus its low. Later bars take the largest of that span and the two gaps to the previous close, so the result is non-negative and equal to one of the three. |
| `Volatility.AbsChange` | trend.py:144-148 | The absolute change is zero on the first bar and never negative. |
| `Volatility.ScaledRange` | trend.py:160-178 | The range size is the quantity times the unit of the chosen scale: 0.0001 for pips, 1 for points, 0.01 for ticks, a hundredth of the close for percent of price, the ATR, the average change, the standard deviation, or 1 for the absolute scale and any unknown scale name. |
| `Volatility.RangeStep` | trend.py:127-178 | After a bar both EMAs are defined. The window is the previous window with this bar's movement price pushed, so it keeps at most the last `rng_per` prices and ends with this bar's (`RunProperties.RunWindowSlides` gives the view over a whole run). On the first bar the ATR is the bar's span and the average change is zero. The range size is the chosen scale applied to the updated ATR, average change and window. |
| `Volatility.UpdateEstimates` | trend.py:141-156 | Both estimates are defined afterwards. While an estimate is still undefined it becomes the bar's true range or absolute change. Later, with a period of at least one, each EMA lies between its previous value and the bar's true range or absolute change. A window within capacity becomes the last `rng_per` values of itself with the movement price appended. |
| `Volatility.RangeLinearInQuantity` | trend.py:160-178 | The range size is proportional to the range quantity, and the quantity does not affect the volatility state. |
| `Volatility.RangeNonNegative` | trend.py:131-178 | With well-formed bars, a non-negative quantity, a period of at least one and a non-negative square root, the estimates and the range size stay non-negative. |
| `Volatility.FixedRangePositive` | trend.py:160-178 | With pips, points, ticks or the absolute scale and a positive quantity, every bar's range size is positive. |
| `Recurrence.Type1Step` | trend.py:220-224 | A Type 1 step yields the high less the range, the low plus the range, or the previous value. It rises only to the high less the range and falls only to the low plus the range. On a single-price bar it lands within one range of that price. |
| `Recurrence.Type1IsClamp` | trend.py:220-224 | When the interval from the high less the range to the low plus the range is not inverted, Type 1 clamps the previous value into it. |
| `Recurrence.Type1Idempotent` | trend.py:220-224 | Repeating a Type 1 step on the same bar is a no-op exactly when the bar spans at most twice the range. |
| `Recurrence.Type2WholeSteps` | trend.py:225-229 | Every Type 2 move is a whole multiple of the range, and a bar that is not a full range away leaves the filter where it is. |
| `Recurrence.TravelBounds` | trend.py:227-229 | With a positive range, the whole steps toward a price at least one range away cover at least one range and fall short of the price by less than one range. |
| `Recurrence.Type2Catches` | trend.py:225-229 | With a positive range, an upward move goes at least one range and lands on the high or less than one range below it. A downward move mirrors this at the low. On a single-price bar the result is less than one range from the price. |
| `Recurrence.UsedRange` | trend.py:209-211 | With smoothing on, the range used is the smoothed range after this bar's size has been fed into its EMA. With smoothing off it is the unsmoothed size, and so it is on the first bar, when the smoothed range starts at that size. |
| `Recurrence.UsedRangePositive` | trend.py:209-211 | With a smoothing period of at least one, a positive size and a positive earlier smoothed range, the smoothed range and the range used are positive. |
| `Recurrence.RawFilter` | trend.py:213-229 | The first bar starts at the midpoint of the movement high and low. Type 1 and Type 2 apply their steps, and any other filter type holds the previous value. The result is undefined exactly for a Type 2 bar that would divide by a zero range. |
| `Recurrence.ChangeAverage` | trend.py:236-247 | A value is recorded only when it differs from the previous raw filter, and the record keeps the last `av_samples` such values. The output is their mean, or the raw value while nothing is recorded. |
| `Recurrence.SingleSampleIsRaw` | trend.py:236-243 | With room for one sample, the change average records exactly the current raw value and reports it. |
| `Recurrence.ChangeAverageWithin` | trend.py:236-245 | The averaged output and every recorded value stay within any bounds that hold for the raw value and the earlier record. |
| `Recurrence.FilterStep` | trend.py:209-252 | A filter step fails exactly when the raw recurrence does. Otherwise the bands are the reported value plus and minus the range used. The carried previous value is the raw filter, and the smoothed range is updated whether or not smoothing is on. Without averaging the report is the raw filter and the change record is untouched. With averaging the report and record are the change average's. The record changes only on a filter change. |
| `Recurrence.FilterStepSingleSample` | trend.py:236-247 | Averaging over one sample gives the same bar as no averaging, and keeps the one-sample record in step. |
| `Params.MovePrice` | trend.py:285-293 | With the close source the movement price is the close. With the wicks source it is the midpoint of the high and low. |
| `Params.MoveBounds` | trend.py:285-293 | For a well-formed bar the movement low, movement price and movement high are ordered and lie within the bar's low and high. |
| `Trend.Direction` | trend.py:311-317 | The direction stays within -1..1, is non-zero after any strict rise or fall, and never returns to 0 once non-zero. The full rule (+1 on a strict rise, -1 on a strict fall, otherwise unchanged) is stated for every run by `RunProperties.RunDirectionAndBands`. |
| `Trend.BarStep` | trend.py:283-321 | One bar of the run produces bands one range either side of the filter. The flags mirror the direction, and the direction is 0 without a previous bar and follows `Direction` otherwise. The first bar's filter is the movement price. Without averaging the filter is the raw recurrence. Its wiring is stated by `Trend.BarStepWiring`. It fails exactly when the filter is Type 2, a previous filter exists, the range used is zero and the bar would move the filter. |
| `Trend.BarStepWiring` | trend.py:296-301 | The range a bar uses is this bar's range size after smoothing. The bar carries forward this bar's volatility state, the smoothed range updated with this bar's size, and the raw filter the recurrence computed with the range used. With averaging, the change record and the reported filter are what the change average gives; without averaging the record is unchanged. |
| `Trend.Go` | trend.py:283-321 | Continuing a run keeps the outputs already produced and adds one per remaining bar. It fails only for Type 2, at a bar not yet processed, and on the state it reports that bar's range used is zero while the bar would move the filter. |
| `Trend.Run` | trend.py:254-301 | A run gives exactly one output per bar. Otherwise it stops, only for Type 2, at a bar of the input, and on the state it reports that bar's range used is zero while the bar would move the filter. `RunProperties.RunStopsOnItsOwnState` shows that this is the run's own state. |
| `RunProperties.RunStopsOnItsOwnState` | trend.py:283-321 | A run completes exactly when it can be built bar by bar to the end (`Trend.Reach`), with the same outputs. When it stops, every bar up to the reported one is reached, and the reported state is the one the run carried into that bar. On that state the range used is zero and a Type 2 step would move the filter, so the run stops at the first bar where that happens. |
| `RunProperties.RunDirectionAndBands` | trend.py:304-321 | In every run each high band is the filter plus the range and each low band the filter minus it. The flags mirror the direction and are never both set. The direction is 0 on the first bar, then +1, -1 or unchanged as the filter rises, falls or stays. |
| `RunProperties.DirectionSticky` | trend.py:309-317 | Once a run's direction has left 0, it never returns to 0. |
| `RunProperties.RunFirstBar` | trend.py:283-321 | The first output's filter is the first bar's movement price (its close with the close source), with direction 0 and neither flag set. |
| `RunProperties.RunType1Clamps` | trend.py:220-224 | In a Type 1 run without averaging, each filter value after the first is the high less the range, the low plus the range, or the previous value. With the close source and a non-negative range every value is within one range of the close. |
| `RunProperties.RunType2WholeSteps` | trend.py:225-229 | In a Type 2 run without averaging, every change of the filter is a whole multiple of the range. With a positive range an upward move covers at least one range and stops at the high, and a downward one mirrors it. With the close source every value is less than one range from the close. |
| `RunProperties.RunWindowSlides` | trend.py:153-156 | The standard-deviation window a run carries into bar `k` is exactly the last `rng_per` movement prices of the bars before it, oldest first, which is the sliding window `PushAll` builds from those prices. |
| `RunProperties.RunSucceedsWithFixedRange` | trend.py:209-229 | With a fixed scale, a positive quantity and a smoothing period of at least one, the range never reaches zero, so every run completes with one output per bar. |
| `RunProperties.SingleSampleAveragingIsIdentity` | trend.py:236-247 | A run that averages over one change sample equals, bar for bar, the same run without averaging. |

## Left out

- Chart colours and the external trend column (trend.py:323-347) are not modelled. They are presentation only, derived from the direction and the close.
- Reading and writing the data frame (trend.py:28-50, 349-362) is not modelled. The model takes the bars as a sequence and returns the outputs.
- The square root in `Stdev` (trend.py:108) is the parameter `root`, because Dafny reals have no square root.
- Floating-point rounding and NaN inputs are not modelled: prices are exact reals, and NaN appears only as the "not yet defined" state of the averages.
- `Recurrence.RawFilter`: a Type 2 step with a zero range that would move (trend.py:226-229) divides by zero. The model reports the step as undefined instead. The source writes NaN for that bar, and without averaging it restarts from the midpoint on the next bar. With averaging, the NaN compares unequal to the previous value, so it is recorded as a change (trend.py:237-239) and makes the reported mean NaN on later bars until it leaves the record (trend.py:240-243).
- `Trend.Run`: stops with `ZeroRangeStep` at the first such bar instead of continuing past it with NaN outputs.
- `Trend.Run`: requires `rng_per` and `smooth_per` to differ from -1. With -1 the EMA weight 2/(n+1) divides by zero and the source raises an error.
- `Trend.Run`: with the standard-deviation scale, requires `rng_per` to be at least 1. With a smaller period the window is always empty, the deviation is NaN on every bar, and so is every band.
- The standard deviation is computed for every scale in the source but is used only by its own scale. The model computes it only there.
- Dead code is not modelled:
  - the `is not None` guards on the estimates (trend.py:169-173), which never fire because the estimates start as NaN and never become None;
  - the `ac_list` that is created (trend.py:275) and passed through `rng_size` (trend.py:110, 180) but never read;
  - the `filt_change_count` that is incremented (trend.py:242) but never read;
  - the unused parameter `i` and the unused local `n` (trend.py:202) of `rng_filt`.
- The model follows the code in these behaviours:
  - the average change is an EMA over `rng_per`, not a rolling mean;
  - the standard deviation is the population one;
  - pips, points and ticks multiply the quantity by 0.0001, 1 and 0.01 rather than returning it unchanged;
  - parameters are not validated up front;
  - a zero or negative range size is not rejected (a negative Type 2 range is modelled as written).
