# Online screener analytics, modelled in Dafny

This project models the analytics core of the Online_screener market screener. The core turns a sequence of hourly OHLCV bars into trend scores, pivot trading levels and an EMA trend dashboard. It does this in two places:

- **`app/utils.py`**:
  - classifies a normalised regression slope into five trend categories;
  - combines the hourly, four-hour and daily scores with one of three weightings;
  - resamples hourly bars into four-hour and daily bars;
  - computes the classic pivot levels of the reference day and the two days before it, with a 2:1 trade plan for the day in progress;
  - assembles the summary payload of a chart.
- **`app/trend_dashboard.py`**:
  - computes 21/55 EMA crossover directions per timeframe;
  - compares the price with the 200-period EMA on four-hour bars;
  - derives mid-term and global agreement and the STRONG flag;
  - collects the per-asset results and drops the failures.

Modules:

- `Wrappers` (`wrappers.dfy`): the `Option` type.
- `Bars` (`bars.dfy`): bars, well-formed series, and the max-high, min-low, close and volume aggregates.
- `Resample` (`resample.dfy`): hourly-to-coarser aggregation. There is a fold `Resampled` and a loop `Resample` proved equal to it. It is also proved against a declarative grouping: every row is the aggregate of its non-empty group, keys strictly increase, and every bar's group is emitted.
- `Trend` (`trend.dfy`): `classify_trend`, `calculate_weighted_score`, `calc_regression` and the slope normalisation.
- `Pivots` (`pivots.dfy`): `calculate_pivot_zones`, as a loop proved against a specification function.
- `Chart` (`chart.dfy`): the numbers `generate_chart` produces besides the picture, and the summary payload.
- `Dashboard` (`dashboard.dfy`): `calculate_ema`, `get_trend_ema`, `get_price_vs_ema`, `calculate_trend_strength`, `analyze_asset_trends` and `generate_trend_dashboard` (a loop).

Representation choices:

- Prices are mathematical reals.
- Timestamps are whole hours, already in local time.
- The weighted score is kept exactly, in tenths. The weights 0.5/0.3/0.2 become 5/3/2, so "bullish iff score > 3.0" is "bullish iff 10·score > 30".

Points where the code and its written description differ; the model follows the code:

- R1 − S1 equals H − L, not 2(H − L): with R1 = 2PP − L and S1 = 2PP − H, the difference is H − L. R2 − S2 is 2(H − L).
- A flat market reports STRONG agreement once the four-hour, daily and weekly series are long enough to have a direction. All three are `neutral`, and `neutral == neutral` counts as agreement (`Dashboard.FlatMarket`).

## Model

| member | source | states |
|---|---|---|
| Bars.MaxHigh | app/utils.py:62 | the period high is an upper bound of every bar's high and is attained by one of them |
| Bars.MinLow | app/utils.py:63 | the period low is a lower bound of every bar's low and is attained by one of them |
| Bars.CloseWithinRange | app/utils.py:62-66 | in a well-formed series every close lies between the lowest low and the highest high, and the low is positive |
| Bars.SumVolume | app/utils.py:134 | the summed volume of a single bar is its volume, and of bars with non-negative volumes is non-negative |
| Resample.KeyMonotone | app/utils.py:129 | a later hour never falls in an earlier bucket |
| Resample.KeysNondecreasing | app/utils.py:129 | along a series in time order the bucket keys never decrease |
| Resample.Key | app/utils.py:129 | the bucket key k places the hour in [k·width − phase, (k + 1)·width − phase), the floor of its bucket |
| Resample.Aggregate | app/utils.py:130-135 | the row of a group carries its key, the first open and the last close, and a low and a high that bound every member's low and high |
| Resample.Members | app/utils.py:129 | the group of a key holds at most all bars, each of them with that key |
| Resample.MembersComplete | app/utils.py:129-135 | every bar whose key is k belongs to the group of k, so a row aggregates its whole group |
| Resample.Resampled | app/utils.py:129-143 | the fold that `resample(...).agg(...).dropna()` computes; it carries no contract of its own, and its meaning is stated by ResampledIsGrouping and ResampledLast |
| Resample.ResampledLast | app/utils.py:129-143 | never more rows than bars, at least one row for a non-empty series, and the last row has the last bar's bucket key and close |
| Resample.ResampledIsGrouping | app/utils.py:129-143 | for strictly increasing timestamps: every row is first open, max high, min low, last close and summed volume of a non-empty group; keys strictly increase; every bar's group is emitted |
| Resample.ResampledClosesAreBarCloses | app/utils.py:133 | every aggregated close is the close of one of the hourly bars |
| Resample.ResampledConstantClose | app/utils.py:133 | a series closing at c everywhere resamples to rows all closing at c |
| Resample.ResampledPositiveCloses | app/utils.py:133 | positive closes stay positive after aggregation |
| Resample.DayKeyOfFourHourKey | app/utils.py:129-143 | the day key is the four-hour key divided by six |
| Resample.FewerDaysThanFourHours | app/utils.py:129-143 | there are never more daily rows than four-hour rows |
| Resample.Resample | app/utils.py:129-143 | the aggregation loop computes exactly the resampled series |
| Trend.Classify | app/utils.py:26-31 | score 5 iff pct > 0.01; at least 4 iff pct ≥ 0.0025; at least 3 iff pct ≥ −0.0025; at least 2 iff pct ≥ −0.01; always in 1..5 |
| Trend.ClassifyTrend | app/utils.py:26-31 | band by band: above 0.01 ("VERY BULLISH", "#2E7D32", 5); [0.0025, 0.01] ("BULLISH", "#4CAF50", 4); [−0.0025, 0.0025) ("NEUTRAL", "#607D8B", 3); [−0.01, −0.0025) ("BEARISH", "#F44336", 2); below −0.01 ("VERY BEARISH", "#B71C1C", 1) |
| Trend.ClassifyCountsThresholds | app/utils.py:26-31 | the score equals one plus the number of thresholds cleared (an independent reading of the table) |
| Trend.ClassifyMonotone | app/utils.py:26-31 | a higher percentage never gets a lower score |
| Trend.ClassifyBoundaries | app/utils.py:26-31 | 0.01 is BULLISH (strict test), 0.0025 BULLISH, −0.0025 NEUTRAL, −0.01 BEARISH |
| Trend.FormulaOf | app/utils.py:44 | only the two alternative names select their profile; every other name selects `intraday_local` |
| Trend.WeightsOf | app/utils.py:38-42 | the weights of every profile sum to one (ten tenths) |
| Trend.CombineIsConvex | app/utils.py:38-42 | the weighted score lies between the smallest and the largest score and equals s when all three are s |
| Trend.ModeOf | app/utils.py:45 | bullish exactly when the score is above 3.0 |
| Trend.CalculateWeightedScore | app/utils.py:33-46 | per-timeframe scores are the classifications; the score lies in [1, 5] between the smallest and largest score, equals the common score when all agree, and is bullish iff above 3.0 |
| Trend.UnanimousScores | app/utils.py:33-46 | three VERY BULLISH trends score 5.0 and three VERY BEARISH trends score 1.0 (bearish) under every profile |
| Trend.NeutralIsBearish | app/utils.py:45 | three NEUTRAL trends score exactly 3.0, which is bearish |
| Trend.IndexSumClosed | app/utils.py:20 | Σx over 0..n−1 is n(n−1)/2 |
| Trend.IndexSqSumClosed | app/utils.py:20 | Σx² over 0..n−1 is (n−1)n(2n−1)/6 |
| Trend.DenominatorPositive | app/utils.py:20 | the slope denominator n·Σx² − (Σx)² is n²(n−1)(n+1)/12, positive for n ≥ 2 |
| Trend.WindowConstants | app/utils.py:17-20 | for the 20-point window Σx = 190, Σx² = 2470 and the denominator is 13300 |
| Trend.FitOf | app/utils.py:20-22 | the mid line has one point per abscissa of the window |
| Trend.SlopeOf | app/utils.py:20 | with the intercept of InterceptOf the slope solves the second normal equation: Σxy = 190·intercept + 2470·slope |
| Trend.InterceptOf | app/utils.py:21 | the line passes through the mean point, so the residuals sum to zero: Σy = 20·intercept + 190·slope |
| Trend.FitWindow | app/utils.py:17-22 | the mid line of a 20-close window has 20 points, point i being intercept + slope·i |
| Trend.Regression | app/utils.py:16-22 | the intended regression: a fit exists iff the series has at least 20 values |
| Trend.RegressionAsWritten | app/utils.py:16-22 | as written, a fit also exists for exactly one value; otherwise it is the intended regression |
| Trend.RegressionBroadcastSlope | app/utils.py:16-22 | a single close p gets the slope 19p/70, non-zero for p ≠ 0, where the intended regression fails |
| Trend.LineAt | app/utils.py:22 | the i-th point of the line is intercept + slope·i |
| Trend.FitOfLine | app/utils.py:16-22 | on exactly linear data a + b·i the slope is b, the intercept a, and the mid line reproduces the input |
| Trend.ConstantWindowIsFlat | app/utils.py:16-22 | a constant window has slope 0 and a mid line equal to the constant |
| Trend.FitIsLeastSquares | app/utils.py:16-22 | the fitted line satisfies both normal equations: residuals sum to zero and are uncorrelated with the index |
| Trend.NormalisedPct | app/utils.py:149-152 | the percentage trend per hour has the sign of the slope |
| Trend.NormalisedPctScaleFree | app/utils.py:149-152 | scaling every price by k > 0 leaves the percentage unchanged |
| Pivots.DayStart | app/utils.py:50 | the start of the day is a multiple of 24 hours at or before the timestamp, less than a day before it |
| Pivots.PeriodStarts | app/utils.py:50-54 | three day starts in chronological order: element i is the reference day's midnight minus 2 − i days |
| Pivots.DayBars | app/utils.py:57 | the filtered bars lie in [start, start + 1 day) and belong to the series |
| Pivots.DayBarsComplete | app/utils.py:57 | no bar of the day is missed by the filter |
| Pivots.DayBarsLast | app/utils.py:57 | the series' last bar, when in the day, is the day's last bar |
| Pivots.PivotLevels | app/utils.py:72-80 | 3·PP = H + L + C, R1 − S1 = H − L, R2 − S2 = 2(H − L); for L ≤ C ≤ H the nine levels are ordered S2 ≤ M5 ≤ S1 ≤ M2 ≤ PP ≤ M3 ≤ R1 ≤ M4 ≤ R2 and PP lies in [L, H] |
| Pivots.BullStop | app/utils.py:83-85 | the bull reward (entry to M4) is twice the risk (stop to entry) |
| Pivots.BearStop | app/utils.py:86-88 | the bear reward (entry to M5) is twice the risk (entry to stop) |
| Pivots.BullEntry | app/utils.py:83 | the middle of the buy zone lies between M2 and PP whenever M2 ≤ PP |
| Pivots.BearEntry | app/utils.py:86 | the middle of the sell zone lies between PP and M3 whenever PP ≤ M3 |
| Pivots.TradeLevelsOrdered | app/utils.py:72-88 | for H > L and a close in range: bull stop < entry < M4 < R2 and S2 < M5 < bear entry < bear stop |
| Pivots.ZoneFor | app/utils.py:56-117 | a zone exists for a day exactly when the day has bars |
| Pivots.ZoneForDescribesDay | app/utils.py:60-117 | the zone of day i, when there is one, carries index i and describes that day |
| Pivots.PeriodZone | app/utils.py:60-117 | for a day with bars, the loop body builds exactly the zone of that day |
| Pivots.CalculatePivotZones | app/utils.py:48-119 | the loop over the three period starts computes exactly the specified zones |
| Pivots.PivotZones | app/utils.py:48-119 | the result of `calculate_pivot_zones`: at most three zones, in chronological order |
| Pivots.ZonesIndices | app/utils.py:56-59 | at most n zones for the first n days, with the positions of exactly the non-empty days |
| Pivots.ZonesDescribeDays | app/utils.py:56-117 | every zone describes its own day |
| Pivots.ZonesOrdered | app/utils.py:56-117 | every zone starts at the midnight of its own day and the zones are in chronological order |
| Pivots.ZonesShape | app/utils.py:56-117 | zones of the first n days: at most n, one per non-empty day in order, each describing its own day (index, bounds, bar count, extremes, completion, close, levels, stops only when in progress) |
| Pivots.PivotZonesShape | app/utils.py:48-119 | at most three zones in chronological order, a zone index per non-empty day kept even when an earlier day is skipped, and every zone describes its day |
| Pivots.LastBarZones | app/utils.py:61-93 | with the last bar as reference, the current day always has the last zone, the only one in progress, closing at the last close and carrying both stops; earlier zones are completed with no ratio |
| Pivots.LastBarZonesOrdered | app/utils.py:61-93 | for well-formed bars every zone's close lies in its range, its levels are ordered, and with a real range the bull and bear trade levels are strictly ordered |
| Pivots.DescribedZoneOrdered | app/utils.py:61-93 | with the last bar as reference, a zone that describes its day closes inside its range, so its levels are ordered and, with a real range, its trade levels strictly so |
| Chart.PlanOf | app/utils.py:381-399 | a plan exists iff the last zone is in progress and has the stop of the mode; bullish enters between PP and M2 and targets M4, bearish enters between PP and M3 and targets M5; the ratio is 2.0 |
| Chart.LastBarPlan | app/utils.py:381-399 | for the last bar's zones the plan always exists; its reward is twice its risk in the direction of the mode, and stop, entry and target are strictly ordered when the day has a range |
| Chart.ChartFrom | app/utils.py:145-156 | the chart exists iff all three regressions succeed, and then always carries a 2:1 plan |
| Chart.GenerateChart | app/utils.py:121-399 | with the intended regression the chart exists iff the hourly, four-hour and daily series each have 20 closes |
| Chart.GenerateChartAsWritten | app/utils.py:121-399 | as written the chart also exists when a series has exactly one close; otherwise it equals the intended chart |
| Chart.ChartNeedsTwentyDays | app/utils.py:145-147 | the chart exists iff there are at least 20 daily buckets: the daily regression is the binding one |
| Chart.SingleBarChart | app/utils.py:145-156 | one hourly bar: the intended chart fails, the chart as written scores 5/5/5, 5.0, bullish, with a plan |
| Chart.FlatMarketChart | app/utils.py:145-156 | constant closes: every chart scores exactly 3.0 and is bearish |
| Chart.FlatWindow | app/utils.py:16-22 | a constant series of at least 20 values has a regression with slope 0 |
| Dashboard.Alpha | app/trend_dashboard.py:14 | the smoothing factor 2/(span+1) lies in (0, 1], strictly below 1 for span ≥ 2 |
| Dashboard.Smoothed | app/trend_dashboard.py:14 | the smoothed series has the input's length and starts at the first input |
| Dashboard.Ema | app/trend_dashboard.py:12-14 | the EMA has the length of its input |
| Dashboard.LastEma | app/trend_dashboard.py:36-37 | the last EMA value lies between the smallest and the largest close of the series |
| Dashboard.SmoothedPrefix | app/trend_dashboard.py:14 | each value depends only on the inputs seen so far |
| Dashboard.SmoothedRecurrence | app/trend_dashboard.py:14 | y[t] = α·x[t] + (1 − α)·y[t − 1] at every index |
| Dashboard.SmoothedAtMost | app/trend_dashboard.py:14 | inputs bounded above keep every smoothed value bounded above |
| Dashboard.SmoothedAtLeast | app/trend_dashboard.py:14 | inputs bounded below keep every smoothed value bounded below |
| Dashboard.EmaWithinSeen | app/trend_dashboard.py:12-14 | every EMA value lies within the range of the inputs seen so far |
| Dashboard.EmaConstant | app/trend_dashboard.py:12-14 | a constant input gives a constant EMA |
| Dashboard.EmaBelowNewHigh | app/trend_dashboard.py:12-14 | after a close above all earlier ones the EMA stays strictly below it |
| Dashboard.EmaAboveNewLow | app/trend_dashboard.py:12-14 | after a close below all earlier ones the EMA stays strictly above it |
| Dashboard.TrendEma | app/trend_dashboard.py:25-44 | no direction iff fewer than max(fast, slow) + 10 closes |
| Dashboard.TrendEmaSwap | app/trend_dashboard.py:39-44 | swapping the periods swaps bullish and bearish and keeps neutral |
| Dashboard.TrendEmaSamePeriod | app/trend_dashboard.py:39-44 | equal periods are always neutral |
| Dashboard.TrendEmaFlat | app/trend_dashboard.py:25-44 | a flat series long enough for the guard is neutral |
| Dashboard.PriceVsEma | app/trend_dashboard.py:46-64 | no position iff fewer than period + 10 closes |
| Dashboard.PriceVsEmaExtremes | app/trend_dashboard.py:46-64 | a fresh high is above the EMA, a fresh low below it, a flat series equal to it |
| Dashboard.Agree | app/trend_dashboard.py:73-78 | agreement exists iff both directions are known and equal, and is that direction |
| Dashboard.TrendStrength | app/trend_dashboard.py:66-84 | mid-term iff the first two are known and equal (then it is the first); global iff the last two are (then the second); STRONG iff all three are known and equal |
| Dashboard.AnalyzeAssetTrends | app/trend_dashboard.py:86-162 | None iff the download failed or has fewer than 100 bars; strength is computed on the 4h, 1d and 1w directions; an RSI only from 20 daily buckets; a 4h direction iff 65 four-hour buckets; a price position iff 210 |
| Dashboard.Weeks | app/trend_dashboard.py:119 | a weekly bucket is 168 hours long: an hour one week later is always in the next bucket |
| Dashboard.FlatMarket | app/trend_dashboard.py:86-158 | a flat market: every known direction is neutral, every known position equal, and STRONG iff the 4h, 1d and 1w directions are all known |
| Dashboard.FlatSeries | app/trend_dashboard.py:25-64 | a flat series' direction, when known, is neutral and its position, when known, equal |
| Dashboard.GenerateTrendDashboard | app/trend_dashboard.py:164-175 | the loop keeps exactly the successful analyses in input order |
| Dashboard.Successes | app/trend_dashboard.py:164-175 | the successful analyses in input order, never more than there are assets |
| Dashboard.SuccessesAppend | app/trend_dashboard.py:164-175 | the results of a concatenation are the results of its parts, in order |
| Dashboard.SuccessesSound | app/trend_dashboard.py:164-175 | no more results than assets, each the analysis of some asset, as many exactly when none fails |
| Dashboard.SuccessesComplete | app/trend_dashboard.py:164-175 | every successful analysis appears in the dashboard |

## Left out

- Chart drawing (app/utils.py:158-367): candles, rectangles, labels and colours of the picture have no stated behaviour.
- Market-data download and network I/O: the download is a parameter of `Dashboard.AnalyzeAssetTrends`, None when it raised; `generate_chart` receives its bars.
- Timezone conversion and column flattening: timestamps are whole hours already in local time.
- Weekly buckets: pandas' `'W'` anchoring is represented as 168-hour buckets with a phase parameter (`Dashboard.Weeks`).
- IEEE-754 rounding: prices are reals and the weighted score is exact in tenths.
- The residual standard deviation and the ±2·std bands of `calc_regression`: they need a square root and are used only for drawing.
- RSI (app/trend_dashboard.py:16-23): a function parameter of `Dashboard.AnalyzeAssetTrends` returning the last value or None.
- Exceptions as control flow: a failing regression or analysis is None.
- Console output: the failure message of `analyze_asset_trends` (app/trend_dashboard.py:161) and the progress message of `generate_trend_dashboard` (app/trend_dashboard.py:169) are prints with no effect on the results.
- The regression window is fixed at 20, the default every caller uses. `Trend.Regression` therefore fits 20 points, while `Trend.DenominatorPositive` is stated for any n.
- Chart.GenerateChart, Chart.GenerateChartAsWritten, Chart.ChartFrom: require a non-empty series with positive closes. A zero close would make numpy divide by zero into inf or NaN, which reals do not model. Nothing else is assumed about the bars; only the ordering of the plan's levels (Chart.LastBarPlan, Pivots.LastBarZonesOrdered) also needs 0 < low ≤ close ≤ high on every bar.
- Pivots.ZoneFor, Pivots.CalculatePivotZones: `current_idx` must index the series; Python's negative indices are not modelled (the chart passes the last index).
- Dashboard.TrendEma, Dashboard.PriceVsEma: the empty-EMA checks (app/trend_dashboard.py:33-34, 53-54) are unreachable after the length guards and are not modelled separately.
- Dashboard.TrendStrength: `strength` is a boolean (STRONG or None).
- The entry points in app/main.py (including its 50-bar minimum before `generate_chart`), the static UI script, run_server.py and test_import.py are not part of this model.

## Findings

| source | as written | input that shows it | evidently intended | confidence | as-written member | corrected member |
|---|---|---|---|---|---|---|
| app/utils.py:16-22 | `calc_regression` uses the window length for `n` and `np.arange(window)` for x, so a series of one close is broadcast against all 20 abscissae: the slope is 19·p/70 instead of failing like 2 to 19 closes do | `generate_chart` on a single hourly bar: every series has one close, pct_1h ≈ 27, every timeframe VERY BULLISH, score 5.0, bullish with a buy plan | no fit from fewer than 20 closes, as for 2 to 19 closes | medium, not executed; app/main.py requires 50 hourly bars first, so the web route does not reach it | Trend.RegressionAsWritten, Chart.GenerateChartAsWritten, Chart.SingleBarChart | Trend.Regression, Chart.GenerateChart |
