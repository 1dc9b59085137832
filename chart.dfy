/** The numbers `generate_chart` (app/utils.py:121-399) computes besides the
    picture: the three regression trends of the hourly, four-hour and daily
    closes, their weighted score, the pivot zones of the last bar's day and
    the trade plan of the summary payload. */
module Chart {
  import opened Wrappers
  import opened Bars
  import opened Resample
  import opened Trend
  import opened Pivots

  /** The trade plan of the summary: stop, middle of the entry zone, target
      and the announced reward-to-risk ratio. */
  datatype TradePlan = TradePlan(stopLoss: real, entryMid: real, target: real, rrRatio: real)

  /** `chart_data`: the plan keys are present only when a plan exists. */
  datatype ChartData = ChartData(name: string, ticker: string, score: WeightedScore,
                                 formulaName: string, plan: Option<TradePlan>)

  /** The trade plan of the summary payload. There is one only when the last
      zone is the day in progress and carries the stop of the current mode:
      bullish buys between PP and M2 and targets M4, bearish sells between
      PP and M3 and targets M5. */
  function PlanOf(mode: Mode, zones: seq<Zone>): (p: Option<TradePlan>)
    ensures p.Some? <==>
      && |zones| > 0 && zones[|zones| - 1].future
      && (mode == BullishMode ==> zones[|zones| - 1].stopLossBull.Some?)
      && (mode == BearishMode ==> zones[|zones| - 1].stopLossBear.Some?)
    ensures p.Some? ==> p.value.rrRatio == 2.0
    ensures p.Some? && mode == BullishMode ==>
      var lv := zones[|zones| - 1].levels;
      p.value.entryMid == BullEntry(lv) && p.value.target == lv.m4
        && p.value.stopLoss == zones[|zones| - 1].stopLossBull.value
    ensures p.Some? && mode == BearishMode ==>
      var lv := zones[|zones| - 1].levels;
      p.value.entryMid == BearEntry(lv) && p.value.target == lv.m5
        && p.value.stopLoss == zones[|zones| - 1].stopLossBear.value
  {
    if |zones| == 0 || !zones[|zones| - 1].future then None
    else
      var z := zones[|zones| - 1];
      if mode == BullishMode && z.stopLossBull.Some? then
        Some(TradePlan(z.stopLossBull.value, BullEntry(z.levels), z.levels.m4, 2.0))
      else if mode == BearishMode && z.stopLossBear.Some? then
        Some(TradePlan(z.stopLossBear.value, BearEntry(z.levels), z.levels.m5, 2.0))
      else
        assert mode == BullishMode ==> z.stopLossBull.None?;
        assert mode == BearishMode ==> z.stopLossBear.None?;
        None
  }

  /** With the last bar as reference the plan always exists, its reward is
      twice its risk in the direction of the mode, and on a day with a real
      range the stop, the entry and the target are strictly ordered. */
  lemma LastBarPlan(bars: seq<Bar>, mode: Mode)
    requires WellFormed(bars) && |bars| > 0
    ensures var p := PlanOf(mode, PivotZones(bars, |bars| - 1));
      p.Some? && p.value.rrRatio == 2.0
    ensures var p := PlanOf(mode, PivotZones(bars, |bars| - 1)).value;
      mode == BullishMode ==> p.target - p.entryMid == 2.0 * (p.entryMid - p.stopLoss)
    ensures var p := PlanOf(mode, PivotZones(bars, |bars| - 1)).value;
      mode == BearishMode ==> p.entryMid - p.target == 2.0 * (p.stopLoss - p.entryMid)
    ensures var zones := PivotZones(bars, |bars| - 1);
      var p := PlanOf(mode, zones).value;
      zones[|zones| - 1].low < zones[|zones| - 1].high && mode == BullishMode ==>
        p.stopLoss < p.entryMid < p.target
    ensures var zones := PivotZones(bars, |bars| - 1);
      var p := PlanOf(mode, zones).value;
      zones[|zones| - 1].low < zones[|zones| - 1].high && mode == BearishMode ==>
        p.target < p.entryMid < p.stopLoss
  {
    var zones := PivotZones(bars, |bars| - 1);
    LastBarZones(bars);
    LastBarZonesOrdered(bars, |zones| - 1);
  }

  /** The hourly close series and its last close. */
  function LastClose(series: seq<Bar>): real
    requires |series| > 0
  {
    series[|series| - 1].close
  }

  /** The chart summary once the three regressions have run: None when one
      of them failed (the exception that aborts `generate_chart`), otherwise
      the weighted score of the per-hour percentage trends and the plan of
      the last bar's pivot zones, which always exists. */
  function ChartFrom(bars: seq<Bar>, name: string, ticker: string, formulaName: string,
                     fit1h: Option<Fit>, fit4h: Option<Fit>, fit1d: Option<Fit>): (r: Option<ChartData>)
    requires |bars| > 0 && PositiveCloses(bars)
    ensures r.Some? <==> fit1h.Some? && fit4h.Some? && fit1d.Some?
    ensures r.Some? ==> r.value.plan.Some? && r.value.plan.value.rrRatio == 2.0
  {
    if fit1h.None? || fit4h.None? || fit1d.None? then None
    else
      var h4, d1 := Resampled(bars, FOUR_HOURS), Resampled(bars, DAYS);
      ResampledPositiveCloses(bars, FOUR_HOURS);
      ResampledPositiveCloses(bars, DAYS);
      var pct1h := NormalisedPct(fit1h.value.slope, LastClose(bars), 1);
      var pct4h := NormalisedPct(fit4h.value.slope, LastClose(h4), 4);
      var pct1d := NormalisedPct(fit1d.value.slope, LastClose(d1), 24);
      var score := CalculateWeightedScore(pct1d, pct4h, pct1h, formulaName);
      LastBarZones(bars);
      Some(ChartData(name, ticker, score, formulaName, PlanOf(score.mode, PivotZones(bars, |bars| - 1))))
  }

  /** `generate_chart` with the intended regression: it fails unless each of
      the hourly, four-hour and daily series has a full window of closes. */
  function GenerateChart(bars: seq<Bar>, name: string, ticker: string, formulaName: string): (r: Option<ChartData>)
    requires |bars| > 0 && PositiveCloses(bars)
    ensures r.Some? <==>
      && |bars| >= WINDOW
      && |Resampled(bars, FOUR_HOURS)| >= WINDOW
      && |Resampled(bars, DAYS)| >= WINDOW
    ensures r.Some? ==> r.value.plan.Some? && r.value.plan.value.rrRatio == 2.0
  {
    ChartFrom(bars, name, ticker, formulaName,
      Regression(Closes(bars)),
      Regression(Closes(Resampled(bars, FOUR_HOURS))),
      Regression(Closes(Resampled(bars, DAYS))))
  }

  /** `generate_chart` as written: a series of exactly one close also gets
      through the regression; otherwise it agrees with `GenerateChart`. */
  function GenerateChartAsWritten(bars: seq<Bar>, name: string, ticker: string, formulaName: string): (r: Option<ChartData>)
    requires |bars| > 0 && PositiveCloses(bars)
    ensures r.Some? <==>
      && (|bars| >= WINDOW || |bars| == 1)
      && (|Resampled(bars, FOUR_HOURS)| >= WINDOW || |Resampled(bars, FOUR_HOURS)| == 1)
      && (|Resampled(bars, DAYS)| >= WINDOW || |Resampled(bars, DAYS)| == 1)
    ensures |bars| != 1 && |Resampled(bars, FOUR_HOURS)| != 1 && |Resampled(bars, DAYS)| != 1 ==>
      r == GenerateChart(bars, name, ticker, formulaName)
  {
    ChartFrom(bars, name, ticker, formulaName,
      RegressionAsWritten(Closes(bars)),
      RegressionAsWritten(Closes(Resampled(bars, FOUR_HOURS))),
      RegressionAsWritten(Closes(Resampled(bars, DAYS))))
  }

  /** The daily regression is the binding one: the chart exists exactly
      when there are twenty days with bars. */
  lemma ChartNeedsTwentyDays(bars: seq<Bar>, name: string, ticker: string, formulaName: string)
    requires |bars| > 0 && PositiveCloses(bars)
    ensures GenerateChart(bars, name, ticker, formulaName).Some? <==> |Resampled(bars, DAYS)| >= WINDOW
  {
    ResampledLast(bars, FOUR_HOURS);
    FewerDaysThanFourHours(bars);
  }

  /** A single hourly bar: the intended chart fails, the chart as written
      broadcasts the one close into all three regressions and reports a very
      bullish market (score 5.0) with a buy plan. */
  lemma SingleBarChart(b: Bar, name: string, ticker: string, formulaName: string)
    requires b.close > 0.0
    ensures GenerateChart([b], name, ticker, formulaName).None?
    ensures var r := GenerateChartAsWritten([b], name, ticker, formulaName);
      && r.Some?
      && r.value.score.score1h == 5 && r.value.score.score4h == 5 && r.value.score.score1d == 5
      && r.value.score.Value() == 5.0 && r.value.score.mode == BullishMode
      && r.value.plan.Some?
  {
    var c := b.close;
    var bars := [b];
    assert Resampled(bars, FOUR_HOURS) == [Start(b, Key(FOUR_HOURS, b.ts))];
    assert Resampled(bars, DAYS) == [Start(b, Key(DAYS, b.ts))];
    assert Closes(bars) == [c];
    assert Closes(Resampled(bars, FOUR_HOURS)) == [c];
    assert Closes(Resampled(bars, DAYS)) == [c];
    RegressionBroadcastSlope(c);
    var slope := 19.0 * c / 70.0;
    assert slope / c == 19.0 / 70.0;
    assert NormalisedPct(slope, c, 1) > 0.01;
    assert NormalisedPct(slope, c, 4) > 0.01;
    assert NormalisedPct(slope, c, 24) > 0.01;
  }

  /** A market whose every close is the same has flat fits in all three
      series, so all three trends are NEUTRAL, the score is exactly 3.0 and
      the mode bearish. */
  lemma FlatMarketChart(bars: seq<Bar>, name: string, ticker: string, formulaName: string, c: real)
    requires |bars| > 0 && PositiveCloses(bars)
    requires forall t :: 0 <= t < |bars| ==> bars[t].close == c
    ensures var r := GenerateChart(bars, name, ticker, formulaName);
      r.Some? ==> r.value.score.Value() == 3.0 && r.value.score.mode == BearishMode
  {
    var h4, d1 := Resampled(bars, FOUR_HOURS), Resampled(bars, DAYS);
    ResampledConstantClose(bars, FOUR_HOURS, c);
    ResampledConstantClose(bars, DAYS, c);
    if |bars| >= WINDOW && |h4| >= WINDOW && |d1| >= WINDOW {
      FlatWindow(Closes(bars), c);
      FlatWindow(Closes(h4), c);
      FlatWindow(Closes(d1), c);
    }
  }

  /** The trailing window of a constant series is the flat line through the
      constant, so its fit has slope zero. */
  lemma FlatWindow(series: seq<real>, c: real)
    requires |series| >= WINDOW
    requires forall t :: 0 <= t < |series| ==> series[t] == c
    ensures Regression(series).Some? && Regression(series).value.slope == 0.0
  {
    var w := series[|series| - WINDOW..];
    forall i | 0 <= i < WINDOW
      ensures w[i] == Line(c, 0.0, WINDOW)[i]
    {
      LineAt(c, 0.0, WINDOW, i);
    }
    assert w == Line(c, 0.0, WINDOW);
    ConstantWindowIsFlat(c);
  }
}
