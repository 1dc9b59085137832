/** The EMA trend dashboard (app/trend_dashboard.py): 21/55 EMA crossover
    direction per timeframe, agreement between timeframes, price against the
    200-period EMA, and the collection of per-asset results. */
module Dashboard {
  import opened Wrappers
  import opened Bars
  import opened Resample

  // ---------------------------------------------------------------------
  // Exponential moving average (calculate_ema)
  // ---------------------------------------------------------------------

  /** The smoothing factor α = 2/(span+1) of `ewm(span=...)`. */
  function Alpha(span: nat): (a: real)
    requires span >= 1
    ensures 0.0 < a <= 1.0
    ensures span >= 2 ==> a < 1.0
  {
    2.0 / (span as real + 1.0)
  }

  /** One smoothing step: move a fraction a of the way from the previous
      value p to the new input x. */
  function Step(a: real, x: real, p: real): real
  {
    a * x + (1.0 - a) * p
  }

  /** Exponential smoothing with factor a, pandas' `adjust=False` form: the
      first value is the first input, each later value moves a fraction a of
      the way from the previous value to the new input. */
  function Smoothed(xs: seq<real>, a: real): (ys: seq<real>)
    requires 0.0 < a <= 1.0
    ensures |ys| == |xs|
    ensures |xs| > 0 ==> ys[0] == xs[0]
    decreases |xs|
  {
    if |xs| <= 1 then xs
    else
      var prev := Smoothed(xs[..|xs| - 1], a);
      prev + [Step(a, xs[|xs| - 1], prev[|prev| - 1])]
  }

  /** `calculate_ema(series, span)`: `series.ewm(span=span, adjust=False).mean()`. */
  function Ema(xs: seq<real>, span: nat): (ys: seq<real>)
    requires span >= 1
    ensures |ys| == |xs|
  {
    Smoothed(xs, Alpha(span))
  }

  /** `ema.iloc[-1]`. */
  function LastEma(xs: seq<real>, span: nat): (e: real)
    requires span >= 1 && |xs| > 0
    ensures Trough(xs) <= e <= Peak(xs)
  {
    EmaWithinSeen(xs, span, |xs| - 1, Trough(xs), Peak(xs));
    Ema(xs, span)[|xs| - 1]
  }

  /** Smoothing a prefix gives the prefix of the smoothing: a value depends
      only on the inputs seen so far. */
  lemma {:induction false} SmoothedPrefix(xs: seq<real>, a: real, n: nat)
    requires 0.0 < a <= 1.0 && n <= |xs|
    ensures Smoothed(xs[..n], a) == Smoothed(xs, a)[..n]
    decreases |xs|
  {
    if n < |xs| {
      var init := xs[..|xs| - 1];
      assert init[..n] == xs[..n];
      SmoothedPrefix(init, a, n);
      if |xs| > 1 {
        assert Smoothed(xs, a)[..|xs| - 1] == Smoothed(init, a);
      }
    } else {
      assert xs[..n] == xs;
    }
  }

  lemma SmoothedLastStep(xs: seq<real>, a: real)
    requires 0.0 < a <= 1.0 && |xs| >= 2
    ensures Smoothed(xs, a)[|xs| - 1] == Step(a, xs[|xs| - 1], Smoothed(xs, a)[|xs| - 2])
  {
    var prev := Smoothed(xs[..|xs| - 1], a);
    assert Smoothed(xs, a)[|xs| - 2] == prev[|xs| - 2];
  }

  /** The recurrence in pandas' documented form, index by index:
      y[0] = x[0] and y[t] = a·x[t] + (1−a)·y[t−1]. */
  lemma SmoothedRecurrence(xs: seq<real>, a: real, t: nat)
    requires 0.0 < a <= 1.0 && 0 < t < |xs|
    ensures Smoothed(xs, a)[t] == a * xs[t] + (1.0 - a) * Smoothed(xs, a)[t - 1]
  {
    var p := xs[..t + 1];
    SmoothedLastStep(p, a);
    SmoothedPrefix(xs, a, t + 1);
    assert Smoothed(p, a)[t] == Smoothed(xs, a)[t];
    assert Smoothed(p, a)[t - 1] == Smoothed(xs, a)[t - 1];
  }

  /** A smoothing step lies between the previous value p and the new input
      x, strictly inside when 0 < a < 1. */
  lemma Interpolate(a: real, x: real, p: real)
    requires 0.0 < a <= 1.0
    ensures p <= x ==> p <= Step(a, x, p) <= x
    ensures x <= p ==> x <= Step(a, x, p) <= p
    ensures a < 1.0 && p < x ==> Step(a, x, p) < x
    ensures a < 1.0 && x < p ==> x < Step(a, x, p)
  {
    var d := x - p;
    var e := a * x + (1.0 - a) * p;
    assert e == p + a * d;
    assert x - e == (1.0 - a) * d;
    if d >= 0.0 {
      assert a * d >= 0.0;
      assert (1.0 - a) * d >= 0.0;
    } else {
      assert a * d <= 0.0;
      assert (1.0 - a) * d <= 0.0;
    }
    if a < 1.0 && d > 0.0 {
      assert (1.0 - a) * d > 0.0;
      assert e < x;
    } else if a < 1.0 && d < 0.0 {
      assert (1.0 - a) * d < 0.0;
      assert x < e;
    }
  }

  /** Inputs bounded above keep the smoothed values bounded above. */
  lemma {:induction false} SmoothedAtMost(xs: seq<real>, a: real, hi: real)
    requires 0.0 < a <= 1.0
    requires forall i :: 0 <= i < |xs| ==> xs[i] <= hi
    ensures forall i :: 0 <= i < |xs| ==> Smoothed(xs, a)[i] <= hi
    decreases |xs|
  {
    if |xs| > 1 {
      var init := xs[..|xs| - 1];
      SmoothedAtMost(init, a, hi);
      var prev := Smoothed(init, a);
      var x, p := xs[|xs| - 1], prev[|prev| - 1];
      var e := Step(a, x, p);
      assert Smoothed(xs, a) == prev + [e];
      Interpolate(a, x, p);
      assert e <= hi;
      forall i | 0 <= i < |xs|
        ensures Smoothed(xs, a)[i] <= hi
      {
        if i < |prev| {
          assert Smoothed(xs, a)[i] == prev[i];
        }
      }
    }
  }

  /** Inputs bounded below keep the smoothed values bounded below. */
  lemma {:induction false} SmoothedAtLeast(xs: seq<real>, a: real, lo: real)
    requires 0.0 < a <= 1.0
    requires forall i :: 0 <= i < |xs| ==> lo <= xs[i]
    ensures forall i :: 0 <= i < |xs| ==> lo <= Smoothed(xs, a)[i]
    decreases |xs|
  {
    if |xs| > 1 {
      var init := xs[..|xs| - 1];
      SmoothedAtLeast(init, a, lo);
      var prev := Smoothed(init, a);
      var x, p := xs[|xs| - 1], prev[|prev| - 1];
      var e := Step(a, x, p);
      assert Smoothed(xs, a) == prev + [e];
      Interpolate(a, x, p);
      assert lo <= e;
      forall i | 0 <= i < |xs|
        ensures lo <= Smoothed(xs, a)[i]
      {
        if i < |prev| {
          assert Smoothed(xs, a)[i] == prev[i];
        }
      }
    }
  }

  /** Every EMA value lies within the range of the inputs seen so far. */
  lemma EmaWithinSeen(xs: seq<real>, span: nat, t: nat, lo: real, hi: real)
    requires span >= 1 && t < |xs|
    requires forall i :: 0 <= i <= t ==> lo <= xs[i] <= hi
    ensures lo <= Ema(xs, span)[t] <= hi
  {
    var a := Alpha(span);
    var p := xs[..t + 1];
    SmoothedPrefix(xs, a, t + 1);
    SmoothedAtMost(p, a, hi);
    SmoothedAtLeast(p, a, lo);
    assert Smoothed(p, a)[t] == Smoothed(xs, a)[t];
  }

  /** A constant input gives a constant EMA. */
  lemma EmaConstant(xs: seq<real>, span: nat, c: real)
    requires span >= 1
    requires forall i :: 0 <= i < |xs| ==> xs[i] == c
    ensures forall i :: 0 <= i < |xs| ==> Ema(xs, span)[i] == c
  {
    SmoothedAtMost(xs, Alpha(span), c);
    SmoothedAtLeast(xs, Alpha(span), c);
  }

  /** A close above every earlier close pulls the EMA up but, for a span of
      two or more, not all the way: the EMA stays strictly below it. */
  lemma EmaBelowNewHigh(xs: seq<real>, span: nat)
    requires span >= 2 && |xs| >= 2
    requires forall i :: 0 <= i < |xs| - 1 ==> xs[i] < xs[|xs| - 1]
    ensures LastEma(xs, span) < xs[|xs| - 1]
  {
    var n, a := |xs|, Alpha(span);
    var init := xs[..n - 1];
    SmoothedAtMost(init, a, Peak(init));
    SmoothedPrefix(xs, a, n - 1);
    SmoothedLastStep(xs, a);
    Interpolate(a, xs[n - 1], Smoothed(init, a)[n - 2]);
  }

  /** A close below every earlier close: the EMA stays strictly above it. */
  lemma EmaAboveNewLow(xs: seq<real>, span: nat)
    requires span >= 2 && |xs| >= 2
    requires forall i :: 0 <= i < |xs| - 1 ==> xs[|xs| - 1] < xs[i]
    ensures xs[|xs| - 1] < LastEma(xs, span)
  {
    var n, a := |xs|, Alpha(span);
    var init := xs[..n - 1];
    SmoothedAtLeast(init, a, Trough(init));
    SmoothedPrefix(xs, a, n - 1);
    SmoothedLastStep(xs, a);
    Interpolate(a, xs[n - 1], Smoothed(init, a)[n - 2]);
  }

  /** The largest value of a non-empty sequence of closes (Bars.MaxHigh is
      the same fold over the highs of bars, which this module never sees:
      it works on the close column alone). */
  function Peak(xs: seq<real>): (m: real)
    requires |xs| > 0
    ensures forall i :: 0 <= i < |xs| ==> xs[i] <= m
    ensures exists i :: 0 <= i < |xs| && xs[i] == m
    decreases |xs|
  {
    if |xs| == 1 then xs[0]
    else
      var m := Peak(xs[..|xs| - 1]);
      assert forall i :: 0 <= i < |xs| - 1 ==> xs[..|xs| - 1][i] == xs[i];
      if xs[|xs| - 1] >= m then xs[|xs| - 1] else m
  }

  /** The smallest value of a non-empty sequence of closes (the close
      column's counterpart of Bars.MinLow). */
  function Trough(xs: seq<real>): (m: real)
    requires |xs| > 0
    ensures forall i :: 0 <= i < |xs| ==> m <= xs[i]
    ensures exists i :: 0 <= i < |xs| && xs[i] == m
    decreases |xs|
  {
    if |xs| == 1 then xs[0]
    else
      var m := Trough(xs[..|xs| - 1]);
      assert forall i :: 0 <= i < |xs| - 1 ==> xs[..|xs| - 1][i] == xs[i];
      if xs[|xs| - 1] <= m then xs[|xs| - 1] else m
  }

  // ---------------------------------------------------------------------
  // Direction and price position (get_trend_ema, get_price_vs_ema)
  // ---------------------------------------------------------------------

  /** The strings "bullish", "bearish" and "neutral". */
  datatype Direction = Bullish | Bearish | Neutral

  function MaxNat(a: nat, b: nat): nat { if a >= b then a else b }

  /** `get_trend_ema`: None below max(fast, slow) + 10 closes; otherwise the
      comparison of the final fast and slow EMAs. (Its empty-EMA check can
      never fire after the length guard.) */
  function TrendEma(closes: seq<real>, fast: nat, slow: nat): (r: Option<Direction>)
    requires fast >= 1 && slow >= 1
    ensures r.None? <==> |closes| < MaxNat(fast, slow) + 10
  {
    if |closes| < MaxNat(fast, slow) + 10 then None
    else
      var lastFast, lastSlow := LastEma(closes, fast), LastEma(closes, slow);
      if lastFast > lastSlow then Some(Bullish)
      else if lastFast < lastSlow then Some(Bearish)
      else Some(Neutral)
  }

  /** The crossover is antisymmetric: swapping the two periods swaps
      bullish and bearish and keeps neutral. */
  lemma TrendEmaSwap(closes: seq<real>, fast: nat, slow: nat)
    requires fast >= 1 && slow >= 1
    ensures TrendEma(closes, fast, slow) == Some(Bullish) <==> TrendEma(closes, slow, fast) == Some(Bearish)
    ensures TrendEma(closes, fast, slow) == Some(Neutral) <==> TrendEma(closes, slow, fast) == Some(Neutral)
  {
  }

  /** Equal periods never disagree with themselves. */
  lemma TrendEmaSamePeriod(closes: seq<real>, span: nat)
    requires span >= 1 && |closes| >= span + 10
    ensures TrendEma(closes, span, span) == Some(Neutral)
  {
  }

  /** A flat market, long enough for the guard, is neutral for any periods. */
  lemma TrendEmaFlat(closes: seq<real>, fast: nat, slow: nat, c: real)
    requires fast >= 1 && slow >= 1
    requires |closes| >= MaxNat(fast, slow) + 10
    requires forall i :: 0 <= i < |closes| ==> closes[i] == c
    ensures TrendEma(closes, fast, slow) == Some(Neutral)
  {
    EmaConstant(closes, fast, c);
    EmaConstant(closes, slow, c);
  }

  /** The strings "above", "below" and "equal". */
  datatype Position = Above | Below | Equal

  /** `get_price_vs_ema`: None below period + 10 closes; otherwise the last
      close against the last EMA. */
  function PriceVsEma(closes: seq<real>, period: nat): (r: Option<Position>)
    requires period >= 1
    ensures r.None? <==> |closes| < period + 10
  {
    if |closes| < period + 10 then None
    else
      var lastPrice, lastEma := closes[|closes| - 1], LastEma(closes, period);
      if lastPrice > lastEma then Some(Above)
      else if lastPrice < lastEma then Some(Below)
      else Some(Equal)
  }

  /** A fresh high is above the EMA, a fresh low below it, and a flat market
      sits on it. */
  lemma PriceVsEmaExtremes(closes: seq<real>, period: nat, c: real)
    requires period >= 2 && |closes| >= period + 10
    ensures (forall i :: 0 <= i < |closes| - 1 ==> closes[i] < closes[|closes| - 1])
      ==> PriceVsEma(closes, period) == Some(Above)
    ensures (forall i :: 0 <= i < |closes| - 1 ==> closes[|closes| - 1] < closes[i])
      ==> PriceVsEma(closes, period) == Some(Below)
    ensures (forall i :: 0 <= i < |closes| ==> closes[i] == c)
      ==> PriceVsEma(closes, period) == Some(Equal)
  {
    if forall i :: 0 <= i < |closes| - 1 ==> closes[i] < closes[|closes| - 1] {
      EmaBelowNewHigh(closes, period);
    }
    if forall i :: 0 <= i < |closes| - 1 ==> closes[|closes| - 1] < closes[i] {
      EmaAboveNewLow(closes, period);
    }
    if forall i :: 0 <= i < |closes| ==> closes[i] == c {
      EmaConstant(closes, period, c);
    }
  }

  // ---------------------------------------------------------------------
  // Agreement between timeframes (calculate_trend_strength)
  // ---------------------------------------------------------------------

  /** `mid_term`, `global_trend` and whether `strength` is "STRONG". */
  datatype Strength = Strength(midTerm: Option<Direction>, globalTrend: Option<Direction>, strong: bool)

  /** Two known directions that are equal agree on that direction. */
  function Agree(a: Option<Direction>, b: Option<Direction>): (r: Option<Direction>)
    ensures r.Some? <==> a.Some? && b.Some? && a.value == b.value
    ensures r.Some? ==> r == a && r == b
  {
    if a.Some? && b.Some? && a == b then a else None
  }

  /** `calculate_trend_strength(first, second, third)`: mid-term agreement
      of the first two, global agreement of the last two, and STRONG exactly
      when all three are known and equal (neutral counts as a value). */
  function TrendStrength(first: Option<Direction>, second: Option<Direction>, third: Option<Direction>): (r: Strength)
    ensures r.midTerm.Some? <==> first.Some? && first == second
    ensures r.globalTrend.Some? <==> second.Some? && second == third
    ensures r.midTerm.Some? ==> r.midTerm == first
    ensures r.globalTrend.Some? ==> r.globalTrend == second
    ensures r.strong <==> first.Some? && first == second && second == third
  {
    var midTerm := Agree(first, second);
    var globalTrend := Agree(second, third);
    Strength(midTerm, globalTrend, Agree(midTerm, globalTrend).Some?)
  }

  // ---------------------------------------------------------------------
  // One asset (analyze_asset_trends)
  // ---------------------------------------------------------------------

  const FAST: nat := 21
  const SLOW: nat := 55
  const LONG: nat := 200
  const MIN_HOURLY_BARS: nat := 100
  const MIN_DAILY_FOR_RSI: nat := 20

  /** Weekly buckets: 168 hours from an anchor weekday; the phase places
      the week boundary on the hour grid. */
  function Weeks(phase: int): (w: Bucketing)
    ensures forall t :: Key(w, t + 168) == Key(w, t) + 1
  {
    Bucketing(168, phase)
  }

  datatype AssetTrends = AssetTrends(
    name: string, ticker: string,
    trend1h: Option<Direction>, trend4h: Option<Direction>,
    trend1d: Option<Direction>, trend1w: Option<Direction>,
    strength: Strength, rsi14d: Option<real>, priceVs200Ema4h: Option<Position>)

  /** `analyze_asset_trends`. The download is a parameter (None when it
      raised); `rsi` stands for the last 14-day RSI value, None when the RSI
      series has no value. None for a failed download or fewer than 100
      hourly bars; the RSI is only asked for from 20 daily buckets on. The
      agreement is computed on the 4-hour, daily and weekly directions. */
  function AnalyzeAssetTrends(name: string, ticker: string, download: Option<seq<Bar>>,
                              weekPhase: int, rsi: seq<real> -> Option<real>): (r: Option<AssetTrends>)
    ensures r.None? <==> download.None? || |download.value| < MIN_HOURLY_BARS
    ensures r.Some? ==>
      r.value.strength == TrendStrength(r.value.trend4h, r.value.trend1d, r.value.trend1w)
    ensures r.Some? && r.value.rsi14d.Some? ==> |Resampled(download.value, DAYS)| >= MIN_DAILY_FOR_RSI
    ensures r.Some? ==> (r.value.trend4h.Some? <==> |Resampled(download.value, FOUR_HOURS)| >= SLOW + 10)
    ensures r.Some? ==> (r.value.priceVs200Ema4h.Some? <==> |Resampled(download.value, FOUR_HOURS)| >= LONG + 10)
  {
    match download
    case None => None
    case Some(hourly) =>
      if |hourly| < MIN_HOURLY_BARS then None
      else
        var h4 := Resampled(hourly, FOUR_HOURS);
        var d1 := Resampled(hourly, DAYS);
        var w1 := Resampled(hourly, Weeks(weekPhase));
        var t1h := TrendEma(Closes(hourly), FAST, SLOW);
        var t4h := TrendEma(Closes(h4), FAST, SLOW);
        var t1d := TrendEma(Closes(d1), FAST, SLOW);
        var t1w := TrendEma(Closes(w1), FAST, SLOW);
        var rsi14d := if |d1| >= MIN_DAILY_FOR_RSI then rsi(Closes(d1)) else None;
        Some(AssetTrends(name, ticker, t1h, t4h, t1d, t1w, TrendStrength(t4h, t1d, t1w),
          rsi14d, PriceVsEma(Closes(h4), LONG)))
  }

  /** In a flat market every known direction is neutral, every known price
      position is equal, and the trend is STRONG exactly when the 4-hour,
      daily and weekly series are all long enough to have a direction. */
  lemma FlatMarket(name: string, ticker: string, hourly: seq<Bar>, weekPhase: int,
                   rsi: seq<real> -> Option<real>, c: real)
    requires |hourly| >= MIN_HOURLY_BARS
    requires forall t :: 0 <= t < |hourly| ==> hourly[t].close == c
    ensures var r := AnalyzeAssetTrends(name, ticker, Some(hourly), weekPhase, rsi).value;
      && (r.trend1h.Some? ==> r.trend1h == Some(Neutral))
      && (r.trend4h.Some? ==> r.trend4h == Some(Neutral))
      && (r.trend1d.Some? ==> r.trend1d == Some(Neutral))
      && (r.trend1w.Some? ==> r.trend1w == Some(Neutral))
      && (r.priceVs200Ema4h.Some? ==> r.priceVs200Ema4h == Some(Equal))
      && (r.strength.strong <==> r.trend4h.Some? && r.trend1d.Some? && r.trend1w.Some?)
  {
    FlatSeries(hourly, c);
    FlatSeries(Resampled(hourly, FOUR_HOURS), c) by {
      ResampledConstantClose(hourly, FOUR_HOURS, c);
    }
    FlatSeries(Resampled(hourly, DAYS), c) by {
      ResampledConstantClose(hourly, DAYS, c);
    }
    FlatSeries(Resampled(hourly, Weeks(weekPhase)), c) by {
      ResampledConstantClose(hourly, Weeks(weekPhase), c);
    }
  }

  /** The directions and price position of one flat series. */
  lemma FlatSeries(bars: seq<Bar>, c: real)
    requires forall t :: 0 <= t < |bars| ==> bars[t].close == c
    ensures TrendEma(Closes(bars), FAST, SLOW).Some? ==> TrendEma(Closes(bars), FAST, SLOW) == Some(Neutral)
    ensures PriceVsEma(Closes(bars), LONG).Some? ==> PriceVsEma(Closes(bars), LONG) == Some(Equal)
  {
    var closes := Closes(bars);
    if |closes| >= MaxNat(FAST, SLOW) + 10 {
      TrendEmaFlat(closes, FAST, SLOW, c);
    }
    if |closes| >= LONG + 10 {
      PriceVsEmaExtremes(closes, LONG, c);
    }
  }

  // ---------------------------------------------------------------------
  // The dashboard (generate_trend_dashboard)
  // ---------------------------------------------------------------------

  /** The successful analyses, in input order. */
  function Successes<A, R>(assets: seq<A>, analyze: A -> Option<R>): (r: seq<R>)
    ensures |r| <= |assets|
    decreases |assets|
  {
    if |assets| == 0 then []
    else
      var prev := Successes(assets[..|assets| - 1], analyze);
      match analyze(assets[|assets| - 1])
      case Some(r) => prev + [r]
      case None => prev
  }

  /** `generate_trend_dashboard`: analyse each asset in turn and keep the
      results that are not None. */
  method GenerateTrendDashboard<A, R>(assets: seq<A>, analyze: A -> Option<R>) returns (dashboard: seq<R>)
    ensures dashboard == Successes(assets, analyze)
  {
    dashboard := [];
    for i := 0 to |assets|
      invariant dashboard == Successes(assets[..i], analyze)
    {
      assert assets[..i + 1][..i] == assets[..i];
      var trendData := analyze(assets[i]);
      if trendData.Some? {
        dashboard := dashboard + [trendData.value];
      }
    }
    assert assets[..|assets|] == assets;
  }

  /** Collecting a concatenation collects each part in turn: results keep
      the order of their assets. */
  lemma {:induction false} SuccessesAppend<A, R>(xs: seq<A>, ys: seq<A>, analyze: A -> Option<R>)
    ensures Successes(xs + ys, analyze) == Successes(xs, analyze) + Successes(ys, analyze)
    decreases |ys|
  {
    if |ys| > 0 {
      var ys' := ys[..|ys| - 1];
      assert (xs + ys)[..|xs + ys| - 1] == xs + ys';
      SuccessesAppend(xs, ys', analyze);
    } else {
      assert xs + ys == xs;
    }
  }

  /** Each result is the analysis of one of the assets; there are never more
      results than assets, and as many exactly when no analysis fails. */
  lemma {:induction false} SuccessesSound<A, R>(assets: seq<A>, analyze: A -> Option<R>)
    ensures |Successes(assets, analyze)| <= |assets|
    ensures forall k :: 0 <= k < |Successes(assets, analyze)| ==>
      exists i :: 0 <= i < |assets| && analyze(assets[i]) == Some(Successes(assets, analyze)[k])
    ensures |Successes(assets, analyze)| == |assets| <==> forall i :: 0 <= i < |assets| ==> analyze(assets[i]).Some?
    decreases |assets|
  {
    if |assets| > 0 {
      var init := assets[..|assets| - 1];
      SuccessesSound(init, analyze);
      var prev := Successes(init, analyze);
      var out := Successes(assets, analyze);
      forall k | 0 <= k < |out|
        ensures exists i :: 0 <= i < |assets| && analyze(assets[i]) == Some(out[k])
      {
        if k < |prev| {
          assert out[k] == prev[k];
          var i :| 0 <= i < |init| && analyze(init[i]) == Some(prev[k]);
          assert assets[i] == init[i];
        } else {
          assert analyze(assets[|assets| - 1]) == Some(out[k]);
        }
      }
      if forall i :: 0 <= i < |assets| ==> analyze(assets[i]).Some? {
        assert forall i :: 0 <= i < |init| ==> analyze(init[i]).Some? by {
          forall i | 0 <= i < |init| ensures analyze(init[i]).Some? {
            assert init[i] == assets[i];
          }
        }
      }
      if |out| == |assets| {
        forall i | 0 <= i < |assets| ensures analyze(assets[i]).Some? {
          if i < |init| {
            assert init[i] == assets[i];
          }
        }
      }
    }
  }

  /** Every successful analysis is on the dashboard. */
  lemma {:induction false} SuccessesComplete<A, R>(assets: seq<A>, analyze: A -> Option<R>, i: int)
    requires 0 <= i < |assets| && analyze(assets[i]).Some?
    ensures analyze(assets[i]).value in Successes(assets, analyze)
    decreases |assets|
  {
    var init := assets[..|assets| - 1];
    if i < |assets| - 1 {
      assert init[i] == assets[i];
      SuccessesComplete(init, analyze, i);
    }
  }
}
