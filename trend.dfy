/** Trend estimation and scoring (app/utils.py:16-46 and the slope
    normalisation at app/utils.py:149-152). */
module Trend {
  import opened Wrappers

  // ---------------------------------------------------------------------
  // Classification (classify_trend)
  // ---------------------------------------------------------------------

  /** The five trend categories, in increasing score order. */
  datatype Category = VeryBearish | Bearish | Neutral | Bullish | VeryBullish
  {
    function Score(): int
    {
      match this
      case VeryBearish => 1
      case Bearish => 2
      case Neutral => 3
      case Bullish => 4
      case VeryBullish => 5
    }

    function Label(): string
    {
      match this
      case VeryBearish => "VERY BEARISH"
      case Bearish => "BEARISH"
      case Neutral => "NEUTRAL"
      case Bullish => "BULLISH"
      case VeryBullish => "VERY BULLISH"
    }

    function Color(): string
    {
      match this
      case VeryBearish => "#B71C1C"
      case Bearish => "#F44336"
      case Neutral => "#607D8B"
      case Bullish => "#4CAF50"
      case VeryBullish => "#2E7D32"
    }
  }

  /** The threshold table, first match wins. Each score level is reached
      exactly when the percentage clears the threshold of that level, so
      the score is a non-decreasing step function of the percentage. */
  function Classify(pct: real): (c: Category)
    ensures 1 <= c.Score() <= 5
    ensures c.Score() >= 5 <==> pct > 0.01
    ensures c.Score() >= 4 <==> pct >= 0.0025
    ensures c.Score() >= 3 <==> pct >= -0.0025
    ensures c.Score() >= 2 <==> pct >= -0.01
  {
    if pct > 0.01 then VeryBullish
    else if pct >= 0.0025 then Bullish
    else if pct >= -0.0025 then Neutral
    else if pct >= -0.01 then Bearish
    else VeryBearish
  }

  /** The label, colour and score triple that `classify_trend` returns,
      band by band. */
  function ClassifyTrend(pct: real): (r: (string, string, int))
    ensures pct > 0.01 ==> r == ("VERY BULLISH", "#2E7D32", 5)
    ensures 0.0025 <= pct <= 0.01 ==> r == ("BULLISH", "#4CAF50", 4)
    ensures -0.0025 <= pct < 0.0025 ==> r == ("NEUTRAL", "#607D8B", 3)
    ensures -0.01 <= pct < -0.0025 ==> r == ("BEARISH", "#F44336", 2)
    ensures pct < -0.01 ==> r == ("VERY BEARISH", "#B71C1C", 1)
  {
    var c := Classify(pct);
    (c.Label(), c.Color(), c.Score())
  }

  /** An independent reading of the table: the score is one plus the number
      of thresholds the percentage clears. */
  function ThresholdsCleared(pct: real): nat
  {
    (if pct > 0.01 then 1 else 0) + (if pct >= 0.0025 then 1 else 0)
    + (if pct >= -0.0025 then 1 else 0) + (if pct >= -0.01 then 1 else 0)
  }

  lemma ClassifyCountsThresholds(pct: real)
    ensures Classify(pct).Score() == 1 + ThresholdsCleared(pct)
  {
  }

  /** A higher percentage never gets a lower score. */
  lemma ClassifyMonotone(p: real, q: real)
    requires p <= q
    ensures Classify(p).Score() <= Classify(q).Score()
  {
  }

  /** Ties at a threshold resolve as the comparisons in the table say. */
  lemma ClassifyBoundaries()
    ensures Classify(0.01) == Bullish
    ensures Classify(0.0025) == Bullish
    ensures Classify(-0.0025) == Neutral
    ensures Classify(-0.01) == Bearish
  {
  }

  // ---------------------------------------------------------------------
  // Weighted score (calculate_weighted_score)
  // ---------------------------------------------------------------------

  datatype Formula = IntradayLocal | IntradayMid | IntradayPositional

  /** `formulas.get(formula_type, formulas["intraday_local"])`: any name
      other than the two alternatives selects `intraday_local`. */
  function FormulaOf(name: string): (f: Formula)
    ensures f == IntradayMid <==> name == "intraday_mid"
    ensures f == IntradayPositional <==> name == "intraday_positional"
  {
    if name == "intraday_mid" then IntradayMid
    else if name == "intraday_positional" then IntradayPositional
    else IntradayLocal
  }

  /** Weights in tenths: hourly, 4-hour, daily. */
  datatype Weights = Weights(w1h: nat, w4h: nat, w1d: nat)

  function WeightsOf(f: Formula): (w: Weights)
    ensures w.w1h + w.w4h + w.w1d == 10
  {
    match f
    case IntradayLocal => Weights(5, 3, 2)
    case IntradayMid => Weights(2, 5, 3)
    case IntradayPositional => Weights(2, 3, 5)
  }

  datatype Mode = BullishMode | BearishMode

  /** A weighted score kept exactly, in tenths, with the mode and the three
      per-timeframe scores it was made from. */
  datatype WeightedScore = WeightedScore(score10: int, mode: Mode, score1d: int, score4h: int, score1h: int)
  {
    /** The score on the source's 1..5 scale. */
    function Value(): real { score10 as real / 10.0 }
  }

  // Min3 and Max3 bound the weighted score by the per-timeframe scores,
  // which are whole numbers; Bars.Min and Bars.Max are their price
  // counterparts on reals.
  function Min3(a: int, b: int, c: int): int
  {
    if a <= b && a <= c then a else if b <= c then b else c
  }

  function Max3(a: int, b: int, c: int): int
  {
    if a >= b && a >= c then a else if b >= c then b else c
  }

  /** Ten times the weighted combination of the three scores. */
  function Combine(w: Weights, s1d: int, s4h: int, s1h: int): int
  {
    w.w1h * s1h + w.w4h * s4h + w.w1d * s1d
  }

  /** A convex combination lies between the smallest and the largest score,
      and equal scores combine to that score. */
  lemma CombineIsConvex(f: Formula, s1d: int, s4h: int, s1h: int)
    ensures 10 * Min3(s1d, s4h, s1h) <= Combine(WeightsOf(f), s1d, s4h, s1h) <= 10 * Max3(s1d, s4h, s1h)
    ensures s1d == s4h == s1h ==> Combine(WeightsOf(f), s1d, s4h, s1h) == 10 * s1h
  {
    var lo, hi := Min3(s1d, s4h, s1h), Max3(s1d, s4h, s1h);
    match f
    case IntradayLocal =>
      assert 5 * lo <= 5 * s1h <= 5 * hi && 3 * lo <= 3 * s4h <= 3 * hi && 2 * lo <= 2 * s1d <= 2 * hi;
    case IntradayMid =>
      assert 2 * lo <= 2 * s1h <= 2 * hi && 5 * lo <= 5 * s4h <= 5 * hi && 3 * lo <= 3 * s1d <= 3 * hi;
    case IntradayPositional =>
      assert 2 * lo <= 2 * s1h <= 2 * hi && 3 * lo <= 3 * s4h <= 3 * hi && 5 * lo <= 5 * s1d <= 5 * hi;
  }

  /** `bullish` exactly when the score is above 3.0; 3.0 itself is bearish. */
  function ModeOf(score10: int): (m: Mode)
    ensures m == BullishMode <==> score10 as real / 10.0 > 3.0
  {
    if score10 > 30 then BullishMode else BearishMode
  }

  function CalculateWeightedScore(pct1d: real, pct4h: real, pct1h: real, formulaName: string): (r: WeightedScore)
    ensures r.score1d == Classify(pct1d).Score()
    ensures r.score4h == Classify(pct4h).Score()
    ensures r.score1h == Classify(pct1h).Score()
    ensures 10 * Min3(r.score1d, r.score4h, r.score1h) <= r.score10 <= 10 * Max3(r.score1d, r.score4h, r.score1h)
    ensures 1.0 <= r.Value() <= 5.0
    ensures r.score1d == r.score4h == r.score1h ==> r.Value() == r.score1h as real
    ensures r.mode == BullishMode <==> r.Value() > 3.0
  {
    var s1d, s4h, s1h := Classify(pct1d).Score(), Classify(pct4h).Score(), Classify(pct1h).Score();
    var f := FormulaOf(formulaName);
    var score10 := Combine(WeightsOf(f), s1d, s4h, s1h);
    CombineIsConvex(f, s1d, s4h, s1h);
    WeightedScore(score10, ModeOf(score10), s1d, s4h, s1h)
  }

  /** Unanimous extreme scores: every profile scores (5,5,5) as 5.0 and
      (1,1,1) as 1.0. */
  lemma UnanimousScores(p: real, q: real, name: string)
    ensures p > 0.01 ==> CalculateWeightedScore(p, p, p, name).Value() == 5.0
    ensures q < -0.01 ==> CalculateWeightedScore(q, q, q, name).Value() == 1.0
    ensures q < -0.01 ==> CalculateWeightedScore(q, q, q, name).mode == BearishMode
  {
  }

  /** The boundary case: all three scores NEUTRAL give exactly 3.0, which
      is bearish under every profile. */
  lemma NeutralIsBearish(p: real, name: string)
    requires -0.0025 <= p < 0.0025
    ensures CalculateWeightedScore(p, p, p, name).Value() == 3.0
    ensures CalculateWeightedScore(p, p, p, name).mode == BearishMode
  {
  }

  // ---------------------------------------------------------------------
  // Regression line (calc_regression) and slope normalisation
  // ---------------------------------------------------------------------

  /** The trailing window `calc_regression` fits: every caller uses the
      default `window=20`, and the abscissae are always 0..WINDOW-1. */
  const WINDOW: nat := 20

  /** Sum of the indices 0..n-1 (`np.sum(x)`). */
  function IndexSum(n: nat): real
  {
    if n == 0 then 0.0 else IndexSum(n - 1) + (n - 1) as real
  }

  /** Sum of the squared indices 0..n-1 (`np.sum(x**2)`). */
  function IndexSqSum(n: nat): real
  {
    if n == 0 then 0.0 else IndexSqSum(n - 1) + (n - 1) as real * (n - 1) as real
  }

  /** `np.sum(y)`. */
  function Sum(y: seq<real>): real
    decreases |y|
  {
    if |y| == 0 then 0.0 else Sum(y[..|y| - 1]) + y[|y| - 1]
  }

  /** `np.sum(x*y)` with x = 0..|y|-1. */
  function IndexWeightedSum(y: seq<real>): real
    decreases |y|
  {
    if |y| == 0 then 0.0 else IndexWeightedSum(y[..|y| - 1]) + (|y| - 1) as real * y[|y| - 1]
  }

  /** The slope's denominator n·Σx² − (Σx)². */
  function Denominator(n: nat): real
  {
    n as real * IndexSqSum(n) - IndexSum(n) * IndexSum(n)
  }

  lemma {:induction false} IndexSumClosed(n: nat)
    ensures 2.0 * IndexSum(n) == n as real * (n as real - 1.0)
  {
    if n > 0 {
      IndexSumClosed(n - 1);
    }
  }

  lemma {:induction false} IndexSqSumClosed(n: nat)
    ensures 6.0 * IndexSqSum(n) == (n as real - 1.0) * n as real * (2.0 * n as real - 1.0)
  {
    if n > 0 {
      IndexSqSumClosed(n - 1);
      var m := n as real;
      assert (m - 2.0) * (m - 1.0) * (2.0 * m - 3.0) + 6.0 * (m - 1.0) * (m - 1.0) == (m - 1.0) * m * (2.0 * m - 1.0);
    }
  }

  /** The slope's denominator is n²(n−1)(n+1)/12, positive for every
      window of two or more points. */
  lemma DenominatorPositive(n: nat)
    requires n >= 2
    ensures 12.0 * Denominator(n) == (n * n * (n - 1) * (n + 1)) as real
    ensures Denominator(n) > 0.0
  {
    IndexSumClosed(n);
    IndexSqSumClosed(n);
    DenominatorAlgebra(n as real, IndexSum(n), IndexSqSum(n));
    ProductAsReal(n);
  }

  /** The closed forms of Σx and Σx² give 12·(n·Σx² − (Σx)²) = n²(n−1)(n+1). */
  lemma DenominatorAlgebra(m: real, s: real, q: real)
    requires 2.0 * s == m * (m - 1.0) && 6.0 * q == (m - 1.0) * m * (2.0 * m - 1.0)
    ensures 12.0 * (m * q - s * s) == m * m * (m - 1.0) * (m + 1.0)
  {
    assert 12.0 * (m * q - s * s) == 2.0 * m * (6.0 * q) - 3.0 * (2.0 * s) * (2.0 * s);
  }

  /** n²(n−1)(n+1) is positive for n ≥ 2 and agrees with its real image. */
  lemma ProductAsReal(n: nat)
    requires n >= 2
    ensures (n * n * (n - 1) * (n + 1)) as real == n as real * n as real * (n as real - 1.0) * (n as real + 1.0)
    ensures n * n * (n - 1) * (n + 1) > 0
  {
    var k := n - 1;
    assert k > 0 && n * n > 0 && n * n * k > 0;
  }

  /** The index statistics of the window: Σx = 190, Σx² = 2470, and the
      denominator 20·2470 − 190² = 13300 is never zero. */
  lemma WindowConstants()
    ensures IndexSum(WINDOW) == 190.0 && IndexSqSum(WINDOW) == 2470.0
    ensures Denominator(WINDOW) == 13300.0
  {
    IndexSumClosed(WINDOW);
    IndexSqSumClosed(WINDOW);
  }

  /** A fitted line: slope, intercept and the line evaluated at 0..WINDOW-1. */
  datatype Fit = Fit(slope: real, intercept: real, mid: seq<real>)

  /** The slope formula of `calc_regression`, from Σxy and Σy. With the
      intercept of `InterceptOf` it solves the second normal equation: the
      residuals are uncorrelated with the index. */
  function SlopeOf(sxy: real, sy: real): (s: real)
    ensures InterceptOf(sy, s) * 190.0 + s * 2470.0 == sxy
  {
    WindowConstants();
    var s := (WINDOW as real * sxy - IndexSum(WINDOW) * sy) / Denominator(WINDOW);
    NormalEquations(sy, sxy, s, InterceptOf(sy, s));
    s
  }

  /** The intercept formula, from Σy and the slope: the line through the
      mean point, so the residuals sum to zero (the first normal equation). */
  function InterceptOf(sy: real, slope: real): (icpt: real)
    ensures 20.0 * icpt + slope * 190.0 == sy
  {
    WindowConstants();
    (sy - slope * IndexSum(WINDOW)) / WINDOW as real
  }

  /** Slope, intercept and the line `slope * x + intercept`. */
  function FitOf(sxy: real, sy: real): (f: Fit)
    ensures |f.mid| == WINDOW
  {
    var slope := SlopeOf(sxy, sy);
    var icpt := InterceptOf(sy, slope);
    Fit(slope, icpt, Line(icpt, slope, WINDOW))
  }

  /** Least-squares fit of a full window against its indices. */
  function FitWindow(y: seq<real>): (f: Fit)
    requires |y| == WINDOW
    ensures |f.mid| == WINDOW
    ensures forall i :: 0 <= i < WINDOW ==> f.mid[i] == f.intercept + f.slope * i as real
  {
    var f := FitOf(IndexWeightedSum(y), Sum(y));
    LineValues(f.intercept, f.slope, WINDOW);
    f
  }

  /** The points a + b·i for i in 0..n-1. */
  function Line(a: real, b: real, n: nat): (r: seq<real>)
    ensures |r| == n
  {
    if n == 0 then [] else Line(a, b, n - 1) + [a + b * (n - 1) as real]
  }

  lemma {:induction false} LineAt(a: real, b: real, n: nat, i: nat)
    requires i < n
    ensures Line(a, b, n)[i] == a + b * i as real
  {
    if i < n - 1 {
      LineAt(a, b, n - 1, i);
    }
  }

  /** `calc_regression(series)`: the fit of the trailing WINDOW closes, or
      None when fewer exist. This is the intended behaviour; the code as
      written is `RegressionAsWritten`. Bands need a standard deviation and
      are not part of this model. */
  function Regression(series: seq<real>): (r: Option<Fit>)
    ensures r.Some? <==> |series| >= WINDOW
    ensures r.Some? ==> |r.value.mid| == WINDOW
  {
    if |series| < WINDOW then None
    else Some(FitWindow(series[|series| - WINDOW..]))
  }

  /** `calc_regression` as written: `n` is the window, not the number of
      closes. Between 2 and 19 closes the shapes of x and y clash and the
      arithmetic fails (None); a single close is broadcast against all
      twenty abscissae, so Σxy becomes close·Σx while Σy stays the close. */
  function RegressionAsWritten(series: seq<real>): (r: Option<Fit>)
    ensures r.Some? <==> |series| >= WINDOW || |series| == 1
    ensures |series| != 1 ==> r == Regression(series)
  {
    if |series| == 1 then Some(FitOf(series[0] * IndexSum(WINDOW), series[0]))
    else Regression(series)
  }

  /** A single close p yields the slope 19·p/70 as written, a trend out of
      nothing; the intended regression refuses the series. */
  lemma RegressionBroadcastSlope(p: real)
    ensures RegressionAsWritten([p]).Some?
    ensures RegressionAsWritten([p]).value.slope == 19.0 * p / 70.0
    ensures p != 0.0 ==> RegressionAsWritten([p]).value.slope != 0.0
    ensures Regression([p]).None?
  {
    WindowConstants();
    assert (20.0 * (p * 190.0) - 190.0 * p) / 13300.0 == 19.0 * p / 70.0;
  }

  /** Every point of a line, at once. */
  lemma LineValues(a: real, b: real, n: nat)
    ensures forall i :: 0 <= i < n ==> Line(a, b, n)[i] == a + b * i as real
  {
    forall i | 0 <= i < n
      ensures Line(a, b, n)[i] == a + b * i as real
    {
      LineAt(a, b, n, i);
    }
  }

  lemma LinePrefix(a: real, b: real, n: nat)
    requires n > 0
    ensures Line(a, b, n)[..n - 1] == Line(a, b, n - 1)
    ensures Line(a, b, n)[n - 1] == a + b * (n - 1) as real
  {
  }

  lemma {:induction false} LineSum(a: real, b: real, n: nat)
    ensures Sum(Line(a, b, n)) == n as real * a + b * IndexSum(n)
  {
    if n > 0 {
      LineSum(a, b, n - 1);
      LinePrefix(a, b, n);
      var m := (n - 1) as real;
      assert IndexSum(n) == IndexSum(n - 1) + m;
      assert b * IndexSum(n) == b * IndexSum(n - 1) + b * m;
    }
  }

  lemma {:induction false} LineIndexWeightedSum(a: real, b: real, n: nat)
    ensures IndexWeightedSum(Line(a, b, n)) == a * IndexSum(n) + b * IndexSqSum(n)
  {
    if n > 0 {
      LineIndexWeightedSum(a, b, n - 1);
      LineWeightedLast(a, b, n);
      var m := (n - 1) as real;
      assert a * IndexSum(n) == a * IndexSum(n - 1) + a * m;
      assert b * IndexSqSum(n) == b * IndexSqSum(n - 1) + b * (m * m);
    }
  }

  /** The last point of a line adds its index times its value. */
  lemma LineWeightedLast(a: real, b: real, n: nat)
    requires n > 0
    ensures IndexWeightedSum(Line(a, b, n))
      == IndexWeightedSum(Line(a, b, n - 1)) + (n - 1) as real * (a + b * (n - 1) as real)
  {
    LinePrefix(a, b, n);
  }

  /** On exactly linear data the fit recovers the line: the slope is b,
      the intercept a, and the mid line reproduces the input. */
  lemma FitOfLine(a: real, b: real)
    ensures FitWindow(Line(a, b, WINDOW)) == Fit(b, a, Line(a, b, WINDOW))
  {
    var y := Line(a, b, WINDOW);
    LineSum(a, b, WINDOW);
    LineIndexWeightedSum(a, b, WINDOW);
    WindowConstants();
    SlopeOfLineSums(a, b, Sum(y), IndexWeightedSum(y));
  }

  lemma SlopeOfLineSums(a: real, b: real, sy: real, sxy: real)
    requires sy == 20.0 * a + 190.0 * b && sxy == 190.0 * a + 2470.0 * b
    ensures SlopeOf(sxy, sy) == b && InterceptOf(sy, b) == a
  {
    WindowConstants();
  }

  /** A constant window has a flat fit through the constant. */
  lemma ConstantWindowIsFlat(p: real)
    ensures FitWindow(Line(p, 0.0, WINDOW)).slope == 0.0
    ensures forall i :: 0 <= i < WINDOW ==> FitWindow(Line(p, 0.0, WINDOW)).mid[i] == p
  {
    FitOfLine(p, 0.0);
    forall i | 0 <= i < WINDOW
      ensures Line(p, 0.0, WINDOW)[i] == p
    {
      LineAt(p, 0.0, WINDOW, i);
    }
  }

  /** The fit is the least-squares line: its residuals sum to zero and are
      uncorrelated with the index (the two normal equations). */
  lemma FitIsLeastSquares(y: seq<real>)
    requires |y| == WINDOW
    ensures Sum(FitWindow(y).mid) == Sum(y)
    ensures IndexWeightedSum(FitWindow(y).mid) == IndexWeightedSum(y)
  {
    var f := FitWindow(y);
    LineSum(f.intercept, f.slope, WINDOW);
    LineIndexWeightedSum(f.intercept, f.slope, WINDOW);
    WindowConstants();
    NormalEquations(Sum(y), IndexWeightedSum(y), f.slope, f.intercept);
  }

  lemma NormalEquations(sy: real, sxy: real, slope: real, icpt: real)
    requires slope == (20.0 * sxy - 190.0 * sy) / 13300.0 && icpt == (sy - slope * 190.0) / 20.0
    ensures 20.0 * icpt + slope * 190.0 == sy
    ensures icpt * 190.0 + slope * 2470.0 == sxy
  {
  }

  /** The percentage trend per base hour: slope over the last close, in
      percent, divided by the hours each point of the series spans. Its sign
      is the slope's, and it does not depend on the price scale. */
  function NormalisedPct(slope: real, lastClose: real, hoursPerPoint: nat): (pct: real)
    requires lastClose > 0.0 && hoursPerPoint > 0
    ensures pct > 0.0 <==> slope > 0.0
    ensures pct < 0.0 <==> slope < 0.0
  {
    slope / lastClose * 100.0 / hoursPerPoint as real
  }

  /** Scaling every price by k > 0 scales the slope and the close alike and
      leaves the percentage, hence the category, unchanged. */
  lemma NormalisedPctScaleFree(slope: real, lastClose: real, hoursPerPoint: nat, k: real)
    requires lastClose > 0.0 && hoursPerPoint > 0 && k > 0.0
    ensures NormalisedPct(k * slope, k * lastClose, hoursPerPoint) == NormalisedPct(slope, lastClose, hoursPerPoint)
  {
    assert (k * slope) / (k * lastClose) == slope / lastClose;
  }
}
