/** OHLCV bars and the per-series aggregates shared by resampling and the
    pivot zone calculator. A timestamp is a whole number of hours, already
    in the display time zone. */
module Bars {

  datatype Bar = Bar(ts: int, open: real, high: real, low: real, close: real, volume: real)

  /** A series is indexed by strictly increasing timestamps. */
  predicate StrictlyIncreasing(bars: seq<Bar>)
  {
    forall i, j :: 0 <= i < j < |bars| ==> bars[i].ts < bars[j].ts
  }

  /** A bar of a real market: positive prices, close inside [low, high]. */
  predicate WellFormedBar(b: Bar)
  {
    0.0 < b.low <= b.close <= b.high
  }

  predicate WellFormed(bars: seq<Bar>)
  {
    forall i :: 0 <= i < |bars| ==> WellFormedBar(bars[i])
  }

  /** Every bar closes above zero: what dividing a slope by the last close
      needs. */
  predicate PositiveCloses(bars: seq<Bar>)
  {
    forall i :: 0 <= i < |bars| ==> bars[i].close > 0.0
  }

  // Max and Min of two prices, the steps of MaxHigh and MinLow.
  function Max(a: real, b: real): real { if a >= b then a else b }

  function Min(a: real, b: real): real { if a <= b then a else b }

  /** The `Close` column of a series. */
  function Closes(bars: seq<Bar>): (r: seq<real>)
    ensures |r| == |bars|
    ensures forall i :: 0 <= i < |bars| ==> r[i] == bars[i].close
  {
    seq(|bars|, i requires 0 <= i < |bars| => bars[i].close)
  }

  /** `High.max()` of a non-empty series. */
  function MaxHigh(bars: seq<Bar>): (r: real)
    requires |bars| > 0
    ensures forall i :: 0 <= i < |bars| ==> bars[i].high <= r
    ensures exists i :: 0 <= i < |bars| && bars[i].high == r
    decreases |bars|
  {
    if |bars| == 1 then bars[0].high
    else
      var m := MaxHigh(bars[..|bars| - 1]);
      assert forall i :: 0 <= i < |bars| - 1 ==> bars[..|bars| - 1][i] == bars[i];
      Max(m, bars[|bars| - 1].high)
  }

  /** `Low.min()` of a non-empty series. */
  function MinLow(bars: seq<Bar>): (r: real)
    requires |bars| > 0
    ensures forall i :: 0 <= i < |bars| ==> r <= bars[i].low
    ensures exists i :: 0 <= i < |bars| && bars[i].low == r
    decreases |bars|
  {
    if |bars| == 1 then bars[0].low
    else
      var m := MinLow(bars[..|bars| - 1]);
      assert forall i :: 0 <= i < |bars| - 1 ==> bars[..|bars| - 1][i] == bars[i];
      Min(m, bars[|bars| - 1].low)
  }

  /** `Volume.sum()` of a series. */
  function SumVolume(bars: seq<Bar>): (r: real)
    ensures (forall i :: 0 <= i < |bars| ==> bars[i].volume >= 0.0) ==> r >= 0.0
    ensures |bars| == 1 ==> r == bars[0].volume
    decreases |bars|
  {
    if |bars| == 0 then 0.0 else SumVolume(bars[..|bars| - 1]) + bars[|bars| - 1].volume
  }

  /** In a well-formed non-empty series every close lies between the
      lowest low and the highest high. */
  lemma CloseWithinRange(bars: seq<Bar>, i: int)
    requires WellFormed(bars) && 0 <= i < |bars|
    ensures MinLow(bars) <= bars[i].close <= MaxHigh(bars)
    ensures 0.0 < MinLow(bars)
  {
    var j :| 0 <= j < |bars| && bars[j].low == MinLow(bars);
    assert WellFormedBar(bars[j]);
    assert WellFormedBar(bars[i]);
  }
}
