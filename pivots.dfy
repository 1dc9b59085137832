/** Daily pivot zones (`calculate_pivot_zones`, app/utils.py:48-119): the
    classic floor-trader levels of the reference day and the two days before
    it, with a 2:1 reward-to-risk trade plan for the day still in progress. */
module Pivots {
  import opened Bars
  import opened Wrappers

  /** Hours in a calendar day of the display time zone (it has no daylight
      saving time). */
  const DAY: int := 24

  /** `Timestamp.normalize()`: the midnight that opens the bar's day. */
  function DayStart(ts: int): (d: int)
    ensures d <= ts < d + DAY
    ensures d % 24 == 0
  {
    (ts / 24) * 24
  }

  /** `period_starts[i]`: the day before yesterday, yesterday and the day of
      the reference timestamp, for i = 0, 1, 2. */
  function PeriodStart(ref: int, i: int): int
  {
    DayStart(ref) - (2 - i) * 24
  }

  /** `period_starts`: the three day starts in chronological order. */
  function PeriodStarts(ref: int): (ps: seq<int>)
    ensures |ps| == 3
    ensures forall i :: 0 <= i < 3 ==> ps[i] == PeriodStart(ref, i)
  {
    var today := DayStart(ref);
    [today - 2 * DAY, today - DAY, today]
  }

  /** The bars of the day opening at `start`, `[start, start + 1 day)`, in
      series order. */
  function DayBars(bars: seq<Bar>, start: int): (r: seq<Bar>)
    ensures |r| <= |bars|
    ensures forall i :: 0 <= i < |r| ==> start <= r[i].ts < start + DAY
    ensures forall i :: 0 <= i < |r| ==> r[i] in bars
    decreases |bars|
  {
    if |bars| == 0 then []
    else
      var rest := DayBars(bars[..|bars| - 1], start);
      var b := bars[|bars| - 1];
      if start <= b.ts < start + DAY then rest + [b] else rest
  }

  /** No bar of the day is missed by the filter. */
  lemma {:induction false} DayBarsComplete(bars: seq<Bar>, start: int, j: int)
    requires 0 <= j < |bars| && start <= bars[j].ts < start + DAY
    ensures bars[j] in DayBars(bars, start)
    decreases |bars|
  {
    var init := bars[..|bars| - 1];
    if j < |bars| - 1 {
      assert init[j] == bars[j];
      DayBarsComplete(init, start, j);
    }
  }

  /** The last bar of the series, when it falls in the day, is the last bar
      of the day. */
  lemma DayBarsLast(bars: seq<Bar>, start: int)
    requires |bars| > 0 && start <= bars[|bars| - 1].ts < start + DAY
    ensures |DayBars(bars, start)| > 0
    ensures DayBars(bars, start)[|DayBars(bars, start)| - 1] == bars[|bars| - 1]
  {
  }

  lemma DayBarsWellFormed(bars: seq<Bar>, start: int)
    requires WellFormed(bars)
    ensures WellFormed(DayBars(bars, start))
  {
    var day := DayBars(bars, start);
    forall i | 0 <= i < |day|
      ensures WellFormedBar(day[i])
    {
      var j :| 0 <= j < |bars| && bars[j] == day[i];
      assert WellFormedBar(bars[j]);
    }
  }

  // ---------------------------------------------------------------------
  // Pivot levels and the trade plan
  // ---------------------------------------------------------------------

  datatype Levels = Levels(pp: real, r1: real, r2: real, s1: real, s2: real,
                           m2: real, m3: real, m4: real, m5: real)

  /** The classic pivot point of a day's high, low and close, its two
      resistances and supports, and the four midpoints between them. The
      R1/S1 channel is as wide as the day's range and the R2/S2 channel twice
      as wide; for a close inside the range the nine levels come in a fixed
      order. */
  function PivotLevels(h: real, l: real, c: real): (lv: Levels)
    ensures 3.0 * lv.pp == h + l + c
    ensures lv.r1 - lv.s1 == h - l && lv.r2 - lv.s2 == 2.0 * (h - l)
    ensures l <= c <= h ==>
      lv.s2 <= lv.m5 <= lv.s1 <= lv.m2 <= lv.pp <= lv.m3 <= lv.r1 <= lv.m4 <= lv.r2
    ensures l <= c <= h ==> l <= lv.pp <= h
  {
    var pp := (h + l + c) / 3.0;
    var r1 := 2.0 * pp - l;
    var r2 := pp + (h - l);
    var s1 := 2.0 * pp - h;
    var s2 := pp - (h - l);
    Levels(pp, r1, r2, s1, s2, 0.5 * (pp + s1), 0.5 * (pp + r1), 0.5 * (r1 + r2), 0.5 * (s1 + s2))
  }

  /** Middle of the buy zone, between PP and M2. */
  function BullEntry(lv: Levels): (e: real)
    ensures lv.m2 <= lv.pp ==> lv.m2 <= e <= lv.pp
  {
    (lv.pp + lv.m2) / 2.0
  }

  /** The buy stop: half the distance to the M4 target below the entry, so
      the reward (entry to M4) is twice the risk (stop to entry). */
  function BullStop(lv: Levels): (sl: real)
    ensures lv.m4 - BullEntry(lv) == 2.0 * (BullEntry(lv) - sl)
  {
    var mid := BullEntry(lv);
    mid - (lv.m4 - mid) / 2.0
  }

  /** Middle of the sell zone, between PP and M3. */
  function BearEntry(lv: Levels): (e: real)
    ensures lv.pp <= lv.m3 ==> lv.pp <= e <= lv.m3
  {
    (lv.pp + lv.m3) / 2.0
  }

  /** The sell stop, mirrored: the reward (entry down to M5) is twice the
      risk (entry up to the stop). */
  function BearStop(lv: Levels): (sl: real)
    ensures BearEntry(lv) - lv.m5 == 2.0 * (sl - BearEntry(lv))
  {
    var mid := BearEntry(lv);
    mid + (mid - lv.m5) / 2.0
  }

  /** For a day with a real range and a close inside it, the stop, the entry
      and the target are strictly ordered on each side, and the targets stay
      inside the outer R2/S2 levels. */
  lemma TradeLevelsOrdered(h: real, l: real, c: real)
    requires l < h && l <= c <= h
    ensures var lv := PivotLevels(h, l, c);
      BullStop(lv) < BullEntry(lv) < lv.m4 < lv.r2
    ensures var lv := PivotLevels(h, l, c);
      lv.s2 < lv.m5 < BearEntry(lv) < BearStop(lv)
  {
    var lv := PivotLevels(h, l, c);
    assert lv.pp < h && l < lv.pp by {
      assert 3.0 * lv.pp == h + l + c;
    }
  }

  // ---------------------------------------------------------------------
  // Zones
  // ---------------------------------------------------------------------

  /** One entry of the list `calculate_pivot_zones` returns. The stops and
      the reward-to-risk ratio are present only for the day in progress. */
  datatype Zone = Zone(
    start: int, end: int, levels: Levels,
    high: real, low: real, close: real,
    isCompleted: bool, future: bool,
    zoneIndex: nat, barsCount: nat,
    stopLossBull: Option<real>, stopLossBear: Option<real>, riskReward: Option<real>)

  /** The zone of day `i` (0, 1, 2) around the bar at `currentIdx`, or None
      when the day has no bars. A day is completed once its end is not after
      the series' last timestamp; a completed day closes at its own last
      bar, the day in progress at the bar at `currentIdx`. */
  function ZoneFor(bars: seq<Bar>, currentIdx: int, i: nat): (r: Option<Zone>)
    requires 0 <= currentIdx < |bars|
    ensures r.Some? <==> |DayBars(bars, PeriodStart(bars[currentIdx].ts, i))| > 0
    ensures r.Some? ==> r.value.zoneIndex == i && r.value.start == PeriodStart(bars[currentIdx].ts, i)
  {
    var start := PeriodStart(bars[currentIdx].ts, i);
    var day := DayBars(bars, start);
    if |day| == 0 then None
    else
      var completed := start + DAY <= bars[|bars| - 1].ts;
      var h, l := MaxHigh(day), MinLow(day);
      var c := if completed then day[|day| - 1].close else bars[currentIdx].close;
      var lv := PivotLevels(h, l, c);
      Some(Zone(start, start + DAY, lv, h, l, c, completed, !completed, i, |day|,
        if completed then None else Some(BullStop(lv)),
        if completed then None else Some(BearStop(lv)),
        if completed then None else Some(2.0)))
  }

  /** The zones of the first `n` of the three days, skipping empty days. */
  function ZonesUpTo(bars: seq<Bar>, currentIdx: int, n: nat): seq<Zone>
    requires 0 <= currentIdx < |bars|
  {
    if n == 0 then []
    else
      var prev := ZonesUpTo(bars, currentIdx, n - 1);
      match ZoneFor(bars, currentIdx, n - 1)
      case Some(z) => prev + [z]
      case None => prev
  }

  /** The result of `calculate_pivot_zones(df_1h, current_idx)`. */
  function PivotZones(bars: seq<Bar>, currentIdx: int): (zones: seq<Zone>)
    requires 0 <= currentIdx < |bars|
    ensures |zones| <= 3 && Chronological(zones)
  {
    ZonesIndices(bars, currentIdx, 3);
    ZonesOrdered(bars, currentIdx, 3);
    ZonesUpTo(bars, currentIdx, 3)
  }

  /** One more day appends its zone, if it has one. */
  lemma ZonesUpToStep(bars: seq<Bar>, currentIdx: int, n: nat)
    requires 0 <= currentIdx < |bars| && n > 0
    ensures ZoneFor(bars, currentIdx, n - 1).None? ==>
      ZonesUpTo(bars, currentIdx, n) == ZonesUpTo(bars, currentIdx, n - 1)
    ensures ZoneFor(bars, currentIdx, n - 1).Some? ==>
      ZonesUpTo(bars, currentIdx, n) == ZonesUpTo(bars, currentIdx, n - 1) + [ZoneFor(bars, currentIdx, n - 1).value]
  {
  }

  /** The body of the loop for a day with bars: its extremes, its close
      (its last bar once completed, else the reference bar), its levels and,
      for the day in progress, the stops and the 2:1 ratio. */
  method PeriodZone(bars: seq<Bar>, currentIdx: int, i: nat, periodStart: int, day: seq<Bar>)
    returns (zone: Zone)
    requires 0 <= currentIdx < |bars| && i < 3
    requires periodStart == PeriodStart(bars[currentIdx].ts, i)
    requires day == DayBars(bars, periodStart) && |day| > 0
    ensures ZoneFor(bars, currentIdx, i) == Some(zone)
  {
    var isCompleted := periodStart + DAY <= bars[|bars| - 1].ts;
    var high, low := MaxHigh(day), MinLow(day);
    var close, future;
    if isCompleted {
      close, future := day[|day| - 1].close, false;
    } else {
      close, future := bars[currentIdx].close, true;
    }
    var lv := PivotLevels(high, low, close);
    var stopBull, stopBear, rr;
    if future {
      stopBull, stopBear, rr := Some(BullStop(lv)), Some(BearStop(lv)), Some(2.0);
    } else {
      stopBull, stopBear, rr := None, None, None;
    }
    zone := Zone(periodStart, periodStart + DAY, lv, high, low, close,
      isCompleted, future, i, |day|, stopBull, stopBear, rr);
  }

  /** `calculate_pivot_zones`: one pass per reference day, skipping a day
      without bars and appending the zone of every other day. */
  method CalculatePivotZones(bars: seq<Bar>, currentIdx: int) returns (zones: seq<Zone>)
    requires 0 <= currentIdx < |bars|
    ensures zones == PivotZones(bars, currentIdx)
  {
    zones := [];
    var periodStarts := PeriodStarts(bars[currentIdx].ts);
    for i := 0 to 3
      invariant zones == ZonesUpTo(bars, currentIdx, i)
    {
      var periodStart := periodStarts[i];
      var day := DayBars(bars, periodStart);
      if |day| == 0 {
        ZonesUpToStep(bars, currentIdx, i + 1);
        continue;
      }
      var zone := PeriodZone(bars, currentIdx, i, periodStart, day);
      ZonesUpToStep(bars, currentIdx, i + 1);
      zones := zones + [zone];
    }
  }

  /** What every zone says about its day: the day's position 0..2 (kept when
      an earlier day is skipped), its start and end, the number of its bars,
      its extremes, and stops exactly on the day in progress. */
  ghost predicate ZoneDescribesDay(bars: seq<Bar>, currentIdx: int, z: Zone)
    requires 0 <= currentIdx < |bars|
  {
    var day := DayBars(bars, z.start);
    && z.zoneIndex < 3
    && z.start == PeriodStart(bars[currentIdx].ts, z.zoneIndex)
    && z.end == z.start + DAY
    && z.barsCount == |day| > 0
    && z.high == MaxHigh(day) && z.low == MinLow(day)
    && z.isCompleted == (z.end <= bars[|bars| - 1].ts)
    && z.future == !z.isCompleted
    && (z.isCompleted ==> z.close == day[|day| - 1].close)
    && (z.future ==> z.close == bars[currentIdx].close)
    && z.levels == PivotLevels(z.high, z.low, z.close)
    && (z.future <==> z.stopLossBull.Some?)
    && (z.future <==> z.stopLossBear.Some?)
    && (z.future <==> z.riskReward.Some?)
    && (z.future ==> z.stopLossBull.value == BullStop(z.levels))
    && (z.future ==> z.stopLossBear.value == BearStop(z.levels))
    && (z.future ==> z.riskReward.value == 2.0)
  }

  /** The positions of the non-empty days among the first `n`. */
  function NonEmptyDays(bars: seq<Bar>, currentIdx: int, n: nat): seq<nat>
    requires 0 <= currentIdx < |bars|
  {
    if n == 0 then []
    else if |DayBars(bars, PeriodStart(bars[currentIdx].ts, n - 1))| > 0
    then NonEmptyDays(bars, currentIdx, n - 1) + [n - 1]
    else NonEmptyDays(bars, currentIdx, n - 1)
  }

  function Indices(zones: seq<Zone>): (r: seq<nat>)
    ensures |r| == |zones|
    ensures forall k :: 0 <= k < |zones| ==> r[k] == zones[k].zoneIndex
  {
    seq(|zones|, k requires 0 <= k < |zones| => zones[k].zoneIndex)
  }

  /** The zone of a day, when there is one, describes that day. Since
      `ZoneDescribesDay` is `ZoneFor`'s body read as a predicate, this only
      unfolds the definition: it is the bridge that lets the lemmas about
      all zones (ZonesDescribeDays, LastBarZones, DescribedZoneOrdered)
      work from the predicate instead of from `ZoneFor`. */
  lemma ZoneForDescribesDay(bars: seq<Bar>, currentIdx: int, i: nat)
    requires 0 <= currentIdx < |bars| && i < 3
    ensures var r := ZoneFor(bars, currentIdx, i);
      r.Some? ==> r.value.zoneIndex == i && ZoneDescribesDay(bars, currentIdx, r.value)
  {
  }

  /** Appending a zone appends its day position. */
  lemma IndicesSnoc(zones: seq<Zone>, z: Zone)
    ensures Indices(zones + [z]) == Indices(zones) + [z.zoneIndex]
  {
    assert forall k :: 0 <= k < |zones| ==> (zones + [z])[k] == zones[k];
  }

  /** At most one zone per day, one for exactly the non-empty days, in
      chronological order, each describing its own day. */
  lemma ZonesShape(bars: seq<Bar>, currentIdx: int, n: nat)
    requires 0 <= currentIdx < |bars| && n <= 3
    ensures var zones := ZonesUpTo(bars, currentIdx, n);
      && |zones| <= n
      && Indices(zones) == NonEmptyDays(bars, currentIdx, n)
      && (forall k :: 0 <= k < |zones| ==> zones[k].zoneIndex < n)
      && (forall k :: 0 <= k < |zones| ==> ZoneDescribesDay(bars, currentIdx, zones[k]))
      && (forall k, m :: 0 <= k < m < |zones| ==> zones[k].start < zones[m].start)
  {
    ZonesIndices(bars, currentIdx, n);
    ZonesDescribeDays(bars, currentIdx, n);
    ZonesOrdered(bars, currentIdx, n);
  }

  /** One zone per non-empty day, each with that day's position. */
  lemma {:induction false} ZonesIndices(bars: seq<Bar>, currentIdx: int, n: nat)
    requires 0 <= currentIdx < |bars| && n <= 3
    ensures |ZonesUpTo(bars, currentIdx, n)| <= n
    ensures Indices(ZonesUpTo(bars, currentIdx, n)) == NonEmptyDays(bars, currentIdx, n)
  {
    if n > 0 {
      ZonesIndices(bars, currentIdx, n - 1);
      var prev := ZonesUpTo(bars, currentIdx, n - 1);
      match ZoneFor(bars, currentIdx, n - 1)
      case None =>
        assert ZonesUpTo(bars, currentIdx, n) == prev;
      case Some(z) =>
        assert ZonesUpTo(bars, currentIdx, n) == prev + [z];
        IndicesSnoc(prev, z);
    }
  }

  /** Every zone of `zones` describes its day. */
  ghost predicate DescribeTheirDays(bars: seq<Bar>, currentIdx: int, zones: seq<Zone>)
    requires 0 <= currentIdx < |bars|
  {
    forall k :: 0 <= k < |zones| ==> ZoneDescribesDay(bars, currentIdx, zones[k])
  }

  /** Every zone describes its own day. */
  lemma {:induction false} ZonesDescribeDays(bars: seq<Bar>, currentIdx: int, n: nat)
    requires 0 <= currentIdx < |bars| && n <= 3
    ensures DescribeTheirDays(bars, currentIdx, ZonesUpTo(bars, currentIdx, n))
  {
    if n > 0 {
      ZonesDescribeDays(bars, currentIdx, n - 1);
      var prev := ZonesUpTo(bars, currentIdx, n - 1);
      match ZoneFor(bars, currentIdx, n - 1)
      case None =>
        assert ZonesUpTo(bars, currentIdx, n) == prev;
      case Some(z) =>
        assert ZonesUpTo(bars, currentIdx, n) == prev + [z];
        ZoneForDescribesDay(bars, currentIdx, n - 1);
    }
  }

  /** Each zone is one of the first `n` days and starts at that day's
      midnight. */
  predicate StartAtTheirDays(zones: seq<Zone>, ref: int, n: nat)
  {
    forall k :: 0 <= k < |zones| ==>
      zones[k].zoneIndex < n && zones[k].start == PeriodStart(ref, zones[k].zoneIndex)
  }

  /** Zone starts strictly increase. */
  predicate Chronological(zones: seq<Zone>)
  {
    forall k, m :: 0 <= k < m < |zones| ==> zones[k].start < zones[m].start
  }

  /** Zones come in chronological order, each starting at the start of
      its own day. */
  lemma {:induction false} ZonesOrdered(bars: seq<Bar>, currentIdx: int, n: nat)
    requires 0 <= currentIdx < |bars| && n <= 3
    ensures StartAtTheirDays(ZonesUpTo(bars, currentIdx, n), bars[currentIdx].ts, n)
    ensures Chronological(ZonesUpTo(bars, currentIdx, n))
  {
    if n > 0 {
      ZonesOrdered(bars, currentIdx, n - 1);
      ZonesUpToStep(bars, currentIdx, n);
      OrderedStep(ZonesUpTo(bars, currentIdx, n - 1), ZoneFor(bars, currentIdx, n - 1),
        ZonesUpTo(bars, currentIdx, n), bars[currentIdx].ts, n);
    }
  }

  /** Appending the zone of day `n - 1`, if any, keeps the zones in order. */
  lemma OrderedStep(prev: seq<Zone>, next: Option<Zone>, zones: seq<Zone>, ref: int, n: nat)
    requires n > 0 && StartAtTheirDays(prev, ref, n - 1) && Chronological(prev)
    requires next.Some? ==> next.value.zoneIndex == n - 1 && next.value.start == PeriodStart(ref, n - 1)
    requires next.None? ==> zones == prev
    requires next.Some? ==> zones == prev + [next.value]
    ensures StartAtTheirDays(zones, ref, n) && Chronological(zones)
  {
  }

  /** The result has at most three zones, in chronological order, with the
      day positions of exactly the days that have bars. */
  lemma PivotZonesShape(bars: seq<Bar>, currentIdx: int)
    requires 0 <= currentIdx < |bars|
    ensures var zones := PivotZones(bars, currentIdx);
      && |zones| <= 3
      && Indices(zones) == NonEmptyDays(bars, currentIdx, 3)
      && (forall k :: 0 <= k < |zones| ==> ZoneDescribesDay(bars, currentIdx, zones[k]))
      && (forall k, m :: 0 <= k < m < |zones| ==> zones[k].start < zones[m].start)
  {
    ZonesShape(bars, currentIdx, 3);
  }

  /** With the last bar as reference (as the chart does), the day of that
      bar always has a zone, it is the last zone and the only one in
      progress, and it closes at the last bar; the two earlier days, when
      present, are completed. */
  lemma LastBarZones(bars: seq<Bar>)
    requires |bars| > 0
    ensures var zones := PivotZones(bars, |bars| - 1);
      && |zones| > 0
      && zones[|zones| - 1].future
      && zones[|zones| - 1].zoneIndex == 2
      && zones[|zones| - 1].start == DayStart(bars[|bars| - 1].ts)
      && zones[|zones| - 1].close == bars[|bars| - 1].close
      && zones[|zones| - 1].stopLossBull == Some(BullStop(zones[|zones| - 1].levels))
      && zones[|zones| - 1].stopLossBear == Some(BearStop(zones[|zones| - 1].levels))
      && (forall k :: 0 <= k < |zones| - 1 ==> zones[k].isCompleted && zones[k].riskReward.None?)
  {
    var last := |bars| - 1;
    var ref := bars[last].ts;
    ZonesShape(bars, last, 3);
    ZonesShape(bars, last, 2);
    DayBarsComplete(bars, PeriodStart(ref, 2), last);
    var zones := PivotZones(bars, last);
    var z := ZoneFor(bars, last, 2).value;
    assert zones == ZonesUpTo(bars, last, 2) + [z];
    forall k | 0 <= k < |zones| - 1
      ensures zones[k].isCompleted
    {
      var zk := ZonesUpTo(bars, last, 2)[k];
      assert zones[k] == zk;
      assert ZoneDescribesDay(bars, last, zk) && zk.zoneIndex < 2;
      assert zk.end <= DayStart(ref);
    }
  }

  /** For well-formed bars and the last bar as reference, every zone's close
      lies inside its day's range, so its levels are ordered and, on a day
      with a real range, its trade levels strictly so. */
  lemma LastBarZonesOrdered(bars: seq<Bar>, k: int)
    requires WellFormed(bars) && |bars| > 0 && 0 <= k < |PivotZones(bars, |bars| - 1)|
    ensures var z := PivotZones(bars, |bars| - 1)[k];
      && z.low <= z.close <= z.high
      && z.levels.s2 <= z.levels.m5 <= z.levels.s1 <= z.levels.m2 <= z.levels.pp
      && z.levels.pp <= z.levels.m3 <= z.levels.r1 <= z.levels.m4 <= z.levels.r2
    ensures var z := PivotZones(bars, |bars| - 1)[k];
      z.low < z.high ==> BullStop(z.levels) < BullEntry(z.levels) < z.levels.m4
    ensures var z := PivotZones(bars, |bars| - 1)[k];
      z.low < z.high ==> z.levels.m5 < BearEntry(z.levels) < BearStop(z.levels)
  {
    var last := |bars| - 1;
    ZonesDescribeDays(bars, last, 3);
    var zones := PivotZones(bars, last);
    assert ZoneDescribesDay(bars, last, zones[k]);
    DescribedZoneOrdered(bars, zones[k]);
  }

  /** A zone describing a day, with the last bar as reference: a completed
      day closes at its own last bar and the day in progress at the last
      bar of the series, which is its own last bar; either way the close is
      inside the day's range. */
  lemma DescribedZoneOrdered(bars: seq<Bar>, z: Zone)
    requires WellFormed(bars) && |bars| > 0
    requires ZoneDescribesDay(bars, |bars| - 1, z)
    ensures z.low <= z.close <= z.high
    ensures z.levels.s2 <= z.levels.m5 <= z.levels.s1 <= z.levels.m2 <= z.levels.pp
    ensures z.levels.pp <= z.levels.m3 <= z.levels.r1 <= z.levels.m4 <= z.levels.r2
    ensures z.low < z.high ==> BullStop(z.levels) < BullEntry(z.levels) < z.levels.m4
    ensures z.low < z.high ==> z.levels.m5 < BearEntry(z.levels) < BearStop(z.levels)
  {
    var day := DayBars(bars, z.start);
    DayBarsWellFormed(bars, z.start);
    if !z.isCompleted {
      DayBarsLast(bars, z.start);
    }
    CloseWithinRange(day, |day| - 1);
    if z.low < z.high {
      TradeLevelsOrdered(z.high, z.low, z.close);
    }
  }
}
