/** Hourly-to-coarser aggregation: `resample(...).agg({Open: first, High: max,
    Low: min, Close: last, Volume: sum}).dropna()` (app/utils.py:129-143,
    app/trend_dashboard.py:100-125). A bucket is identified by a key computed
    from the timestamp; the emitted bar carries that key as its timestamp. */
module Resample {
  import opened Bars
  import opened Wrappers

  type Width = w: int | w > 0 witness 1

  /** A partition of the hourly timeline into consecutive buckets of `width`
      hours whose boundaries are shifted by `phase` hours. */
  datatype Bucketing = Bucketing(width: Width, phase: int)

  /** `'4h'`: 4-hour buckets aligned to local midnight. */
  const FOUR_HOURS := Bucketing(4, 0)

  /** `'D'`: calendar days in the display time zone. */
  const DAYS := Bucketing(24, 0)

  /** The bucket a timestamp falls in (Euclidean division is the floor). */
  function Key(g: Bucketing, ts: int): (k: int)
    ensures k * g.width <= ts + g.phase < (k + 1) * g.width
  {
    (ts + g.phase) / g.width
  }

  /** A later instant never falls in an earlier bucket. */
  lemma KeyMonotone(g: Bucketing, a: int, b: int)
    requires a <= b
    ensures Key(g, a) <= Key(g, b)
  {
    var x, y, w := a + g.phase, b + g.phase, g.width as int;
    assert w * (x / w) <= x <= y < w * (y / w + 1);
    MulCancel(w, x / w, y / w + 1);
  }

  lemma MulCancel(w: int, p: int, q: int)
    requires w > 0 && w * p < w * q
    ensures p < q
  {
    assert w * (q - p) > 0;
  }

  /** The bucket opened by a single bar. */
  function Start(b: Bar, k: int): Bar
  {
    Bar(k, b.open, b.high, b.low, b.close, b.volume)
  }

  /** Folds one more bar into an open bucket. */
  function Merge(acc: Bar, b: Bar): Bar
  {
    Bar(acc.ts, acc.open, Max(acc.high, b.high), Min(acc.low, b.low), b.close, acc.volume + b.volume)
  }

  /** The aggregate row of the non-empty group `ms` with key `k`: first open,
      max high, min low, last close, summed volume. */
  function Aggregate(ms: seq<Bar>, k: int): (r: Bar)
    requires |ms| > 0
    ensures r.ts == k && r.open == ms[0].open && r.close == ms[|ms| - 1].close
    ensures forall i :: 0 <= i < |ms| ==> r.low <= ms[i].low && ms[i].high <= r.high
  {
    Bar(k, ms[0].open, MaxHigh(ms), MinLow(ms), ms[|ms| - 1].close, SumVolume(ms))
  }

  /** The bars of `bars` whose key is `k`, in order. */
  function Members(bars: seq<Bar>, g: Bucketing, k: int): (r: seq<Bar>)
    ensures |r| <= |bars|
    ensures forall i :: 0 <= i < |r| ==> Key(g, r[i].ts) == k
    decreases |bars|
  {
    if |bars| == 0 then []
    else Members(bars[..|bars| - 1], g, k) + (if Key(g, bars[|bars| - 1].ts) == k then [bars[|bars| - 1]] else [])
  }

  /** Every bar with key `k` is a member of the group of `k`. */
  lemma {:induction false} MembersComplete(bars: seq<Bar>, g: Bucketing, k: int, t: int)
    requires 0 <= t < |bars| && Key(g, bars[t].ts) == k
    ensures bars[t] in Members(bars, g, k)
    decreases |bars|
  {
    if t < |bars| - 1 {
      MembersComplete(bars[..|bars| - 1], g, k, t);
    }
  }

  /** The resampled series, as a left fold over the bars: a bar whose key
      matches the open bucket joins it, any other bar opens a new bucket. */
  function Resampled(bars: seq<Bar>, g: Bucketing): seq<Bar>
    decreases |bars|
  {
    if |bars| == 0 then []
    else
      var prev := Resampled(bars[..|bars| - 1], g);
      var b := bars[|bars| - 1];
      if |prev| > 0 && prev[|prev| - 1].ts == Key(g, b.ts) then prev[..|prev| - 1] + [Merge(prev[|prev| - 1], b)]
      else prev + [Start(b, Key(g, b.ts))]
  }

  /** Every emitted row is the aggregate of its non-empty group. */
  ghost predicate RowsAreGroups(bars: seq<Bar>, g: Bucketing, out: seq<Bar>)
  {
    forall j :: 0 <= j < |out| ==>
      |Members(bars, g, out[j].ts)| > 0 && out[j] == Aggregate(Members(bars, g, out[j].ts), out[j].ts)
  }

  ghost predicate KeysIncreasing(out: seq<Bar>)
  {
    forall i, j :: 0 <= i < j < |out| ==> out[i].ts < out[j].ts
  }

  /** Some emitted row has key `k`. */
  ghost predicate HasKey(out: seq<Bar>, k: int)
  {
    exists j :: 0 <= j < |out| && out[j].ts == k
  }

  /** Every input bar's group is emitted. */
  ghost predicate CoversBars(bars: seq<Bar>, g: Bucketing, out: seq<Bar>)
  {
    forall t :: 0 <= t < |bars| ==> HasKey(out, Key(g, bars[t].ts))
  }

  /** What pandas promises of the aggregation: every emitted row is the
      aggregate of a non-empty group, keys are strictly increasing, and every
      input bar's group is emitted. */
  ghost predicate IsGrouping(bars: seq<Bar>, g: Bucketing, out: seq<Bar>)
  {
    RowsAreGroups(bars, g, out) && KeysIncreasing(out) && CoversBars(bars, g, out)
  }

  lemma AggregateSingle(b: Bar, k: int)
    ensures Aggregate([b], k) == Start(b, k)
  {
    assert [b][..0] == [];
    assert SumVolume([b]) == SumVolume([]) + b.volume == b.volume;
    assert MaxHigh([b]) == b.high && MinLow([b]) == b.low;
  }

  lemma AggregateSnoc(ms: seq<Bar>, b: Bar, k: int)
    requires |ms| > 0
    ensures Aggregate(ms + [b], k) == Merge(Aggregate(ms, k), b)
  {
    assert (ms + [b])[..|ms|] == ms;
  }

  lemma {:induction false} MembersNone(bars: seq<Bar>, g: Bucketing, k: int)
    requires forall t :: 0 <= t < |bars| ==> Key(g, bars[t].ts) != k
    ensures Members(bars, g, k) == []
    decreases |bars|
  {
    if |bars| > 0 {
      MembersNone(bars[..|bars| - 1], g, k);
    }
  }

  /** The groups of `init + [b]` are those of `init`, with `b` joining its own. */
  lemma MembersSnoc(init: seq<Bar>, b: Bar, g: Bucketing, k: int)
    ensures Members(init + [b], g, k) == Members(init, g, k) + (if Key(g, b.ts) == k then [b] else [])
  {
    assert (init + [b])[..|init|] == init;
  }

  /** The fold step when the new bar joins the open (last) bucket. */
  lemma JoinShape(init: seq<Bar>, b: Bar, g: Bucketing)
    requires |Resampled(init, g)| > 0
    requires Resampled(init, g)[|Resampled(init, g)| - 1].ts == Key(g, b.ts)
    ensures var prev := Resampled(init, g);
      Resampled(init + [b], g) == prev[..|prev| - 1] + [Merge(prev[|prev| - 1], b)]
  {
    assert (init + [b])[..|init|] == init;
  }

  /** The fold step when the new bar opens a bucket. */
  lemma OpenShape(init: seq<Bar>, b: Bar, g: Bucketing)
    requires !(|Resampled(init, g)| > 0 && Resampled(init, g)[|Resampled(init, g)| - 1].ts == Key(g, b.ts))
    ensures Resampled(init + [b], g) == Resampled(init, g) + [Start(b, Key(g, b.ts))]
  {
    assert (init + [b])[..|init|] == init;
  }

  lemma JoinRows(init: seq<Bar>, b: Bar, g: Bucketing, prev: seq<Bar>, r: seq<Bar>)
    requires RowsAreGroups(init, g, prev) && KeysIncreasing(prev)
    requires |prev| > 0 && prev[|prev| - 1].ts == Key(g, b.ts)
    requires r == prev[..|prev| - 1] + [Merge(prev[|prev| - 1], b)]
    ensures RowsAreGroups(init + [b], g, r)
  {
    var bars := init + [b];
    var kb := Key(g, b.ts);
    var n := |prev|;
    forall j | 0 <= j < |r|
      ensures |Members(bars, g, r[j].ts)| > 0 && r[j] == Aggregate(Members(bars, g, r[j].ts), r[j].ts)
    {
      var k := r[j].ts;
      MembersSnoc(init, b, g, k);
      if j < n - 1 {
        assert r[j] == prev[j];
        assert k < kb;
        assert Members(bars, g, k) == Members(init, g, k);
        assert prev[j] == Aggregate(Members(init, g, k), k);
      } else {
        assert k == kb;
        var ms := Members(init, g, kb);
        assert prev[n - 1] == Aggregate(ms, kb);
        assert Members(bars, g, k) == ms + [b];
        AggregateSnoc(ms, b, kb);
      }
    }
  }

  lemma JoinCovers(init: seq<Bar>, b: Bar, g: Bucketing, prev: seq<Bar>, r: seq<Bar>)
    requires CoversBars(init, g, prev)
    requires |prev| > 0 && prev[|prev| - 1].ts == Key(g, b.ts)
    requires r == prev[..|prev| - 1] + [Merge(prev[|prev| - 1], b)]
    ensures CoversBars(init + [b], g, r)
  {
    var bars := init + [b];
    forall t | 0 <= t < |bars| ensures HasKey(r, Key(g, bars[t].ts)) {
      if t < |init| {
        assert bars[t] == init[t];
        var j :| 0 <= j < |prev| && prev[j].ts == Key(g, init[t].ts);
        assert r[j].ts == prev[j].ts;
      } else {
        assert r[|r| - 1].ts == Key(g, b.ts);
      }
    }
  }

  lemma JoinKeys(prev: seq<Bar>, m: Bar, r: seq<Bar>)
    requires KeysIncreasing(prev) && |prev| > 0 && m.ts == prev[|prev| - 1].ts
    requires r == prev[..|prev| - 1] + [m]
    ensures KeysIncreasing(r)
  {
    assert forall j :: 0 <= j < |r| ==> r[j].ts == prev[j].ts;
  }

  lemma OpenRows(init: seq<Bar>, b: Bar, g: Bucketing, prev: seq<Bar>, r: seq<Bar>)
    requires RowsAreGroups(init, g, prev)
    requires forall t :: 0 <= t < |init| ==> Key(g, init[t].ts) < Key(g, b.ts)
    requires r == prev + [Start(b, Key(g, b.ts))]
    ensures RowsAreGroups(init + [b], g, r)
  {
    var bars := init + [b];
    var kb := Key(g, b.ts);
    MembersNone(init, g, kb);
    forall j | 0 <= j < |r|
      ensures |Members(bars, g, r[j].ts)| > 0 && r[j] == Aggregate(Members(bars, g, r[j].ts), r[j].ts)
    {
      var k := r[j].ts;
      MembersSnoc(init, b, g, k);
      if j < |prev| {
        assert r[j] == prev[j];
        assert |Members(init, g, k)| > 0 && prev[j] == Aggregate(Members(init, g, k), k);
        var t := MemberIndex(init, g, k);
        assert k < kb;
        assert Members(bars, g, k) == Members(init, g, k);
      } else {
        assert k == kb;
        assert Members(bars, g, k) == [b];
        AggregateSingle(b, kb);
      }
    }
  }

  lemma OpenKeys(init: seq<Bar>, b: Bar, g: Bucketing, prev: seq<Bar>, r: seq<Bar>)
    requires RowsAreGroups(init, g, prev) && KeysIncreasing(prev)
    requires forall t :: 0 <= t < |init| ==> Key(g, init[t].ts) < Key(g, b.ts)
    requires r == prev + [Start(b, Key(g, b.ts))]
    ensures KeysIncreasing(r)
  {
    forall j | 0 <= j < |prev| ensures prev[j].ts < Key(g, b.ts) {
      var t := MemberIndex(init, g, prev[j].ts);
    }
  }

  lemma OpenCovers(init: seq<Bar>, b: Bar, g: Bucketing, prev: seq<Bar>, r: seq<Bar>)
    requires CoversBars(init, g, prev)
    requires r == prev + [Start(b, Key(g, b.ts))]
    ensures CoversBars(init + [b], g, r)
  {
    var bars := init + [b];
    forall t | 0 <= t < |bars| ensures HasKey(r, Key(g, bars[t].ts)) {
      if t < |init| {
        assert bars[t] == init[t];
        var j :| 0 <= j < |prev| && prev[j].ts == Key(g, init[t].ts);
        assert r[j].ts == prev[j].ts;
      } else {
        assert r[|prev|].ts == Key(g, b.ts);
      }
    }
  }

  /** A non-empty group has a member with that key. */
  lemma {:induction false} MemberIndex(bars: seq<Bar>, g: Bucketing, k: int) returns (t: int)
    requires |Members(bars, g, k)| > 0
    ensures 0 <= t < |bars| && Key(g, bars[t].ts) == k
    decreases |bars|
  {
    if Key(g, bars[|bars| - 1].ts) == k {
      t := |bars| - 1;
    } else {
      t := MemberIndex(bars[..|bars| - 1], g, k);
    }
  }

  /** Never more rows than bars; the last row carries the last bar's key
      and close. */
  lemma {:induction false} ResampledLast(bars: seq<Bar>, g: Bucketing)
    ensures |Resampled(bars, g)| <= |bars|
    ensures |bars| > 0 ==> |Resampled(bars, g)| > 0
    ensures |bars| > 0 ==> Resampled(bars, g)[|Resampled(bars, g)| - 1].ts == Key(g, bars[|bars| - 1].ts)
    ensures |bars| > 0 ==> Resampled(bars, g)[|Resampled(bars, g)| - 1].close == bars[|bars| - 1].close
    decreases |bars|
  {
    if |bars| > 0 {
      ResampledLast(bars[..|bars| - 1], g);
    }
  }

  /** For strictly increasing timestamps the resampled series is the
      grouping of the bars by key. */
  lemma {:induction false} ResampledIsGrouping(bars: seq<Bar>, g: Bucketing)
    requires StrictlyIncreasing(bars)
    ensures IsGrouping(bars, g, Resampled(bars, g))
    decreases |bars|
  {
    if |bars| > 0 {
      var init, b := bars[..|bars| - 1], bars[|bars| - 1];
      assert bars == init + [b];
      ResampledIsGrouping(init, g);
      GroupingStep(init, b, g, Resampled(init, g), Resampled(bars, g));
    }
  }

  /** The grouping survives one more bar later than all the others. */
  lemma GroupingStep(init: seq<Bar>, b: Bar, g: Bucketing, prev: seq<Bar>, r: seq<Bar>)
    requires prev == Resampled(init, g) && r == Resampled(init + [b], g)
    requires StrictlyIncreasing(init + [b])
    requires IsGrouping(init, g, prev)
    ensures IsGrouping(init + [b], g, r)
  {
    if |prev| > 0 && prev[|prev| - 1].ts == Key(g, b.ts) {
      JoinStep(init, b, g, prev, r);
    } else {
      OpenStep(init, b, g, prev, r);
    }
  }

  /** A bar that does not join the open bucket has a key beyond every
      earlier bar's key. */
  lemma NewKeyAbove(init: seq<Bar>, b: Bar, g: Bucketing)
    requires StrictlyIncreasing(init + [b])
    requires !(|Resampled(init, g)| > 0 && Resampled(init, g)[|Resampled(init, g)| - 1].ts == Key(g, b.ts))
    ensures forall t :: 0 <= t < |init| ==> Key(g, init[t].ts) < Key(g, b.ts)
  {
    var bars := init + [b];
    KeysNondecreasing(bars, g);
    ResampledLast(init, g);
    if |init| > 0 {
      var last := |init| - 1;
      assert bars[last] == init[last] && bars[|init|] == b;
      assert Key(g, init[last].ts) < Key(g, b.ts);
      forall t | 0 <= t < |init| ensures Key(g, init[t].ts) < Key(g, b.ts) {
        assert bars[t] == init[t];
      }
    }
  }

  /** Bucket keys never decrease along a series in time order. */
  lemma KeysNondecreasing(bars: seq<Bar>, g: Bucketing)
    requires StrictlyIncreasing(bars)
    ensures forall t, u :: 0 <= t < u < |bars| ==> Key(g, bars[t].ts) <= Key(g, bars[u].ts)
  {
    forall t, u | 0 <= t < u < |bars|
      ensures Key(g, bars[t].ts) <= Key(g, bars[u].ts)
    {
      KeyMonotone(g, bars[t].ts, bars[u].ts);
    }
  }

  /** The grouping survives a bar that joins the open bucket. */
  lemma JoinStep(init: seq<Bar>, b: Bar, g: Bucketing, prev: seq<Bar>, r: seq<Bar>)
    requires prev == Resampled(init, g) && r == Resampled(init + [b], g)
    requires IsGrouping(init, g, prev)
    requires |prev| > 0 && prev[|prev| - 1].ts == Key(g, b.ts)
    ensures IsGrouping(init + [b], g, r)
  {
    JoinShape(init, b, g);
    JoinRows(init, b, g, prev, r);
    JoinKeys(prev, Merge(prev[|prev| - 1], b), r);
    JoinCovers(init, b, g, prev, r);
  }

  /** The grouping survives a bar whose key is beyond every earlier key. */
  lemma OpenStep(init: seq<Bar>, b: Bar, g: Bucketing, prev: seq<Bar>, r: seq<Bar>)
    requires prev == Resampled(init, g) && r == Resampled(init + [b], g)
    requires IsGrouping(init, g, prev)
    requires StrictlyIncreasing(init + [b])
    requires !(|prev| > 0 && prev[|prev| - 1].ts == Key(g, b.ts))
    ensures IsGrouping(init + [b], g, r)
  {
    NewKeyAbove(init, b, g);
    OpenShape(init, b, g);
    OpenRows(init, b, g, prev, r);
    OpenKeys(init, b, g, prev, r);
    OpenCovers(init, b, g, prev, r);
  }

  /** Some bar of the series closes at `x`. */
  ghost predicate IsSomeClose(bars: seq<Bar>, x: real)
  {
    exists t :: 0 <= t < |bars| && bars[t].close == x
  }

  /** Every row closes at the close of one of the bars: resampling invents
      no price. */
  lemma {:induction false} ResampledClosesAreBarCloses(bars: seq<Bar>, g: Bucketing)
    ensures forall j :: 0 <= j < |Resampled(bars, g)| ==> IsSomeClose(bars, Resampled(bars, g)[j].close)
    decreases |bars|
  {
    if |bars| > 0 {
      var init := bars[..|bars| - 1];
      var b := bars[|bars| - 1];
      ResampledClosesAreBarCloses(init, g);
      var prev := Resampled(init, g);
      var r := Resampled(bars, g);
      forall j | 0 <= j < |r|
        ensures IsSomeClose(bars, r[j].close)
      {
        if j < |r| - 1 {
          assert r[j] == prev[j];
          var t :| 0 <= t < |init| && init[t].close == prev[j].close;
          assert bars[t] == init[t];
        } else {
          assert r[j].close == b.close;
          assert bars[|bars| - 1] == b;
        }
      }
    }
  }

  /** A series whose bars all close at `c` resamples to rows that all close
      at `c`. */
  lemma ResampledConstantClose(bars: seq<Bar>, g: Bucketing, c: real)
    requires forall t :: 0 <= t < |bars| ==> bars[t].close == c
    ensures forall j :: 0 <= j < |Resampled(bars, g)| ==> Resampled(bars, g)[j].close == c
  {
    ResampledClosesAreBarCloses(bars, g);
  }

  /** Positive closes stay positive. */
  lemma ResampledPositiveCloses(bars: seq<Bar>, g: Bucketing)
    requires forall t :: 0 <= t < |bars| ==> bars[t].close > 0.0
    ensures forall j :: 0 <= j < |Resampled(bars, g)| ==> Resampled(bars, g)[j].close > 0.0
  {
    ResampledClosesAreBarCloses(bars, g);
  }

  /** A day key is the four-hour key of the same hour divided by six: the
      four-hour buckets split every day into six. */
  lemma DayKeyOfFourHourKey(t: int)
    ensures Key(DAYS, t) == Key(FOUR_HOURS, t) / 6
  {
    var q, r := t / 4, t % 4;
    var p, s := q / 6, q % 6;
    assert t == 4 * q + r;
    assert q == 6 * p + s;
    assert t == 24 * p + (4 * s + r);
    assert 0 <= 4 * s + r < 24;
  }

  /** Bars of one four-hour bucket share their day, so there are never more
      daily rows than four-hour rows. */
  lemma {:induction false} FewerDaysThanFourHours(bars: seq<Bar>)
    ensures |Resampled(bars, DAYS)| <= |Resampled(bars, FOUR_HOURS)|
    decreases |bars|
  {
    if |bars| > 1 {
      var init := bars[..|bars| - 1];
      var b := bars[|bars| - 1];
      var last := init[|init| - 1];
      FewerDaysThanFourHours(init);
      ResampledLast(init, DAYS);
      ResampledLast(init, FOUR_HOURS);
      DayKeyOfFourHourKey(b.ts);
      DayKeyOfFourHourKey(last.ts);
      if Key(FOUR_HOURS, b.ts) == Key(FOUR_HOURS, last.ts) {
        assert Key(DAYS, b.ts) == Key(DAYS, last.ts);
      }
    }
  }

  /** The aggregation loop: fold each bar into the open bucket, push the
      bucket when a bar with a new key arrives, and push the last one at the end. */
  method Resample(bars: seq<Bar>, g: Bucketing) returns (out: seq<Bar>)
    ensures out == Resampled(bars, g)
  {
    out := [];
    var current: Option<Bar> := None;
    var i := 0;
    while i < |bars|
      invariant 0 <= i <= |bars|
      invariant current.None? <==> i == 0
      invariant (if current.Some? then out + [current.value] else out) == Resampled(bars[..i], g)
    {
      var b := bars[i];
      var k := Key(g, b.ts);
      assert bars[..i + 1][..i] == bars[..i];
      if current.Some? && current.value.ts == k {
        assert (out + [current.value])[..|out|] == out;
        current := Some(Merge(current.value, b));
      } else {
        if current.Some? {
          out := out + [current.value];
        }
        current := Some(Start(b, k));
      }
      i := i + 1;
    }
    if current.Some? {
      out := out + [current.value];
    }
    assert bars[..|bars|] == bars;
  }
}
