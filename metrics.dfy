/**
 * Candle aggregation of src/ind/metrics.cpp: `combine`, `downsample`,
 * `latest_candle`, and the `Metrics` object that keeps the base candles,
 * the 1h/4h/1d series derived from them and the open position.
 *
 * Intervals are minutes, times are seconds (see the Times module), so an
 * interval of `m` minutes spans `60 * m` seconds. An `Indicators` object is
 * represented by its candle series only; the indicator values it derives
 * are not part of this model.
 */
module Metrics {
  import opened Wrappers
  import opened Candles
  import Times
  import Positions

  // ---------------------------------------------------------------------
  // combine
  // ---------------------------------------------------------------------

  /** The highest high of a non-empty group. */
  function MaxHigh(g: seq<Candle>): (m: real)
    requires g != []
    ensures forall i :: 0 <= i < |g| ==> g[i].high <= m
    decreases |g|
  {
    if |g| == 1 then g[0].high
    else
      var m := MaxHigh(g[..|g| - 1]);
      if m < g[|g| - 1].high then g[|g| - 1].high else m
  }

  /** The lowest low of a non-empty group. */
  function MinLow(g: seq<Candle>): (m: real)
    requires g != []
    ensures forall i :: 0 <= i < |g| ==> m <= g[i].low
    decreases |g|
  {
    if |g| == 1 then g[0].low
    else
      var m := MinLow(g[..|g| - 1]);
      if g[|g| - 1].low < m then g[|g| - 1].low else m
  }

  /** The extremes are attained: the combined high and low are some candle's high and low. */
  lemma {:induction false} ExtremesAttained(g: seq<Candle>)
    requires g != []
    ensures exists i :: 0 <= i < |g| && MaxHigh(g) == g[i].high
    ensures exists i :: 0 <= i < |g| && MinLow(g) == g[i].low
    decreases |g|
  {
    if |g| > 1 {
      var init := g[..|g| - 1];
      ExtremesAttained(init);
      var i :| 0 <= i < |init| && MaxHigh(init) == init[i].high;
      var j :| 0 <= j < |init| && MinLow(init) == init[j].low;
      assert init[i] == g[i] && init[j] == g[j];
      var last := |g| - 1;
      if MaxHigh(g) == g[last].high {} else { assert MaxHigh(g) == g[i].high; }
      if MinLow(g) == g[last].low {} else { assert MinLow(g) == g[j].low; }
    } else {
      assert MaxHigh(g) == g[0].high && MinLow(g) == g[0].low;
    }
  }

  function SumVolume(g: seq<Candle>): int
    decreases |g|
  {
    if g == [] then 0 else SumVolume(g[..|g| - 1]) + g[|g| - 1].volume
  }

  lemma {:induction false} SumVolumeAppend(a: seq<Candle>, b: seq<Candle>)
    ensures SumVolume(a + b) == SumVolume(a) + SumVolume(b)
    decreases |b|
  {
    if b == [] {
      assert a + b == a;
    } else {
      assert (a + b)[..|a + b| - 1] == a + b[..|b| - 1];
      SumVolumeAppend(a, b[..|b| - 1]);
    }
  }

  /** What `combine` makes of a group: the first candle's time and open, the
      last candle's close, the extreme high and low, the total volume. */
  function Combined(g: seq<Candle>): Candle
    requires g != []
  {
    Candle(g[0].datetime, g[0].open, MaxHigh(g), MinLow(g), g[|g| - 1].close, SumVolume(g))
  }

  /** `combine(start, end)` over a non-empty range. */
  method Combine(g: seq<Candle>) returns (out: Candle)
    requires g != []
    ensures out.datetime == g[0].datetime && out.open == g[0].open && out.close == g[|g| - 1].close
    ensures out.high == MaxHigh(g) && out.low == MinLow(g) && out.volume == SumVolume(g)
    ensures out == Combined(g)
  {
    out := Candle(g[0].datetime, g[0].open, g[0].high, g[0].low, g[|g| - 1].close, 0);
    for i := 0 to |g|
      invariant out.datetime == g[0].datetime && out.open == g[0].open && out.close == g[|g| - 1].close
      invariant out.high == (if i == 0 then g[0].high else MaxHigh(g[..i]))
      invariant out.low == (if i == 0 then g[0].low else MinLow(g[..i]))
      invariant out.volume == SumVolume(g[..i])
    {
      assert g[..i + 1][..i] == g[..i];
      var high := if out.high < g[i].high then g[i].high else out.high;
      var low := if g[i].low < out.low then g[i].low else out.low;
      out := out.(high := high, low := low, volume := out.volume + g[i].volume);
    }
    assert g[..|g|] == g;
  }

  // ---------------------------------------------------------------------
  // downsample
  // ---------------------------------------------------------------------

  /** The loop state of `downsample`: the groups already closed, the open
      bucket, `current_day` and `bucket_time`. */
  datatype Acc = Acc(groups: seq<seq<Candle>>, bucket: seq<Candle>, day: int, bucketTime: int)

  /** Closes the bucket, when it holds anything. */
  function Flush(groups: seq<seq<Candle>>, bucket: seq<Candle>): seq<seq<Candle>>
  {
    if bucket == [] then groups else groups + [bucket]
  }

  /** A candle of a new day closes the bucket and restarts the bucket time at the candle. */
  function NewDay(a: Acc, c: Candle): Acc
  {
    if Day(c) != a.day then Acc(Flush(a.groups, a.bucket), [], Day(c), c.datetime) else a
  }

  /** A candle at or past the end of the span closes the bucket and moves the bucket time one span on. */
  function NewSpan(a: Acc, c: Candle, span: int): Acc
  {
    if a.bucketTime + span <= c.datetime then Acc(Flush(a.groups, a.bucket), [], a.day, a.bucketTime + span) else a
  }

  /** One iteration of the loop for candle `c`, with the target span in seconds. */
  function Step(a: Acc, c: Candle, span: int): Acc
  {
    var a2 := NewSpan(NewDay(a, c), c, span);
    a2.(bucket := a2.bucket + [c])
  }

  function Run(candles: seq<Candle>, n: nat, init: Acc, span: int): Acc
    requires n <= |candles|
  {
    if n == 0 then init else Step(Run(candles, n - 1, init, span), candles[n - 1], span)
  }

  /** The groups `downsample` combines, when `bucket_time` starts at `start`. */
  function Buckets(candles: seq<Candle>, span: int, start: int): seq<seq<Candle>>
    requires candles != []
  {
    var a := Run(candles, |candles|, Acc([], [], Day(candles[0]), start), span);
    Flush(a.groups, a.bucket)
  }

  function CombineAll(groups: seq<seq<Candle>>): (r: seq<Candle>)
    requires forall k :: 0 <= k < |groups| ==> groups[k] != []
    ensures |r| == |groups|
  {
    seq(|groups|, k requires 0 <= k < |groups| => Combined(groups[k]))
  }

  /** `downsample(candles, source, target)` with `bucket_time` starting at `start`. */
  function DownsampleFrom(candles: seq<Candle>, source: int, target: int, start: int): seq<Candle>
  {
    if candles == [] then []
    else if source == target then candles
    else
      BucketsWellFormed(candles, 60 * target, start);
      CombineAll(Buckets(candles, 60 * target, start))
  }

  /**
   * `downsample` as written: `bucket_time` is a default-constructed time
   * point, the epoch, until the first change of day.
   */
  function DownsampleAsWritten(candles: seq<Candle>, source: int, target: int): seq<Candle>
  {
    DownsampleFrom(candles, source, target, 0)
  }

  /** `downsample` with the first bucket starting at the first candle. */
  function DownsampleCorrected(candles: seq<Candle>, source: int, target: int): seq<Candle>
  {
    DownsampleFrom(candles, source, target, if candles == [] then 0 else candles[0].datetime)
  }

  function Flatten(groups: seq<seq<Candle>>): seq<Candle>
    decreases |groups|
  {
    if groups == [] then [] else Flatten(groups[..|groups| - 1]) + groups[|groups| - 1]
  }

  predicate SameDay(g: seq<Candle>)
  {
    forall i :: 0 <= i < |g| ==> Day(g[i]) == Day(g[0])
  }

  predicate WellFormed(groups: seq<seq<Candle>>)
  {
    forall k :: 0 <= k < |groups| ==> groups[k] != [] && SameDay(groups[k])
  }

  lemma FlushKeeps(groups: seq<seq<Candle>>, bucket: seq<Candle>)
    requires WellFormed(groups) && SameDay(bucket)
    ensures WellFormed(Flush(groups, bucket))
    ensures Flatten(Flush(groups, bucket)) == Flatten(groups) + bucket
  {
    if bucket != [] {
      assert (groups + [bucket])[..|groups|] == groups;
    } else {
      assert Flatten(groups) + bucket == Flatten(groups);
    }
  }

  /** What the loop of `downsample` keeps true after the candles `seen`:
      every candle, in order, is in a closed group or the open bucket;
      closed groups are non-empty and within one day; the bucket holds only
      the current day. */
  predicate Inv(a: Acc, seen: seq<Candle>)
  {
    WellFormed(a.groups) && Flatten(a.groups) + a.bucket == seen &&
    forall i :: 0 <= i < |a.bucket| ==> Day(a.bucket[i]) == a.day
  }

  /** Closing the bucket keeps the invariant, whatever day and bucket time follow. */
  lemma CloseKeeps(a: Acc, seen: seq<Candle>, day: int, bucketTime: int)
    requires Inv(a, seen)
    ensures Inv(Acc(Flush(a.groups, a.bucket), [], day, bucketTime), seen)
  {
    assert SameDay(a.bucket) by {
      forall i | 0 <= i < |a.bucket| ensures Day(a.bucket[i]) == Day(a.bucket[0]) {}
    }
    FlushKeeps(a.groups, a.bucket);
  }

  /** A candle of the current day joins the bucket. */
  lemma AppendKeeps(a: Acc, c: Candle, seen: seq<Candle>)
    requires Inv(a, seen) && Day(c) == a.day
    ensures Inv(a.(bucket := a.bucket + [c]), seen + [c])
  {
    assert Flatten(a.groups) + (a.bucket + [c]) == (Flatten(a.groups) + a.bucket) + [c];
  }

  lemma StepKeeps(a: Acc, c: Candle, span: int, seen: seq<Candle>)
    requires Inv(a, seen)
    ensures Inv(Step(a, c, span), seen + [c])
  {
    var a1 := NewDay(a, c);
    if Day(c) != a.day {
      CloseKeeps(a, seen, Day(c), c.datetime);
    }
    var a2 := NewSpan(a1, c, span);
    if a1.bucketTime + span <= c.datetime {
      CloseKeeps(a1, seen, a1.day, a1.bucketTime + span);
    }
    AppendKeeps(a2, c, seen);
  }

  lemma {:induction false} RunInvariant(candles: seq<Candle>, n: nat, span: int, start: int)
    requires candles != [] && n <= |candles|
    ensures Inv(Run(candles, n, Acc([], [], Day(candles[0]), start), span), candles[..n])
    decreases n
  {
    if n > 0 {
      RunInvariant(candles, n - 1, span, start);
      StepKeeps(Run(candles, n - 1, Acc([], [], Day(candles[0]), start), span), candles[n - 1], span, candles[..n - 1]);
      assert candles[..n] == candles[..n - 1] + [candles[n - 1]];
    }
  }

  /** Closing a bucket appends its combination to the output. */
  lemma CombineAllFlush(groups: seq<seq<Candle>>, bucket: seq<Candle>)
    requires WellFormed(groups) && bucket != []
    ensures forall k :: 0 <= k < |groups + [bucket]| ==> (groups + [bucket])[k] != []
    ensures CombineAll(groups + [bucket]) == CombineAll(groups) + [Combined(bucket)]
  {
  }

  lemma BucketsWellFormed(candles: seq<Candle>, span: int, start: int)
    requires candles != []
    ensures WellFormed(Buckets(candles, span, start))
    ensures Flatten(Buckets(candles, span, start)) == candles
  {
    var a := Run(candles, |candles|, Acc([], [], Day(candles[0]), start), span);
    RunInvariant(candles, |candles|, span, start);
    assert Flatten(a.groups) + a.bucket == candles[..|candles|];
    assert SameDay(a.bucket) by {
      forall i | 0 <= i < |a.bucket| ensures Day(a.bucket[i]) == Day(a.bucket[0]) {}
    }
    FlushKeeps(a.groups, a.bucket);
    assert candles[..|candles|] == candles;
  }

  lemma {:induction false} CombineAllVolume(groups: seq<seq<Candle>>)
    requires forall k :: 0 <= k < |groups| ==> groups[k] != []
    ensures SumVolume(CombineAll(groups)) == SumVolume(Flatten(groups))
    decreases |groups|
  {
    if groups != [] {
      var init := groups[..|groups| - 1];
      CombineAllVolume(init);
      assert CombineAll(groups)[..|groups| - 1] == CombineAll(init);
      SumVolumeAppend(Flatten(init), groups[|groups| - 1]);
    }
  }

  /**
   * Whatever the first bucket time, the downsampled candles are the
   * combinations of consecutive groups that partition the input in order,
   * no group mixes two calendar days, and the total volume is kept.
   */
  lemma DownsamplePartitions(candles: seq<Candle>, source: int, target: int, start: int)
    requires candles != [] && source != target
    ensures var gs := Buckets(candles, 60 * target, start);
      WellFormed(gs) && Flatten(gs) == candles &&
      DownsampleFrom(candles, source, target, start) == CombineAll(gs)
    ensures SumVolume(DownsampleFrom(candles, source, target, start)) == SumVolume(candles)
  {
    BucketsWellFormed(candles, 60 * target, start);
    CombineAllVolume(Buckets(candles, 60 * target, start));
  }

  /** The first day's candles that lie within one target span of the first
      candle form a single bucket once the first bucket starts there. */
  lemma {:induction false} CorrectedFirstBucket(candles: seq<Candle>, span: int, n: nat)
    requires 0 < n <= |candles| && span > 0
    requires forall i :: 0 <= i < n ==> Day(candles[i]) == Day(candles[0])
    requires forall i :: 0 <= i < n ==> candles[0].datetime <= candles[i].datetime < candles[0].datetime + span
    ensures Run(candles, n, Acc([], [], Day(candles[0]), candles[0].datetime), span)
      == Acc([], candles[..n], Day(candles[0]), candles[0].datetime)
    decreases n
  {
    if n > 1 {
      CorrectedFirstBucket(candles, span, n - 1);
      assert candles[..n] == candles[..n - 1] + [candles[n - 1]];
    }
  }

  /** As written, two 15-minute candles of the same morning come out as two
      hourly candles; with the first bucket at the first candle they merge. */
  lemma FirstDayNotDownsampled()
    ensures var day := 20000 * Times.SecondsPerDay + Times.MarketOpen;
      var cs := [Candle(day, 1.0, 2.0, 0.5, 1.5, 10), Candle(day + 900, 1.5, 3.0, 1.0, 2.5, 20)];
      |DownsampleAsWritten(cs, Times.M15, Times.H1)| == 2 &&
      DownsampleCorrected(cs, Times.M15, Times.H1) == [Candle(day, 1.0, 3.0, 0.5, 2.5, 30)]
  {
    var day := 20000 * Times.SecondsPerDay + Times.MarketOpen;
    var c0, c1 := Candle(day, 1.0, 2.0, 0.5, 1.5, 10), Candle(day + 900, 1.5, 3.0, 1.0, 2.5, 20);
    var cs := [c0, c1];
    assert cs[..1] == [c0];
    assert [c0][..0] == [];
    assert SumVolume([c0]) == 10;
    assert SumVolume(cs) == 30;
    assert MaxHigh(cs) == 3.0 && MinLow(cs) == 0.5;
    assert Day(c1) == Day(c0);
    CorrectedFirstBucket(cs, 3600, 2);
    assert cs[..2] == cs;
    var init := Acc([], [], Day(c0), 0);
    assert Run(cs, 0, init, 3600) == init;
    var a1 := Run(cs, 1, init, 3600);
    assert a1 == Step(init, c0, 3600);
    assert a1 == Acc([], [c0], Day(c0), 3600);
  }

  /**
   * `downsample(candles, source, target)`: combines the candles into
   * buckets of `target` minutes that restart at every change of day. The
   * first bucket starts at the first candle (the source starts it at the
   * epoch; see `DownsampleAsWritten`).
   */
  method Downsample(candles: seq<Candle>, source: int, target: int) returns (out: seq<Candle>)
    ensures out == DownsampleCorrected(candles, source, target)
    ensures candles == [] ==> out == []
    ensures source == target ==> out == candles
  {
    if candles == [] {
      return [];
    }
    if source == target {
      return candles;
    }
    var span := 60 * target;
    ghost var init := Acc([], [], Day(candles[0]), candles[0].datetime);
    ghost var a := init;
    out := [];
    var bucket: seq<Candle> := [];
    var currentDay := Day(candles[0]);
    var bucketTime := candles[0].datetime;
    for i := 0 to |candles|
      invariant a == Run(candles, i, init, span) && WellFormed(a.groups)
      invariant out == CombineAll(a.groups)
      invariant bucket == a.bucket && currentDay == a.day && bucketTime == a.bucketTime
    {
      var c := candles[i];
      ghost var a0 := a;
      RunInvariant(candles, i, span, candles[0].datetime);
      assert SameDay(bucket) by {
        forall k | 0 <= k < |bucket| ensures Day(bucket[k]) == Day(bucket[0]) {}
      }
      var now := c.datetime;
      var day := Day(c);
      if day != currentDay {
        out, bucket := FlushBucket(out, bucket, a.groups);
        a := Acc(Flush(a.groups, a.bucket), [], day, now);
        currentDay := day;
        bucketTime := now;
      }
      var end := bucketTime + span;
      if end <= now {
        out, bucket := FlushBucket(out, bucket, a.groups);
        a := Acc(Flush(a.groups, a.bucket), [], a.day, a.bucketTime + span);
        bucketTime := bucketTime + span;
      }
      bucket := bucket + [c];
      a := a.(bucket := a.bucket + [c]);
      assert a == Step(a0, c, span);
    }
    RunInvariant(candles, |candles|, span, candles[0].datetime);
    assert SameDay(bucket) by {
      forall k | 0 <= k < |bucket| ensures Day(bucket[k]) == Day(bucket[0]) {}
    }
    out, bucket := FlushBucket(out, bucket, a.groups);
  }

  /** The repeated `if (!bucket.empty()) { out.push_back(combine(...)); bucket.clear(); }`. */
  method FlushBucket(out: seq<Candle>, bucket: seq<Candle>, ghost groups: seq<seq<Candle>>)
    returns (flushed: seq<Candle>, emptied: seq<Candle>)
    requires WellFormed(groups) && SameDay(bucket) && out == CombineAll(groups)
    ensures WellFormed(Flush(groups, bucket)) && flushed == CombineAll(Flush(groups, bucket)) && emptied == []
  {
    FlushKeeps(groups, bucket);
    flushed, emptied := out, [];
    if bucket != [] {
      var combined := Combine(bucket);
      CombineAllFlush(groups, bucket);
      flushed := out + [combined];
    }
  }

  // ---------------------------------------------------------------------
  // latest_candle
  // ---------------------------------------------------------------------

  /** A candle from 09:30 of its day on. */
  predicate InSession(c: Candle)
  {
    Times.DayStart(c.datetime) + Times.MarketOpen <= c.datetime
  }

  /** Where the backward scan from candle `k` stops: the first index of the
      longest run ending at `k` whose candles are not before `startTime`. */
  function LatestStart(candles: seq<Candle>, startTime: int, k: nat): (s: nat)
    requires k <= |candles|
    ensures s <= k
    ensures forall i :: s <= i < k ==> startTime <= candles[i].datetime
    ensures s > 0 ==> candles[s - 1].datetime < startTime
  {
    if k == 0 then 0
    else if startTime <= candles[k - 1].datetime then LatestStart(candles, startTime, k - 1)
    else k
  }

  /**
   * The scan of `latest_candle` as written, which only stops at a candle
   * before `startTime`: `None` when it would read the element before the
   * first candle.
   */
  function LatestStartAsWritten(candles: seq<Candle>, startTime: int, k: nat): (s: Option<nat>)
    requires k <= |candles|
    ensures s.None? <==> forall i :: 0 <= i < k ==> startTime <= candles[i].datetime
    ensures s.Some? ==> s.value == LatestStart(candles, startTime, k)
  {
    if k == 0 then None
    else if startTime <= candles[k - 1].datetime then LatestStartAsWritten(candles, startTime, k - 1)
    else Some(k)
  }

  /** When every candle is in the last interval the scan as written runs
      off the front; the guarded scan stops at the first candle. */
  lemma LatestStartRunsOffFront()
    ensures var t := 20000 * Times.SecondsPerDay + Times.MarketOpen;
      var cs := [Candle(t, 1.0, 1.0, 1.0, 1.0, 1)];
      LatestStartAsWritten(cs, Times.StartOfInterval(t, Times.H1), 1).None? &&
      LatestStart(cs, Times.StartOfInterval(t, Times.H1), 1) == 0
  {
    var t := 20000 * Times.SecondsPerDay + Times.MarketOpen;
    assert Times.DayStart(t) == 20000 * Times.SecondsPerDay;
    assert Times.SessionMinute(t) == 0;
    assert Times.CppRem(0, Times.H1) == 0;
  }

  /**
   * The candle `latest_candle` returns. `None` stands for the failed
   * `assert(start != end)` of `combine`: the last candle lies before the
   * start of its own interval, which happens before 09:30, where the
   * truncating remainder rounds the interval start up.
   */
  function LatestCandleOf(candles: seq<Candle>, source: int, target: int): (r: Option<Candle>)
    requires target > 0
    ensures r.None? <==> (candles != [] && source != target &&
      candles[|candles| - 1].datetime < Times.StartOfInterval(candles[|candles| - 1].datetime, target))
  {
    if candles == [] then Some(Empty)
    else if source == target then Some(candles[|candles| - 1])
    else
      var last := candles[|candles| - 1].datetime;
      var s := LatestStart(candles, Times.StartOfInterval(last, target), |candles|);
      if s == |candles| then None else Some(Combined(candles[s..]))
  }

  /** From 09:30 on the last candle is in its own interval, so `combine` always gets a candle. */
  lemma LatestCandleInSession(candles: seq<Candle>, source: int, target: int)
    requires target > 0 && candles != [] && InSession(candles[|candles| - 1])
    ensures LatestCandleOf(candles, source, target).Some?
  {
    Times.StartOfIntervalBounds(candles[|candles| - 1].datetime, target);
  }

  /** A single candle at 09:00 already reaches the failed assertion for the hourly series. */
  lemma LatestCandlePreOpen()
    ensures var t := 20000 * Times.SecondsPerDay + Times.MarketOpen - 1800;
      LatestCandleOf([Candle(t, 1.0, 1.0, 1.0, 1.0, 1)], 15, Times.H1).None?
  {
    var t := 20000 * Times.SecondsPerDay + Times.MarketOpen - 1800;
    assert Times.DayStart(t) == 20000 * Times.SecondsPerDay;
    assert Times.SessionMinute(t) == -30;
    assert Times.CppRem(-30, Times.H1) == -30;
  }

  /**
   * `latest_candle(candles, source, target)`: the last candle when no
   * aggregation is needed, otherwise the combination of the trailing
   * candles that lie in the target interval of the last candle; `None`
   * where `combine` would get an empty range.
   */
  method LatestCandle(candles: seq<Candle>, source: int, target: int) returns (r: Option<Candle>)
    requires target > 0
    ensures r == LatestCandleOf(candles, source, target)
    ensures candles == [] ==> r == Some(Empty)
    ensures candles != [] && source == target ==> r == Some(candles[|candles| - 1])
    ensures candles != [] && source != target && r.Some? ==>
      var startTime := Times.StartOfInterval(candles[|candles| - 1].datetime, target);
      exists s :: 0 <= s < |candles| && r.value == Combined(candles[s..]) &&
        (forall i :: s <= i < |candles| ==> startTime <= candles[i].datetime) &&
        (s > 0 ==> candles[s - 1].datetime < startTime)
  {
    if candles == [] {
      return Some(Empty);
    }
    if source == target {
      return Some(candles[|candles| - 1]);
    }
    var lastTime := candles[|candles| - 1].datetime;
    var startTime := Times.StartOfInterval(lastTime, target);
    var start := |candles|;
    while start > 0 && startTime <= candles[start - 1].datetime
      invariant 0 <= start <= |candles|
      invariant LatestStart(candles, startTime, start) == LatestStart(candles, startTime, |candles|)
    {
      start := start - 1;
    }
    assert start == LatestStart(candles, startTime, |candles|);
    if start == |candles| {
      return None;
    }
    var combined := Combine(candles[start..]);
    r := Some(combined);
  }

  // ---------------------------------------------------------------------
  // Metrics
  // ---------------------------------------------------------------------

  /** The highest close seen scanning back from candle `k` while candles are not before `tp`, starting from `m`. */
  function MaxSeen(candles: seq<Candle>, tp: int, k: nat, m: real): (r: real)
    requires k <= |candles|
    ensures m <= r
  {
    if k == 0 || candles[k - 1].datetime < tp then m
    else
      var m' := if m < Price(candles[k - 1]) then Price(candles[k - 1]) else m;
      MaxSeen(candles, tp, k - 1, m')
  }

  predicate Chronological(candles: seq<Candle>)
  {
    forall i, j :: 0 <= i < j < |candles| ==> candles[i].datetime <= candles[j].datetime
  }

  /** The highest price seen only ever takes a close the scan visited. */
  lemma {:induction false} MaxSeenAttained(candles: seq<Candle>, tp: int, k: nat, m: real)
    requires k <= |candles|
    ensures var r := MaxSeen(candles, tp, k, m);
      r == m || exists i :: 0 <= i < k && tp <= candles[i].datetime && r == Price(candles[i])
    decreases k
  {
    if k > 0 && tp <= candles[k - 1].datetime {
      var m' := if m < Price(candles[k - 1]) then Price(candles[k - 1]) else m;
      MaxSeenAttained(candles, tp, k - 1, m');
    }
  }

  /** On chronological candles the scan covers every candle from `tp` on. */
  lemma {:induction false} MaxSeenCovers(candles: seq<Candle>, tp: int, k: nat, m: real, i: nat)
    requires k <= |candles| && Chronological(candles)
    requires i < k && tp <= candles[i].datetime
    ensures Price(candles[i]) <= MaxSeen(candles, tp, k, m)
    decreases k
  {
    assert tp <= candles[k - 1].datetime;
    var m' := if m < Price(candles[k - 1]) then Price(candles[k - 1]) else m;
    if i < k - 1 {
      MaxSeenCovers(candles, tp, k - 1, m', i);
    }
  }

  /** The position after `update_position`: its highest price seen covers the candles since it was opened. */
  function Tracked(candles: seq<Candle>, pos: Option<Positions.Position>): Option<Positions.Position>
  {
    if pos.None? then None
    else Some(pos.value.(maxPriceSeen := MaxSeen(candles, pos.value.tp, |candles|, pos.value.maxPriceSeen)))
  }

  /** The series an indicator holds after `add_to_ind`. */
  function Advanced(series: seq<Candle>, target: int, c: Candle, latest: Candle): seq<Candle>
    requires series != [] && target > 0
  {
    var kept := if series[|series| - 1].datetime != Times.StartOfInterval(c.datetime, target)
                then series else series[..|series| - 1];
    kept + [latest]
  }

  /** The base candles after `push_back`: a candle with the time of the last one replaces it, any other is appended. */
  function Replaced(candles: seq<Candle>, c: Candle): (r: seq<Candle>)
    requires candles != []
    ensures r != [] && r[|r| - 1] == c
    ensures |candles| <= |r| && r[..|r| - 1] <= candles
  {
    (if candles[|candles| - 1].datetime == c.datetime then candles[..|candles| - 1] else candles) + [c]
  }

  class Metrics {
    var candles: seq<Candle>
    /** Minutes per base candle. */
    var interval: int
    /** The candles of `ind_1h`, `ind_4h` and `ind_1d`. */
    var hourly: seq<Candle>
    var fourHourly: seq<Candle>
    var daily: seq<Candle>
    var position: Option<Positions.Position>

    ghost predicate Valid()
      reads this
    {
      candles != [] ==> hourly != [] && fourHourly != [] && daily != []
    }

    /** `has_position`. */
    predicate HasPosition()
      reads this
    {
      position.Some? && position.value.qty != 0.0
    }

    /** `Metrics(candles, interval, position)`: the three series are downsampled from the candles. */
    constructor(candles0: seq<Candle>, interval0: int, pos: Option<Positions.Position>)
      ensures candles == candles0 && interval == interval0
      ensures hourly == DownsampleCorrected(candles0, interval0, Times.H1)
      ensures fourHourly == DownsampleCorrected(candles0, interval0, Times.H4)
      ensures daily == DownsampleCorrected(candles0, interval0, Times.D1)
      ensures position == Tracked(candles0, pos)
      ensures Valid()
    {
      var h1 := Downsample(candles0, interval0, Times.H1);
      var h4 := Downsample(candles0, interval0, Times.H4);
      var d1 := Downsample(candles0, interval0, Times.D1);
      candles := candles0;
      interval := interval0;
      hourly, fourHourly, daily := h1, h4, d1;
      position := None;
      new;
      DownsampleNonEmpty(candles0, interval0, Times.H1);
      DownsampleNonEmpty(candles0, interval0, Times.H4);
      DownsampleNonEmpty(candles0, interval0, Times.D1);
      UpdatePosition(pos);
    }

    /**
     * `update_position(pos)`: records the position and raises its highest
     * price seen to the highest close since the position was opened.
     */
    method UpdatePosition(pos: Option<Positions.Position>)
      modifies this
      ensures position == Tracked(candles, pos)
      ensures candles == old(candles) && interval == old(interval)
      ensures hourly == old(hourly) && fourHourly == old(fourHourly) && daily == old(daily)
      ensures HasPosition() <==> pos.Some? && pos.value.qty != 0.0
      ensures pos.Some? ==> pos.value.maxPriceSeen <= position.value.maxPriceSeen
    {
      position := pos;
      if pos.None? {
        return;
      }
      var p := pos.value;
      var m := p.maxPriceSeen;
      var k := |candles|;
      while k > 0 && p.tp <= candles[k - 1].datetime
        invariant 0 <= k <= |candles|
        invariant p.maxPriceSeen <= m
        invariant MaxSeen(candles, p.tp, k, m) == MaxSeen(candles, p.tp, |candles|, p.maxPriceSeen)
      {
        m := if m < Price(candles[k - 1]) then Price(candles[k - 1]) else m;
        k := k - 1;
      }
      position := Some(p.(maxPriceSeen := m));
    }

    /**
     * `push_back(candle, pos)`: replaces the last candle when the new one
     * has the same time and appends it otherwise; each series drops its
     * last candle unless a new interval starts, then takes the latest
     * combined candle; the position is updated. Returns whether the hourly
     * series started a new candle. `None` stands for the undefined
     * `candles.back()` on no candles and for the failed assertion in
     * `combine`, which only a candle before 09:30 reaches; the series and
     * the position are then left as they were.
     */
    method PushBack(c: Candle, pos: Option<Positions.Position>) returns (newCandle: Option<bool>)
      requires Valid()
      modifies this
      ensures old(candles) == [] ==> newCandle.None? && candles == old(candles)
      ensures old(candles) != [] ==> candles == Replaced(old(candles), c)
      ensures interval == old(interval)
      ensures old(candles) != [] && InSession(c) ==> newCandle.Some?
      ensures newCandle.None? <==> (old(candles) == [] ||
        LatestCandleOf(candles, interval, Times.H1).None? ||
        LatestCandleOf(candles, interval, Times.H4).None? ||
        LatestCandleOf(candles, interval, Times.D1).None?)
      ensures newCandle.None? ==>
        hourly == old(hourly) && fourHourly == old(fourHourly) && daily == old(daily) && position == old(position)
      ensures newCandle.Some? ==>
        hourly == Advanced(old(hourly), Times.H1, c, LatestCandleOf(candles, interval, Times.H1).value) &&
        fourHourly == Advanced(old(fourHourly), Times.H4, c, LatestCandleOf(candles, interval, Times.H4).value) &&
        daily == Advanced(old(daily), Times.D1, c, LatestCandleOf(candles, interval, Times.D1).value) &&
        (newCandle.value <==> old(hourly)[|old(hourly)| - 1].datetime != Times.StartOfInterval(c.datetime, Times.H1)) &&
        position == Tracked(candles, pos)
      ensures Valid()
    {
      if candles == [] {
        return None;
      }
      var cs := Replaced(candles, c);
      candles := cs;
      if InSession(c) {
        LatestCandleInSession(cs, interval, Times.H1);
        LatestCandleInSession(cs, interval, Times.H4);
        LatestCandleInSession(cs, interval, Times.D1);
      }
      var nc, series := AdvanceAll(hourly, fourHourly, daily, cs, interval, c);
      if series.None? {
        return None;
      }
      hourly, fourHourly, daily := series.value.0, series.value.1, series.value.2;
      newCandle := Some(nc);
      UpdatePosition(pos);
    }

    /**
     * The three `add_to_ind` calls of `push_back`, in turn; `None` when one
     * of them reaches the failed assertion of `combine`.
     */
    static method AdvanceAll(hourly: seq<Candle>, fourHourly: seq<Candle>, daily: seq<Candle>, candles: seq<Candle>, interval: int, c: Candle)
      returns (newCandle: bool, series: Option<(seq<Candle>, seq<Candle>, seq<Candle>)>)
      requires hourly != [] && fourHourly != [] && daily != []
      requires candles != [] && candles[|candles| - 1] == c
      ensures var l1, l4, ld := LatestCandleOf(candles, interval, Times.H1),
          LatestCandleOf(candles, interval, Times.H4), LatestCandleOf(candles, interval, Times.D1);
        (series.None? <==> l1.None? || l4.None? || ld.None?) &&
        (series.Some? ==>
          series.value == (Advanced(hourly, Times.H1, c, l1.value), Advanced(fourHourly, Times.H4, c, l4.value), Advanced(daily, Times.D1, c, ld.value)))
      ensures newCandle <==> hourly[|hourly| - 1].datetime != Times.StartOfInterval(c.datetime, Times.H1)
      ensures series.Some? ==> series.value.0 != [] && series.value.1 != [] && series.value.2 != []
    {
      var h1;
      newCandle, h1 := AddToInd(hourly, candles, interval, Times.H1, c);
      if h1.None? {
        return newCandle, None;
      }
      var _, r4 := AddToInd(fourHourly, candles, interval, Times.H4, c);
      if r4.None? {
        return newCandle, None;
      }
      var _, r1 := AddToInd(daily, candles, interval, Times.D1, c);
      if r1.None? {
        return newCandle, None;
      }
      series := Some((h1.value, r4.value, r1.value));
    }

    /** The `add_to_ind` step of `push_back` for one series: whether a new
        interval starts, and the series after it, `None` when `combine`
        gets an empty range. */
    static method AddToInd(series: seq<Candle>, candles: seq<Candle>, interval: int, target: int, c: Candle)
      returns (newCandle: bool, r: Option<seq<Candle>>)
      requires series != [] && target > 0
      requires candles != [] && candles[|candles| - 1] == c
      ensures newCandle <==> series[|series| - 1].datetime != Times.StartOfInterval(c.datetime, target)
      ensures r.None? <==> LatestCandleOf(candles, interval, target).None?
      ensures r.Some? ==> r.value == Advanced(series, target, c, LatestCandleOf(candles, interval, target).value)
    {
      var prevTime := series[|series| - 1].datetime;
      var currTime := c.datetime;
      newCandle := prevTime != Times.StartOfInterval(currTime, target);
      var kept := series;
      if !newCandle {
        kept := kept[..|kept| - 1];
      }
      var latest := LatestCandle(candles, interval, target);
      if latest.None? {
        return newCandle, None;
      }
      r := Some(kept + [latest.value]);
    }
  }

  lemma DownsampleNonEmpty(candles: seq<Candle>, source: int, target: int)
    ensures candles != [] ==> DownsampleCorrected(candles, source, target) != []
  {
    if candles != [] && source != target {
      var gs := Buckets(candles, 60 * target, candles[0].datetime);
      BucketsWellFormed(candles, 60 * target, candles[0].datetime);
      assert gs != [];
    }
  }
}
