/**
 * Market-time arithmetic of src/core/times.cpp.
 *
 * A `LocalTimePoint` (New York local time, one-second resolution) is an
 * integer count of seconds since 1970-01-01 00:00 local time, a Thursday.
 * `floor<days>` is floor division by 86400, which Dafny's `/` computes for a
 * positive divisor. Parsing and formatting the "%F %T" strings is left to
 * the caller: an unparsable string arrives as `None`.
 */
module Times {
  import opened Wrappers
  import Arith

  const SecondsPerDay: int := 86400
  /** 09:30, 15:30 and 16:00 as offsets from midnight. */
  const MarketOpen: int := 9 * 3600 + 30 * 60
  const LastSlot: int := 15 * 3600 + 30 * 60
  const MarketClose: int := 16 * 3600
  /** "1999-01-01 00:00:00", the answer to an unusable input. */
  const Sentinel: int := 10592 * 86400

  /** The interval constants of include/util/times.h, in minutes (D_1 is one session, 6h30). */
  const M1: int := 1
  const M5: int := 5
  const M15: int := 15
  const M30: int := 30
  const H1: int := 60
  const H2: int := 120
  const H4: int := 240
  const D1: int := 390

  function DayOf(t: int): int { t / SecondsPerDay }

  function DayStart(t: int): int { DayOf(t) * SecondsPerDay }

  /** 0 = Sunday, ..., 6 = Saturday. */
  function Weekday(t: int): int { (DayOf(t) + 4) % 7 }

  predicate IsWeekend(t: int) { Weekday(t) == 0 || Weekday(t) == 6 }

  /** The k-th hourly NYSE slot of the day of `t`: 09:30 + k hours. */
  function Slot(t: int, k: int): int { DayStart(t) + MarketOpen + 3600 * k }

  function Abs(x: int): nat { if x < 0 then -x else x }

  /**
   * `closest_nyse_aligned_time`: the hourly slot 09:30, 10:30, ..., 15:30 of
   * the same weekday nearest to the input; the sentinel for an unparsable
   * input or a weekend day.
   */
  function ClosestNyseAlignedTime(input: Option<int>): (r: int)
    ensures input.None? || IsWeekend(input.value) ==> r == Sentinel
  {
    if input.None? then Sentinel
    else
      var t := input.value;
      var day := DayStart(t);
      if IsWeekend(t) then Sentinel
      else
        var open := day + MarketOpen;
        var last := day + LastSlot;
        if t <= open then open
        else if t >= day + MarketClose then last
        else
          var slot := (t - open + 1800) / 3600;
          var aligned := open + 3600 * slot;
          if aligned > last then last else aligned
  }

  /**
   * On a weekday the answer is one of the seven hourly slots, and none of
   * them is nearer; during the session a tie, exactly halfway between two
   * slots, goes to the later slot.
   */
  lemma ClosestIsNearestSlot(t: int)
    requires !IsWeekend(t)
    ensures var r := ClosestNyseAlignedTime(Some(t));
      (exists k :: 0 <= k <= 6 && r == Slot(t, k)) &&
      forall k :: 0 <= k <= 6 ==> Abs(r - t) <= Abs(Slot(t, k) - t)
    ensures var r := ClosestNyseAlignedTime(Some(t));
      DayStart(t) + MarketOpen < t < DayStart(t) + MarketClose && Abs(r - t) == 1800 ==> r > t
  {
    var day := DayStart(t);
    var open := day + MarketOpen;
    var r := ClosestNyseAlignedTime(Some(t));
    if t <= open {
      assert r == Slot(t, 0);
    } else if t >= day + MarketClose {
      assert r == Slot(t, 6);
    } else {
      var slot := (t - open + 1800) / 3600;
      assert 3600 * slot <= t - open + 1800 < 3600 * slot + 3600;
      assert 0 <= slot <= 6;
      assert r == Slot(t, slot);
      forall k | 0 <= k <= 6
        ensures Abs(r - t) <= Abs(Slot(t, k) - t)
      {
        if k < slot {
          assert Slot(t, k) <= Slot(t, slot) - 3600;
        } else if k > slot {
          assert Slot(t, k) >= Slot(t, slot) + 3600;
        }
      }
    }
  }

  /** The clamp to 15:30 never changes an in-session answer: rounding stays within 30 minutes. */
  lemma InSessionWithinHalfHour(t: int)
    requires !IsWeekend(t)
    requires DayStart(t) + MarketOpen <= t < DayStart(t) + MarketClose
    ensures Abs(ClosestNyseAlignedTime(Some(t)) - t) <= 1800
  {
    var day := DayStart(t);
    var open := day + MarketOpen;
    var slot := (t - open + 1800) / 3600;
    assert slot * 3600 <= t - open + 1800 < slot * 3600 + 3600;
    assert open + 3600 * slot <= day + LastSlot;
  }

  /**
   * `market_status(interval)` at the clock reading `now`: on a weekend or
   * after 16:00, (false, -1); before 09:30, (true, whole minutes until the
   * open); during the session, (true, minutes until the next multiple of the
   * interval counted from midnight).
   */
  function MarketStatus(now: int, interval: int): (r: (bool, int))
    requires interval > 0
    ensures var tod := now - DayStart(now);
      (IsWeekend(now) || tod >= MarketClose ==> r == (false, -1)) &&
      (!IsWeekend(now) && tod < MarketOpen ==> r == (true, (MarketOpen - tod) / 60)) &&
      (!IsWeekend(now) && MarketOpen <= tod < MarketClose ==>
         r.0 && 0 <= r.1 < interval && (tod / 60 + r.1) % interval == 0)
  {
    var today := DayStart(now);
    var timeOfDay := now - today;
    if IsWeekend(now) then (false, -1)
    else if timeOfDay < MarketOpen then (true, (MarketOpen - timeOfDay) / 60)
    else if timeOfDay < MarketClose then
      var minsSinceMidnight := timeOfDay / 60;
      var nextBlock := ((minsSinceMidnight + interval - 1) / interval) * interval;
      NextBlockBounds(minsSinceMidnight, interval);
      (true, nextBlock - minsSinceMidnight)
    else (false, -1)
  }

  /** Rounding `m` up to a multiple of `iv` adds less than one interval. */
  lemma NextBlockBounds(m: int, iv: int)
    requires iv > 0
    ensures var next := ((m + iv - 1) / iv) * iv;
      m <= next < m + iv && next % iv == 0
  {
    var q := (m + iv - 1) / iv;
    assert q * iv <= m + iv - 1 < q * iv + iv;
    assert (q * iv) % iv == 0 by { Arith.MultipleMod(q, iv); }
  }

  /** C++ `%` on durations truncates toward zero: the remainder takes the sign of `a`. */
  function CppRem(a: int, b: int): (r: int)
    requires b > 0
    ensures a >= 0 ==> r == a % b
    ensures a < 0 ==> -b < r <= 0 && a <= r && (a - r) % b == 0
    ensures r == 0 <==> a % b == 0
  {
    Arith.NegModZero(a, b);
    if a >= 0 then a % b
    else
      var k := (-a) / b;
      assert a + (-a) % b == (-k) * b;
      Arith.MultipleMod(-k, b);
      -((-a) % b)
  }

  /** Whole minutes from 09:30 of the same day to `tp` (negative before the open). */
  function SessionMinute(tp: int): int
  {
    (tp - (DayStart(tp) + MarketOpen)) / 60
  }

  /** `first_candle_in_interval`: the minute offset from 09:30 is a multiple of the interval. */
  function FirstCandleInInterval(interval: int, tp: int): (r: bool)
    requires interval > 0
    ensures r <==> SessionMinute(tp) % interval == 0
  {
    CppRem(SessionMinute(tp), interval) == 0
  }

  /** `last_candle_in_interval`: the 15-minute candle that closes an interval. */
  function LastCandleInInterval(interval: int, tp: int): (r: bool)
    requires interval > 0
    ensures SessionMinute(tp) >= 0 ==> (r <==> SessionMinute(tp) % interval == interval - 15)
    ensures SessionMinute(tp) < 0 && interval > 15 ==> !r
  {
    CppRem(SessionMinute(tp), interval) == interval - 15
  }

  /** `start_of_interval`: 09:30 of the day of `tp` plus the whole session minutes rounded toward zero to a multiple of the interval. */
  function StartOfInterval(tp: int, interval: int): int
    requires interval > 0
  {
    DayStart(tp) + MarketOpen + 60 * (SessionMinute(tp) - CppRem(SessionMinute(tp), interval))
  }

  /** Rounding a non-negative `m` down to a multiple of `iv` loses less than one interval. */
  lemma FloorToMultiple(m: int, iv: int)
    requires m >= 0 && iv > 0
    ensures var f := m - m % iv; 0 <= f <= m < f + iv && (60 * f) % (60 * iv) == 0
  {
    var q := m / iv;
    assert m - m % iv == q * iv;
    assert 60 * (q * iv) == q * (60 * iv);
    Arith.MultipleMod(q, 60 * iv);
  }

  /**
   * From 09:30 the day is cut into intervals and a time in the session maps
   * to the start of its interval: not after it, less than one interval
   * before it, a whole number of intervals after the open. Before 09:30 the
   * truncating `%` rounds toward the open instead.
   */
  lemma StartOfIntervalBounds(tp: int, interval: int)
    requires interval > 0
    ensures var open := DayStart(tp) + MarketOpen; var r := StartOfInterval(tp, interval);
      (tp >= open ==> open <= r <= tp && tp - r < 60 * interval && (r - open) % (60 * interval) == 0) &&
      (tp < open ==> open + 60 * SessionMinute(tp) <= r <= open)
  {
    var open := DayStart(tp) + MarketOpen;
    var m := SessionMinute(tp);
    assert 60 * m <= tp - open < 60 * m + 60;
    if tp >= open {
      FloorToMultiple(m, interval);
    }
  }
}
