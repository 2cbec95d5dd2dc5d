/**
 * The Twelve Data client's request budget of src/core/td_api.cpp: the
 * candle interval chosen from the number of tickers and API keys, and the
 * round-robin choice of an API key under a daily quota of 800 calls and a
 * limit of 8 calls per minute per key.
 *
 * `TimePoint` is a `std::chrono::steady_clock` reading, here an integer
 * count of nanoseconds; the clock is read by the caller and passed in.
 * The interval constants are those of include/times.h, the header this
 * file includes, where D_1 is 8 hours.
 */
module TdApi {
  import opened Wrappers

  const ApiTokens: int := 800
  const MaxCallsMin: int := 8
  /** One minute of steady-clock ticks (nanoseconds). */
  const OneMinute: int := 60_000_000_000

  const M1: int := 1
  const M5: int := 5
  const M15: int := 15
  const M30: int := 30
  const H1: int := 60
  const H2: int := 120
  const H4: int := 240
  const D1: int := 480

  /** The candidate intervals of `get_interval`, finest first. */
  const Intervals: seq<int> := [M15, M30, H1, H2, H4, D1]

  // -------------------------------------------------------------- get_interval

  /**
   * The minutes between refreshes as written: 60 divided by the calls each
   * ticker may make, `(800 * n_apis) / (n_tickers * 8)`. `None` stands for
   * a division by zero: no tickers, no keys, or more than 100 tickers per key.
   */
  function MinutesAsWritten(nTickers: nat, nApis: nat): Option<int>
  {
    if nTickers * 8 == 0 then None
    else
      var perTicker := (ApiTokens * nApis) / (nTickers * 8);
      if perTicker == 0 then None else Some(60 / perTicker)
  }

  lemma DivZeroIff(a: nat, b: nat)
    requires b > 0
    ensures a / b == 0 <==> a < b
  {
    if a >= b {
      assert a == b * (a / b) + a % b;
    }
  }

  /** As written, `get_interval` divides by zero exactly when there are no tickers or more than 100 per key. */
  lemma MinutesAsWrittenUndefined(nTickers: nat, nApis: nat)
    ensures MinutesAsWritten(nTickers, nApis).None? <==> nTickers == 0 || ApiTokens * nApis < nTickers * 8
  {
    if nTickers > 0 {
      DivZeroIff(ApiTokens * nApis, nTickers * 8);
    }
  }

  /** 101 tickers on one key divide by zero. */
  lemma MinutesAsWrittenDividesByZero()
    ensures MinutesAsWritten(101, 1).None?
    ensures MinutesAsWritten(0, 3).None?
  {
  }

  /**
   * The minutes with the two divisions by zero closed: no tickers need no
   * pause, and a budget of less than one call per ticker falls back to the
   * daily interval, as the selection loop does for any value above it.
   */
  function Minutes(nTickers: nat, nApis: nat): int
  {
    if nTickers == 0 then 0
    else
      var perTicker := (ApiTokens * nApis) / (nTickers * 8);
      if perTicker == 0 then D1 else 60 / perTicker
  }

  /** Wherever the formula as written is defined, the corrected one agrees with it; no tickers give 0. */
  lemma MinutesAgree(nTickers: nat, nApis: nat)
    ensures MinutesAsWritten(nTickers, nApis).Some? ==> Minutes(nTickers, nApis) == MinutesAsWritten(nTickers, nApis).value
    ensures nTickers == 0 ==> Minutes(nTickers, nApis) == 0
  {
  }

  /** Less than one call per ticker falls back to the daily interval. */
  lemma MinutesOverBudget(nTickers: nat, nApis: nat)
    requires nTickers > 0 && ApiTokens * nApis < nTickers * 8
    ensures Minutes(nTickers, nApis) == D1
    ensures FirstAtLeast(Minutes(nTickers, nApis), 0) == D1
  {
    DivZeroIff(ApiTokens * nApis, nTickers * 8);
  }

  /** The first candidate interval from index `i` on that is at least `m`, or D_1. */
  function FirstAtLeast(m: int, i: nat): (iv: int)
    requires i <= |Intervals|
    ensures iv in Intervals
    ensures iv == D1 || m <= iv
    ensures forall k :: i <= k < |Intervals| && Intervals[k] < iv ==> Intervals[k] < m
    decreases |Intervals| - i
  {
    if i == |Intervals| then D1
    else if m <= Intervals[i] then Intervals[i]
    else FirstAtLeast(m, i + 1)
  }

  /**
   * `get_interval`: the finest candidate interval that is at least the
   * computed minutes, D_1 when none is.
   */
  method GetInterval(nTickers: nat, nApis: nat) returns (iv: int)
    ensures iv == FirstAtLeast(Minutes(nTickers, nApis), 0)
    ensures iv in Intervals
  {
    var m := Minutes(nTickers, nApis);
    for i := 0 to |Intervals|
      invariant FirstAtLeast(m, i) == FirstAtLeast(m, 0)
    {
      if m <= Intervals[i] {
        return Intervals[i];
      }
    }
    return D1;
  }

  /**
   * While there is at least one call per ticker the pause is at most 60
   * minutes, so the 2h, 4h and 1d candidates are never chosen.
   */
  lemma IntervalAtMostHour(nTickers: nat, nApis: nat)
    requires nTickers > 0 && ApiTokens * nApis >= nTickers * 8
    ensures FirstAtLeast(Minutes(nTickers, nApis), 0) in {M15, M30, H1}
  {
    var perTicker := (ApiTokens * nApis) / (nTickers * 8);
    assert perTicker >= 1 by {
      DivAtLeastOne(ApiTokens * nApis, nTickers * 8);
    }
    assert Minutes(nTickers, nApis) == 60 / perTicker;
    assert 60 / perTicker <= 60;
  }

  lemma DivAtLeastOne(a: int, b: int)
    requires 0 < b <= a
    ensures a / b >= 1
  {
  }

  // ---------------------------------------------------------------- the keys

  /** An API key: the key string, its calls today and the times of its recent calls, oldest first. */
  datatype ApiKey = ApiKey(key: string, dailyCalls: int, callTimestamps: seq<int>)

  predicate Ascending(ts: seq<int>)
  {
    forall a, b :: 0 <= a < b < |ts| ==> ts[a] <= ts[b]
  }

  /** How many timestamps at the front are a minute old or older: the eviction loop pops that many. */
  function Stale(ts: seq<int>, now: int): (d: nat)
    ensures d <= |ts|
    ensures forall k :: 0 <= k < d ==> now - ts[k] >= OneMinute
    ensures d < |ts| ==> now - ts[d] < OneMinute
  {
    if ts == [] || now - ts[0] < OneMinute then 0
    else 1 + Stale(ts[1..], now)
  }

  /** The timestamps the eviction loop leaves. */
  function Evict(ts: seq<int>, now: int): seq<int>
  {
    ts[Stale(ts, now)..]
  }

  /** On a clock that never runs back, every timestamp the eviction leaves is less than a minute old. */
  lemma EvictFresh(ts: seq<int>, now: int)
    requires Ascending(ts) && forall k :: 0 <= k < |ts| ==> ts[k] <= now
    ensures var r := Evict(ts, now);
      Ascending(r) && forall k :: 0 <= k < |r| ==> 0 <= now - r[k] < OneMinute
  {
    var d := Stale(ts, now);
    var r := ts[d..];
    forall k | 0 <= k < |r|
      ensures 0 <= now - r[k] < OneMinute
    {
      assert r[k] == ts[d + k];
      assert ts[d] <= ts[d + k];
    }
    forall a, b | 0 <= a < b < |r|
      ensures r[a] <= r[b]
    {
      assert r[a] == ts[d + a] && r[b] == ts[d + b];
    }
  }

  function Evicted(key: ApiKey, now: int): ApiKey
  {
    key.(callTimestamps := Evict(key.callTimestamps, now))
  }

  /** A key may be used now: under its daily quota and with fewer than 8 calls in the last minute. */
  predicate Available(key: ApiKey, now: int)
  {
    key.dailyCalls < ApiTokens && |Evict(key.callTimestamps, now)| < MaxCallsMin
  }

  /** The key `j` places after `start` in the rotation over `n` keys. */
  function Rot(start: int, j: int, n: int): (k: int)
    requires 0 <= start < n && 0 <= j < n
    ensures 0 <= k < n
  {
    if start + j < n then start + j else start + j - n
  }

  /** How many places after `start` key `k` comes in the rotation; the inverse of `Rot`. */
  function Dist(start: int, k: int, n: int): (j: int)
    requires 0 <= start < n && 0 <= k < n
    ensures 0 <= j < n && Rot(start, j, n) == k
  {
    if start <= k then k - start else k - start + n
  }

  lemma DistRot(start: int, j: int, n: int)
    requires 0 <= start < n && 0 <= j < n
    ensures Dist(start, Rot(start, j, n), n) == j
  {
  }

  /** The cursor step after a key: the next place, wrapping to 0 after the last. */
  function Succ(x: int, n: int): (r: int)
    requires 0 <= x < n
    ensures 0 <= r < n
  {
    if x + 1 < n then x + 1 else 0
  }

  /** `Succ` is the cursor update `(idx + 1) % keys.size()` of the source. */
  lemma SuccMod(x: int, n: int)
    requires 0 <= x < n
    ensures Succ(x, n) == (x + 1) % n
  {
    if x + 1 == n {
      assert (x + 1) % n == 0;
    }
  }

  /** One cursor step moves one place along the rotation, back to `start` after a full turn. */
  lemma NextIndex(start: int, i: int, n: int)
    requires 0 <= start < n && 0 <= i < n
    ensures Succ(Rot(start, i, n), n) == if i + 1 < n then Rot(start, i + 1, n) else start
  {
  }

  /** The first place, counted from `start`, whose key is available; `|keys|` when there is none. */
  function FirstAvailable(keys: seq<ApiKey>, start: int, now: int, i: nat): (o: nat)
    requires 0 <= start < |keys| && i <= |keys|
    ensures i <= o <= |keys|
    ensures o < |keys| ==> Available(keys[Rot(start, o, |keys|)], now)
    ensures forall p :: i <= p < o ==> !Available(keys[Rot(start, p, |keys|)], now)
    decreases |keys| - i
  {
    if i == |keys| then |keys|
    else if Available(keys[Rot(start, i, |keys|)], now) then i
    else FirstAvailable(keys, start, now, i + 1)
  }

  /** A visited key under its quota has its stale timestamps evicted; every other key is left alone. */
  function SweptKey(key: ApiKey, visited: bool, now: int): ApiKey
  {
    if visited && key.dailyCalls < ApiTokens then Evicted(key, now) else key
  }

  /** `keys` is `keys0` after a search from `start` that visited the places 0 to `last`. */
  predicate Swept(keys: seq<ApiKey>, keys0: seq<ApiKey>, start: int, last: int, now: int)
    requires 0 <= start < |keys0|
  {
    |keys| == |keys0| &&
    forall j :: 0 <= j < |keys| ==> keys[j] == SweptKey(keys0[j], Dist(start, j, |keys0|) <= last, now)
  }

  /** A key as the class keeps it: within its quota, at most 8 recent calls, oldest first, none after `now`. */
  predicate KeyValid(key: ApiKey, now: int)
  {
    0 <= key.dailyCalls <= ApiTokens && |key.callTimestamps| <= MaxCallsMin &&
    Ascending(key.callTimestamps) && forall k :: 0 <= k < |key.callTimestamps| ==> key.callTimestamps[k] <= now
  }

  /** Sweeping a key keeps it valid. */
  lemma SweptKeyValid(key: ApiKey, visited: bool, now: int)
    requires KeyValid(key, now)
    ensures KeyValid(SweptKey(key, visited, now), now)
  {
    if visited && key.dailyCalls < ApiTokens {
      var ts := key.callTimestamps;
      var d := Stale(ts, now);
      EvictFresh(ts, now);
      forall k | 0 <= k < |ts| - d
        ensures ts[d..][k] <= now
      {
        assert ts[d..][k] == ts[d + k];
      }
    }
  }

  /** Visiting place `i` sweeps the one key there, which no earlier place has touched. */
  lemma SweepStep(keys: seq<ApiKey>, keys0: seq<ApiKey>, start: int, i: int, now: int, swept: ApiKey)
    requires 0 <= start < |keys0| && 0 <= i < |keys0| && Swept(keys, keys0, start, i - 1, now)
    requires swept == SweptKey(keys[Rot(start, i, |keys0|)], true, now)
    ensures keys[Rot(start, i, |keys0|)] == keys0[Rot(start, i, |keys0|)]
    ensures Swept(keys[Rot(start, i, |keys0|) := swept], keys0, start, i, now)
  {
    DistRot(start, i, |keys0|);
  }

  /** Swept keys stay valid. */
  lemma SweptValid(keys: seq<ApiKey>, keys0: seq<ApiKey>, start: int, last: int, now: int)
    requires 0 <= start < |keys0| && Swept(keys, keys0, start, last, now)
    requires forall j :: 0 <= j < |keys0| ==> KeyValid(keys0[j], now)
    ensures forall j :: 0 <= j < |keys| ==> KeyValid(keys[j], now)
  {
    forall j | 0 <= j < |keys|
      ensures KeyValid(keys[j], now)
    {
      SweptKeyValid(keys0[j], Dist(start, j, |keys0|) <= last, now);
    }
  }

  lemma Unique(keys: seq<ApiKey>, start: int, now: int, i: nat)
    requires 0 <= start < |keys| && i < |keys|
    requires forall p :: 0 <= p < i ==> !Available(keys[Rot(start, p, |keys|)], now)
    requires Available(keys[Rot(start, i, |keys|)], now)
    ensures FirstAvailable(keys, start, now, 0) == i
  {
  }

  lemma NoneAvailable(keys: seq<ApiKey>, start: int, now: int)
    requires 0 <= start < |keys|
    requires forall p :: 0 <= p < |keys| ==> !Available(keys[Rot(start, p, |keys|)], now)
    ensures FirstAvailable(keys, start, now, 0) == |keys|
    ensures forall j :: 0 <= j < |keys| ==> !Available(keys[j], now)
  {
    forall j | 0 <= j < |keys|
      ensures !Available(keys[j], now)
    {
      var p := Dist(start, j, |keys|);
      assert Rot(start, p, |keys|) == j;
    }
  }

  /**
   * The eviction loop of `try_get_key`: pops timestamps a minute old or
   * older off the front.
   */
  method EvictStale(ts: seq<int>, now: int) returns (rest: seq<int>)
    ensures rest == Evict(ts, now)
  {
    rest := ts;
    ghost var popped := 0;
    while rest != []
      invariant 0 <= popped <= Stale(ts, now)
      invariant rest == ts[popped..]
      invariant rest == [] ==> popped == Stale(ts, now)
      decreases |rest|
    {
      if now - rest[0] < OneMinute {
        break;
      }
      rest := rest[1..];
      popped := popped + 1;
    }
  }

  /**
   * One visit of the search in `try_get_key`: a key at its daily quota is
   * skipped untouched; otherwise its stale timestamps are evicted and it
   * is taken when fewer than 8 calls remain in the last minute.
   */
  method VisitKey(key: ApiKey, now: int) returns (swept: ApiKey, available: bool)
    ensures swept == SweptKey(key, true, now)
    ensures available <==> Available(key, now)
  {
    if key.dailyCalls >= ApiTokens {
      return key, false;
    }
    var timestamps := EvictStale(key.callTimestamps, now);
    swept := key.(callTimestamps := timestamps);
    available := |timestamps| < MaxCallsMin;
  }

  /** A key charged for a call made at `now`: one more call today, `now` recorded last. */
  function Charged(key: ApiKey, now: int): (c: ApiKey)
    ensures c.key == key.key
  {
    key.(dailyCalls := key.dailyCalls + 1, callTimestamps := key.callTimestamps + [now])
  }

  /** Charging a valid key that was available keeps it valid: the quota and the per-minute cap still hold. */
  lemma ChargedValid(key: ApiKey, now: int)
    requires KeyValid(key, now) && key.dailyCalls < ApiTokens && |key.callTimestamps| < MaxCallsMin
    ensures KeyValid(Charged(key, now), now)
  {
    var ts := Charged(key, now).callTimestamps;
    assert forall k :: 0 <= k < |key.callTimestamps| ==> ts[k] == key.callTimestamps[k];
  }

  /**
   * The search loop of `try_get_key` over the keys `keys0` and the cursor
   * `start`: returns the key taken (or -1), the keys after eviction and
   * the new cursor.
   */
  method Search(keys0: seq<ApiKey>, start: int, now: int) returns (k: int, keys: seq<ApiKey>, idx: int)
    requires 0 <= start < |keys0|
    ensures var n, o := |keys0|, FirstAvailable(keys0, start, now, 0);
      k == (if o < n then Rot(start, o, n) else -1) &&
      idx == (if o < n - 1 then Rot(start, o + 1, n) else start) &&
      Swept(keys, keys0, start, o, now)
    ensures k == -1 <==> forall j :: 0 <= j < |keys0| ==> !Available(keys0[j], now)
    ensures k != -1 ==> 0 <= k < |keys| && keys[k] == Evicted(keys0[k], now) && Available(keys0[k], now)
  {
    var n := |keys0|;
    keys, idx := keys0, start;
    for i := 0 to n
      invariant idx == if i < n then Rot(start, i, n) else start
      invariant forall p :: 0 <= p < i ==> !Available(keys0[Rot(start, p, n)], now)
      invariant Swept(keys, keys0, start, i - 1, now)
    {
      k := idx;
      NextIndex(start, i, n);
      idx := Succ(idx, n);

      var swept, available := VisitKey(keys[k], now);
      SweepStep(keys, keys0, start, i, now, swept);
      keys := keys[k := swept];
      if available {
        Unique(keys0, start, now, i);
        DistRot(start, i, n);
        return;
      }
    }
    NoneAvailable(keys0, start, now);
    k := -1;
  }

  class TD {
    var keys: seq<ApiKey>
    var idx: int
    const interval: int

    /** The cursor names a key, or is 0 when there are none. */
    predicate Valid()
      reads this
    {
      (|keys| == 0 ==> idx == 0) && (|keys| > 0 ==> 0 <= idx < |keys|)
    }

    /**
     * Every key is valid at `now`: within its quota, with at most 8
     * recorded calls, oldest first, none after `now` (the steady clock
     * never runs back).
     */
    predicate Current(now: int)
      reads this
    {
      forall j :: 0 <= j < |keys| ==> KeyValid(keys[j], now)
    }

    /** The constructor: the interval from the ticker count, and every configured key unused. */
    constructor (nTickers: nat, apiKeys: seq<string>)
      ensures Valid() && forall now :: Current(now)
      ensures interval == FirstAtLeast(Minutes(nTickers, |apiKeys|), 0)
      ensures |keys| == |apiKeys| && idx == 0
      ensures forall j :: 0 <= j < |apiKeys| ==> keys[j] == ApiKey(apiKeys[j], 0, [])
    {
      var iv := GetInterval(nTickers, |apiKeys|);
      interval := iv;
      keys := seq(|apiKeys|, j requires 0 <= j < |apiKeys| => ApiKey(apiKeys[j], 0, []));
      idx := 0;
    }

    /**
     * `try_get_key`: walks the keys once from the cursor, evicting stale
     * timestamps of every visited key under quota, and returns the first
     * available key, or -1 when there is none. The cursor moves one place
     * per key visited.
     */
    method TryGetKey(now: int) returns (k: int)
      requires Valid() && Current(now)
      modifies this
      ensures Valid() && Current(now)
      ensures |old(keys)| == 0 ==> k == -1 && keys == old(keys) && idx == old(idx)
      ensures |old(keys)| > 0 ==>
        var n, o := |old(keys)|, FirstAvailable(old(keys), old(idx), now, 0);
        k == (if o < n then Rot(old(idx), o, n) else -1) &&
        idx == (if o < n - 1 then Rot(old(idx), o + 1, n) else old(idx)) &&
        Swept(keys, old(keys), old(idx), o, now)
      ensures k == -1 <==> forall j :: 0 <= j < |old(keys)| ==> !Available(old(keys)[j], now)
      ensures k != -1 ==> 0 <= k < |keys| && keys[k] == Evicted(old(keys)[k], now) && Available(old(keys)[k], now)
    {
      if |keys| == 0 {
        return -1;
      }
      var swept, next;
      k, swept, next := Search(keys, idx, now);
      SweptValid(swept, keys, idx, FirstAvailable(keys, idx, now, 0), now);
      keys, idx := swept, next;
    }

    /**
     * `get_key` without its wait: the chosen key is charged one call and
     * records `now`; `None` when every key is exhausted, where the source
     * sleeps 30 seconds and asks again.
     */
    method GetKey(now: int) returns (key: Option<string>)
      requires Valid() && Current(now)
      modifies this
      ensures Valid() && Current(now)
      ensures key.None? <==> forall j :: 0 <= j < |old(keys)| ==> !Available(old(keys)[j], now)
      ensures |old(keys)| == 0 ==> key.None? && keys == old(keys) && idx == old(idx)
      ensures |old(keys)| > 0 ==>
        var n, o := |old(keys)|, FirstAvailable(old(keys), old(idx), now, 0);
        idx == (if o < n - 1 then Rot(old(idx), o + 1, n) else old(idx))
      ensures key.None? && |old(keys)| > 0 ==> Swept(keys, old(keys), old(idx), |old(keys)|, now)
      ensures key.Some? ==>
        var n, o := |old(keys)|, FirstAvailable(old(keys), old(idx), now, 0);
        0 < n && o < n && |keys| == n &&
        var k := Rot(old(idx), o, n);
        var e := Evicted(old(keys)[k], now);
        key.value == old(keys)[k].key && keys[k] == Charged(e, now) &&
        Swept(keys[k := e], old(keys), old(idx), o, now)
    {
      var k := TryGetKey(now);
      if k == -1 {
        return None;
      }
      var apiKey := keys[k];
      ghost var swept := keys;
      EvictFresh(old(keys)[k].callTimestamps, now);
      ChargedValid(apiKey, now);
      keys := keys[k := Charged(apiKey, now)];
      assert keys[k := apiKey] == swept;
      assert forall j :: 0 <= j < |keys| && j != k ==> keys[j] == swept[j];
      return Some(apiKey.key);
    }
  }

  // ----------------------------------------------------------- interval_to_str

  /** The Twelve Data name of an interval; "" for an interval it has no name for. */
  function IntervalToStr(m: int): (s: string)
    ensures s == "" <==> m !in {M1, M5, M15, M30, H1, H2, H4, D1}
  {
    if m == M1 then "1min"
    else if m == M5 then "5min"
    else if m == M15 then "15min"
    else if m == M30 then "30min"
    else if m == H1 then "1h"
    else if m == H2 then "2h"
    else if m == H4 then "4h"
    else if m == D1 then "1day"
    else ""
  }

  /** No two intervals share a name. */
  lemma IntervalToStrInjective(a: int, b: int)
    requires IntervalToStr(a) == IntervalToStr(b) != ""
    ensures a == b
  {
  }
}
