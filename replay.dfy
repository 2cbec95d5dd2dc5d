/**
 * The replay mode of src/core/replay.cpp: candle histories fetched once,
 * each with a cursor at the first candle of its last trading day, served
 * back as if live. `time_series` hands out the candles before the cursor,
 * `real_time` the candle pair at the cursor, and `roll_fwd` moves every
 * cursor one candle on per hour of simulated calls.
 *
 * The candles come in as a parameter (the source fetches them through the
 * Twelve Data client or reads them from a file); the `replay_en` setting is
 * the constant `enabled`.
 */
module Replay {
  import opened Wrappers
  import opened Candles
  import TdApi

  /** `time_series` refuses histories shorter than this. */
  const MinSize: int := 300

  /** One symbol's history and the index of the candle being replayed. */
  datatype Timeline = Timeline(candles: seq<Candle>, idx: int)

  // ---------------------------------------------------- the starting cursor

  /** The first place at or before `i` from which every candle up to `i` falls on day `d`. */
  function DayStartFrom(cs: seq<Candle>, d: int, i: nat): (s: nat)
    requires i <= |cs|
    ensures s <= i
    ensures forall j :: s <= j < i ==> Day(cs[j]) == d
    ensures s == 0 || Day(cs[s - 1]) != d
  {
    if i == 0 || Day(cs[i - 1]) != d then i else DayStartFrom(cs, d, i - 1)
  }

  /** The index of the first candle of the last day in `cs`. */
  function LastDayStart(cs: seq<Candle>): (s: nat)
    requires cs != []
    ensures s < |cs|
    ensures forall j :: s <= j < |cs| ==> Day(cs[j]) == Day(cs[|cs| - 1])
    ensures s == 0 || Day(cs[s - 1]) != Day(cs[|cs| - 1])
  {
    DayStartFrom(cs, Day(cs[|cs| - 1]), |cs|)
  }

  /**
   * The constructor's backward walk as written: from the last candle it
   * steps back while the candle is on the last day, then one forward. The
   * index is unsigned, so a step back from 0 wraps around and the next
   * read is out of bounds: `None`.
   */
  function WalkAsWritten(cs: seq<Candle>, date: int, idx: nat): Option<nat>
    requires idx < |cs|
  {
    if Day(cs[idx]) != date then Some(idx + 1)
    else if idx == 0 then None
    else WalkAsWritten(cs, date, idx - 1)
  }

  function StartAsWritten(cs: seq<Candle>): Option<nat>
    requires cs != []
  {
    WalkAsWritten(cs, Day(cs[|cs| - 1]), |cs| - 1)
  }

  lemma {:induction false} WalkAsWrittenAgrees(cs: seq<Candle>, date: int, idx: nat)
    requires idx < |cs|
    ensures WalkAsWritten(cs, date, idx).None? <==> forall j :: 0 <= j <= idx ==> Day(cs[j]) == date
    ensures WalkAsWritten(cs, date, idx).Some? ==> WalkAsWritten(cs, date, idx).value == DayStartFrom(cs, date, idx + 1)
    decreases idx
  {
    if Day(cs[idx]) != date {
    } else if idx == 0 {
    } else {
      WalkAsWrittenAgrees(cs, date, idx - 1);
    }
  }

  /**
   * The walk as written reads out of bounds exactly when every candle is
   * on the last day, and otherwise lands where `LastDayStart` does.
   */
  lemma StartAsWrittenOutOfBounds(cs: seq<Candle>)
    requires cs != []
    ensures StartAsWritten(cs).None? <==> forall j :: 0 <= j < |cs| ==> Day(cs[j]) == Day(cs[|cs| - 1])
    ensures StartAsWritten(cs).Some? ==> StartAsWritten(cs).value == LastDayStart(cs)
  {
    WalkAsWrittenAgrees(cs, Day(cs[|cs| - 1]), |cs| - 1);
  }

  /** A one-candle history already makes the walk as written step below index 0. */
  lemma StartAsWrittenSingleCandle(c: Candle)
    ensures StartAsWritten([c]).None?
  {
  }

  /** The backward walk, stopping at the front instead of stepping past it. */
  method FindDayStart(cs: seq<Candle>) returns (idx: nat)
    requires cs != []
    ensures idx == LastDayStart(cs)
  {
    var date := Day(cs[|cs| - 1]);
    idx := |cs| - 1;
    while idx > 0 && Day(cs[idx - 1]) == date
      invariant 0 <= idx < |cs|
      invariant DayStartFrom(cs, date, idx + 1) == DayStartFrom(cs, date, |cs|)
      invariant Day(cs[idx]) == date
    {
      idx := idx - 1;
    }
  }

  // ------------------------------------------------------------ construction

  /**
   * The store the constructor builds from the fetched histories, in the
   * order of the symbol list: an empty history is skipped and a symbol
   * already present keeps its first timeline (`try_emplace`).
   */
  function Built(fetched: seq<(string, seq<Candle>)>): map<string, Timeline>
  {
    if fetched == [] then map[]
    else
      var m := Built(fetched[..|fetched| - 1]);
      var (symbol, cs) := fetched[|fetched| - 1];
      if cs == [] || symbol in m then m else m[symbol := Timeline(cs, LastDayStart(cs))]
  }

  /** A symbol is stored exactly when some non-empty history was fetched for it. */
  lemma {:induction false} BuiltKeys(fetched: seq<(string, seq<Candle>)>, symbol: string)
    ensures symbol in Built(fetched) <==> exists i :: 0 <= i < |fetched| && fetched[i].0 == symbol && fetched[i].1 != []
  {
    if fetched != [] {
      var init := fetched[..|fetched| - 1];
      BuiltKeys(init, symbol);
      if symbol in Built(init) {
        var i :| 0 <= i < |init| && init[i].0 == symbol && init[i].1 != [];
        assert fetched[i] == init[i];
      }
      if exists i :: 0 <= i < |fetched| && fetched[i].0 == symbol && fetched[i].1 != [] {
        var i :| 0 <= i < |fetched| && fetched[i].0 == symbol && fetched[i].1 != [];
        if i < |init| {
          assert init[i] == fetched[i];
        }
      }
    }
  }

  /**
   * Every stored timeline is the first non-empty history fetched for its
   * symbol, with the cursor at the first candle of its last day.
   */
  lemma {:induction false} BuiltFirstWins(fetched: seq<(string, seq<Candle>)>, i: nat)
    requires i < |fetched| && fetched[i].1 != []
    requires forall j :: 0 <= j < i ==> fetched[j].0 != fetched[i].0 || fetched[j].1 == []
    ensures fetched[i].0 in Built(fetched)
    ensures Built(fetched)[fetched[i].0] == Timeline(fetched[i].1, LastDayStart(fetched[i].1))
  {
    var init := fetched[..|fetched| - 1];
    if i < |init| {
      assert forall j :: 0 <= j <= i ==> init[j] == fetched[j];
      BuiltFirstWins(init, i);
    } else {
      BuiltKeys(init, fetched[i].0);
    }
  }

  /** A non-empty history whose cursor is not before its first candle. */
  predicate TimelineValid(t: Timeline)
  {
    t.candles != [] && 0 <= t.idx
  }

  lemma {:induction false} BuiltValid(fetched: seq<(string, seq<Candle>)>)
    ensures forall s :: s in Built(fetched) ==> TimelineValid(Built(fetched)[s]) && Built(fetched)[s].idx < |Built(fetched)[s].candles|
  {
    if fetched != [] {
      BuiltValid(fetched[..|fetched| - 1]);
    }
  }

  /** `calls_per_hour`: how many refreshes of the client's interval fit in an hour, rounded down. */
  function CallsPerHour(interval: int): (c: nat)
    requires interval in TdApi.Intervals
  {
    TdApi.H1 / interval
  }

  /**
   * An interval of an hour or less gives at least one call per hour; the
   * 2-hour, 4-hour and day intervals give 0, under which every tick moves
   * the cursors.
   */
  lemma CallsPerHourValues(interval: int)
    requires interval in TdApi.Intervals
    ensures CallsPerHour(interval) >= 1 <==> interval <= TdApi.H1
    ensures CallsPerHour(interval) == 4 <==> interval == TdApi.M15
  {
  }

  /** With enough API keys for every ticker, the client's interval gives at least one call per hour. */
  lemma CallsPerHourWithinBudget(nTickers: nat, nApis: nat)
    requires nTickers > 0 && TdApi.ApiTokens * nApis >= nTickers * TdApi.MaxCallsMin
    ensures CallsPerHour(TdApi.FirstAtLeast(TdApi.Minutes(nTickers, nApis), 0)) >= 1
  {
    TdApi.IntervalAtMostHour(nTickers, nApis);
  }

  // ----------------------------------------------------------- the replay

  /** Every timeline one candle on. */
  function AdvanceAll(store: map<string, Timeline>): (r: map<string, Timeline>)
    ensures r.Keys == store.Keys
    ensures forall s :: s in r ==> r[s].candles == store[s].candles && r[s].idx == store[s].idx + 1
  {
    map s | s in store :: store[s].(idx := store[s].idx + 1)
  }

  /** The replay state `roll_fwd` changes: the tick counter and the timelines. */
  datatype Clock = Clock(nTicks: nat, store: map<string, Timeline>)

  /** One `roll_fwd`. */
  function Tick(enabled: bool, callsPerHour: nat, c: Clock): Clock
  {
    if !enabled then c
    else if c.nTicks + 1 < callsPerHour then c.(nTicks := c.nTicks + 1)
    else Clock(0, AdvanceAll(c.store))
  }

  /** `k` calls of `roll_fwd`. */
  function Ticks(enabled: bool, callsPerHour: nat, c: Clock, k: nat): Clock
  {
    if k == 0 then c else Tick(enabled, callsPerHour, Ticks(enabled, callsPerHour, c, k - 1))
  }

  /** Disabled, `roll_fwd` changes nothing however often it is called. */
  lemma {:induction false} TicksDisabled(callsPerHour: nat, c: Clock, k: nat)
    ensures Ticks(false, callsPerHour, c, k) == c
  {
    if k > 0 {
      TicksDisabled(callsPerHour, c, k - 1);
    }
  }

  /** Within an hour the cursors stay put and only the counter moves. */
  lemma {:induction false} TicksWithinHour(callsPerHour: nat, store: map<string, Timeline>, k: nat)
    requires k < callsPerHour
    ensures Ticks(true, callsPerHour, Clock(0, store), k) == Clock(k, store)
  {
    if k > 0 {
      TicksWithinHour(callsPerHour, store, k - 1);
    }
  }

  /**
   * From a fresh counter, `calls_per_hour` ticks move every cursor exactly
   * one candle on and reset the counter.
   */
  lemma OneHour(callsPerHour: nat, store: map<string, Timeline>)
    requires callsPerHour >= 1
    ensures Ticks(true, callsPerHour, Clock(0, store), callsPerHour) == Clock(0, AdvanceAll(store))
  {
    TicksWithinHour(callsPerHour, store, callsPerHour - 1);
  }

  /** With `calls_per_hour` of 0 every tick moves the cursors. */
  lemma EveryTickWhenNoCalls(c: Clock)
    ensures Tick(true, 0, c) == Clock(0, AdvanceAll(c.store))
  {
  }

  /** The candles `time_series` serves from a timeline: those before the cursor. */
  function History(t: Timeline): (r: seq<Candle>)
    requires 0 <= t.idx <= |t.candles|
    ensures |r| == t.idx && r <= t.candles
  {
    t.candles[..t.idx]
  }

  /**
   * Moving the cursor on appends the candle it was on to the history, and
   * that candle becomes the previous one of the next `real_time` pair.
   */
  lemma AdvanceExtendsHistory(t: Timeline)
    requires 0 <= t.idx < |t.candles|
    ensures History(t.(idx := t.idx + 1)) == History(t) + [t.candles[t.idx]]
    ensures t.idx + 1 < |t.candles| ==> t.(idx := t.idx + 1).candles[t.idx] == t.candles[t.idx]
  {
    assert t.candles[..t.idx + 1] == t.candles[..t.idx] + [t.candles[t.idx]];
  }

  class Replay {
    var store: map<string, Timeline>
    var nTicks: nat
    const callsPerHour: nat
    const enabled: bool

    /** Every timeline non-empty with a cursor at or after its start; the counter below an hour. */
    predicate Valid()
      reads this
    {
      (forall s :: s in store ==> TimelineValid(store[s])) &&
      (nTicks == 0 || nTicks < callsPerHour)
    }

    /**
     * The constructor: nothing when replay is off; otherwise one timeline
     * per symbol with a non-empty history, its cursor at the first candle
     * of the history's last day.
     */
    constructor (enabled: bool, interval: int, fetched: seq<(string, seq<Candle>)>)
      requires interval in TdApi.Intervals
      ensures Valid()
      ensures this.enabled == enabled && callsPerHour == CallsPerHour(interval) && nTicks == 0
      ensures store == if enabled then Built(fetched) else map[]
    {
      this.enabled := enabled;
      callsPerHour := CallsPerHour(interval);
      nTicks := 0;
      var m: map<string, Timeline> := map[];
      if enabled {
        for i := 0 to |fetched|
          invariant m == Built(fetched[..i])
        {
          assert fetched[..i + 1][..i] == fetched[..i];
          var (symbol, cs) := fetched[i];
          if cs == [] {
            continue;
          }
          var idx := FindDayStart(cs);
          if symbol !in m {
            m := m[symbol := Timeline(cs, idx)];
          }
        }
        assert fetched[..|fetched|] == fetched;
        BuiltValid(fetched);
      }
      store := m;
    }

    /**
     * `time_series`: the candles before the cursor; empty for an unknown
     * symbol or a history shorter than 300 candles.
     */
    method TimeSeries(symbol: string) returns (r: seq<Candle>)
      requires Valid()
      requires symbol in store && |store[symbol].candles| >= MinSize ==> store[symbol].idx <= |store[symbol].candles|
      ensures symbol !in store || |store[symbol].candles| < MinSize ==> r == []
      ensures symbol in store && |store[symbol].candles| >= MinSize ==>
        |r| == store[symbol].idx && r <= store[symbol].candles && r == History(store[symbol])
    {
      if symbol !in store {
        return [];
      }
      var t := store[symbol];
      if |t.candles| < MinSize {
        return [];
      }
      r := t.candles[..t.idx];
    }

    /**
     * `real_time`: the candle before the cursor and the candle at it;
     * `None` for an unknown symbol, where the source returns a pair of
     * default candles.
     */
    method RealTime(symbol: string) returns (r: Option<(Candle, Candle)>)
      requires Valid()
      requires symbol in store ==> 1 <= store[symbol].idx < |store[symbol].candles|
      ensures r.None? <==> symbol !in store
      ensures r.Some? ==>
        var t := store[symbol];
        r.value.0 == t.candles[t.idx - 1] && r.value.1 == t.candles[t.idx] &&
        History(t.(idx := t.idx + 1)) == History(t) + [r.value.1]
    {
      if symbol !in store {
        return None;
      }
      var t := store[symbol];
      AdvanceExtendsHistory(t);
      r := Some((t.candles[t.idx - 1], t.candles[t.idx]));
    }

    /**
     * `roll_fwd`: a no-op when replay is off; otherwise counts a tick and,
     * once the count reaches `calls_per_hour`, resets it and moves every
     * cursor one candle on.
     */
    method RollFwd()
      requires Valid()
      modifies this
      ensures Valid()
      ensures Clock(nTicks, store) == Tick(enabled, callsPerHour, Clock(old(nTicks), old(store)))
    {
      if !enabled {
        return;
      }
      nTicks := nTicks + 1;
      if nTicks < callsPerHour {
        return;
      }
      nTicks := 0;
      store := AdvanceAll(store);
    }

    /**
     * `has_data`: false for an empty store, otherwise whether the cursor of
     * the timeline the map happens to list first is still inside its
     * history. The map's order is unspecified, so the choice is arbitrary.
     */
    method HasData() returns (r: bool)
      ensures store == map[] ==> !r
      ensures r ==> exists s :: s in store && store[s].idx < |store[s].candles|
      ensures (forall s :: s in store ==> store[s].idx < |store[s].candles|) && store != map[] ==> r
      ensures (forall s :: s in store ==> store[s].idx >= |store[s].candles|) ==> !r
    {
      if store == map[] {
        return false;
      }
      var s :| s in store;
      r := store[s].idx < |store[s].candles|;
    }
  }
}
