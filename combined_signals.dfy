/**
 * The combined signal of src/sig/combined_signals.cpp: the 1h, 4h and 1d
 * signal ratings and the trend filters are merged into one rating, which
 * a stop-loss hit or a near earnings date may then override.
 */
module CombinedSignals {
  import opened Signals
  import Times

  datatype Confidence = Low | Medium | High

  datatype Trend = StrongUptrend | ModerateUptrend | NeutralOrSideways | Caution | Bearish | None

  /** A trend filter: its verdict, how sure it is, and a short label (`str`). */
  datatype Filter = Filter(trend: Trend, conf: Confidence, str: string)

  /**
   * The filter map keyed by timeframe minutes. `evaluate_filters` always
   * fills exactly the keys 0 (cross-timeframe alignment), 60, 240 and 390,
   * so the map is a record with one list per key.
   */
  datatype Filters = Filters(align: seq<Filter>, h1: seq<Filter>, h4: seq<Filter>, d1: seq<Filter>)

  /** The map's entries in ascending key order, the order a `std::map` is walked in. */
  function Entries(f: Filters): (es: seq<(int, seq<Filter>)>)
    ensures |es| == 4
    ensures forall k :: 0 <= k < 3 ==> es[k].0 < es[k + 1].0
  {
    [(0, f.align), (Times.H1, f.h1), (Times.H4, f.h4), (Times.D1, f.d1)]
  }

  // ---------------------------------------------------------------- disqualify

  predicate StrongBearish(f: Filter)
  {
    f.trend == Bearish && f.conf == High
  }

  /** The number of high-confidence bearish filters in `fs`. */
  function CountStrongBearish(fs: seq<Filter>): (n: nat)
    ensures n <= |fs|
    ensures n == 0 <==> forall k :: 0 <= k < |fs| ==> !StrongBearish(fs[k])
  {
    if fs == [] then 0
    else CountStrongBearish(fs[..|fs| - 1]) + (if StrongBearish(fs[|fs| - 1]) then 1 else 0)
  }

  lemma {:induction false} CountStrongBearishAppend(a: seq<Filter>, b: seq<Filter>)
    ensures CountStrongBearish(a + b) == CountStrongBearish(a) + CountStrongBearish(b)
    decreases |b|
  {
    if b != [] {
      var b' := b[..|b| - 1];
      assert (a + b)[..|a + b| - 1] == a + b';
      CountStrongBearishAppend(a, b');
    } else {
      assert a + b == a;
    }
  }

  /**
   * The disqualifying condition: two strong bearish daily filters, or one
   * together with two strong bearish 4h filters.
   */
  predicate Disqualified(f: Filters)
  {
    var d, h := CountStrongBearish(f.d1), CountStrongBearish(f.h4);
    d >= 2 || (d >= 1 && h >= 2)
  }

  /** More 1d or 4h filters never lift a disqualification. */
  lemma DisqualifiedMonotone(f: Filters, more1d: seq<Filter>, more4h: seq<Filter>)
    requires Disqualified(f)
    ensures Disqualified(f.(d1 := f.d1 + more1d, h4 := f.h4 + more4h))
  {
    CountStrongBearishAppend(f.d1, more1d);
    CountStrongBearishAppend(f.h4, more4h);
  }

  /** `disqualify`: counts the strong bearish 1d and 4h filters. */
  method Disqualify(filters: Filters) returns (b: bool)
    ensures b <==> Disqualified(filters)
  {
    var strongBearish1D := 0;
    var d1 := filters.d1;
    for i := 0 to |d1|
      invariant strongBearish1D == CountStrongBearish(d1[..i])
    {
      var f := d1[i];
      if f.trend == Bearish {
        if f.conf == High {
          strongBearish1D := strongBearish1D + 1;
        }
      }
      assert d1[..i + 1][..i] == d1[..i];
    }
    assert d1[..|d1|] == d1;

    var strongBearish4H := 0;
    var h4 := filters.h4;
    for i := 0 to |h4|
      invariant strongBearish4H == CountStrongBearish(h4[..i])
    {
      var f := h4[i];
      if f.trend == Bearish && f.conf == High {
        strongBearish4H := strongBearish4H + 1;
      }
      assert h4[..i + 1][..i] == h4[..i];
    }
    assert h4[..|h4|] == h4;

    if strongBearish1D >= 2 {
      return true;
    }
    if strongBearish1D >= 1 && strongBearish4H >= 2 {
      return true;
    }
    return false;
  }

  // ---------------------------------------------------------------- FilterBias

  /** The weight a filter adds to the net bias, by its confidence. */
  function Weight(c: Confidence): (w: real)
    ensures 0.3 <= w <= 1.0
    ensures w == 1.0 <==> c == High
  {
    match c
    case High => 1.0
    case Medium => 0.6
    case Low => 0.3
  }

  /** The label of a timeframe key: "1h", "4h", "1d", and "align" for any other key. */
  function Label(inv: int): (l: string)
    ensures inv == Times.H1 ==> l == "1h"
    ensures inv == Times.H4 ==> l == "4h"
    ensures inv == Times.D1 ==> l == "1d"
    ensures inv !in {Times.H1, Times.H4, Times.D1} ==> l == "align"
  {
    if inv == Times.H1 then "1h"
    else if inv == Times.H4 then "4h"
    else if inv == Times.D1 then "1d"
    else "align"
  }

  /** A filter together with the label of its timeframe. */
  datatype Tagged = Tagged(timeframe: string, filter: Filter)

  function Tag(tf: string, fs: seq<Filter>): (ts: seq<Tagged>)
    ensures |ts| == |fs|
  {
    seq(|fs|, k requires 0 <= k < |fs| => Tagged(tf, fs[k]))
  }

  /** The filters of all entries in order, each tagged with its timeframe label. */
  function Flat(es: seq<(int, seq<Filter>)>): seq<Tagged>
  {
    if es == [] then []
    else
      var e := es[|es| - 1];
      Flat(es[..|es| - 1]) + Tag(Label(e.0), e.1)
  }

  predicate Bullish(t: Trend)
  {
    t == StrongUptrend || t == ModerateUptrend
  }

  /** The key item a high-confidence filter with a label contributes: "<timeframe>: <label>". */
  function Noted(t: Tagged): (items: seq<string>)
    ensures |items| <= 1
    ensures items != [] <==> t.filter.conf == High && t.filter.str != []
  {
    if t.filter.conf == High && t.filter.str != [] then [t.timeframe + ": " + t.filter.str] else []
  }

  /** The running totals of the `FilterBias` constructor. */
  datatype Bias = Bias(netBullish: real, netBearish: real, strongBullish: nat, strongBearish: nat, keyItems: seq<string>)

  /** One filter read: bullish and bearish filters add their weight and, when strong, count and note. */
  function BiasStep(b: Bias, t: Tagged): Bias
  {
    var f := t.filter;
    var strong := if f.conf == High then 1 else 0;
    if Bullish(f.trend) then
      Bias(b.netBullish + Weight(f.conf), b.netBearish, b.strongBullish + strong, b.strongBearish, b.keyItems + Noted(t))
    else if f.trend == Bearish then
      Bias(b.netBullish, b.netBearish + Weight(f.conf), b.strongBullish, b.strongBearish + strong, b.keyItems + Noted(t))
    else b
  }

  function BiasOf(items: seq<Tagged>): Bias
  {
    if items == [] then Bias(0.0, 0.0, 0, 0, [])
    else BiasStep(BiasOf(items[..|items| - 1]), items[|items| - 1])
  }

  /** The number of filters with a bullish (resp. bearish) trend. */
  function CountTrend(items: seq<Tagged>, bullish: bool): (n: nat)
    ensures n <= |items|
  {
    if items == [] then 0
    else
      var t := items[|items| - 1].filter.trend;
      CountTrend(items[..|items| - 1], bullish) + (if (bullish && Bullish(t)) || (!bullish && t == Bearish) then 1 else 0)
  }

  /**
   * Each strong filter adds 1.0 and every other one at least 0.3: the net
   * bias is at least the strong count and at most the number of filters on
   * that side, and every key item comes from a strong filter.
   */
  lemma {:induction false} BiasBounds(items: seq<Tagged>)
    ensures var b := BiasOf(items);
      b.strongBullish as real <= b.netBullish <= CountTrend(items, true) as real &&
      b.strongBearish as real <= b.netBearish <= CountTrend(items, false) as real &&
      |b.keyItems| <= b.strongBullish + b.strongBearish
    decreases |items|
  {
    if items != [] {
      BiasBounds(items[..|items| - 1]);
    }
  }

  lemma {:induction false} BiasStrongBearishAppend(a: seq<Tagged>, b: seq<Tagged>)
    ensures BiasOf(a + b).strongBearish == BiasOf(a).strongBearish + BiasOf(b).strongBearish
    decreases |b|
  {
    if b != [] {
      var b' := b[..|b| - 1];
      assert (a + b)[..|a + b| - 1] == a + b';
      BiasStrongBearishAppend(a, b');
    } else {
      assert a + b == a;
    }
  }

  lemma {:induction false} BiasStrongBearishTag(tf: string, fs: seq<Filter>)
    ensures BiasOf(Tag(tf, fs)).strongBearish == CountStrongBearish(fs)
    decreases |fs|
  {
    if fs != [] {
      var fs' := fs[..|fs| - 1];
      assert Tag(tf, fs)[..|fs| - 1] == Tag(tf, fs');
      BiasStrongBearishTag(tf, fs');
    }
  }

  /** The first three key items, as the constructor keeps them. */
  function Top3(items: seq<string>): (r: seq<string>)
    ensures |r| <= 3 && |r| <= |items|
    ensures r == items[..|r|]
    ensures |items| <= 3 ==> r == items
  {
    if |items| > 3 then items[..3] else items
  }

  /** The items joined with single spaces. */
  function Join(items: seq<string>): string
  {
    if items == [] then ""
    else Join(items[..|items| - 1]) + (if |items| > 1 then " " else "") + items[|items| - 1]
  }

  lemma {:induction false} JoinLength(items: seq<string>)
    ensures items != [] ==> |Join(items)| == |items| - 1 + SumLengths(items)
    ensures items == [] ==> Join(items) == ""
    decreases |items|
  {
    if |items| > 1 {
      JoinLength(items[..|items| - 1]);
    }
  }

  function SumLengths(items: seq<string>): nat
  {
    if items == [] then 0 else SumLengths(items[..|items| - 1]) + |items[|items| - 1]|
  }

  /** The fields of a constructed `FilterBias`. */
  datatype FilterBias = FilterBias(netBullish: real, netBearish: real, strongBullish: nat, strongBearish: nat, keySignals: string)

  function FilterBiasOf(f: Filters): FilterBias
  {
    var b := BiasOf(Flat(Entries(f)));
    FilterBias(b.netBullish, b.netBearish, b.strongBullish, b.strongBearish, Join(Top3(b.keyItems)))
  }

  /** The strong bearish count of the bias sums the four timeframes' counts. */
  lemma FilterBiasStrongBearish(f: Filters)
    ensures FilterBiasOf(f).strongBearish ==
      CountStrongBearish(f.align) + CountStrongBearish(f.h1) + CountStrongBearish(f.h4) + CountStrongBearish(f.d1)
  {
    var es := Entries(f);
    var t0, t1, t2, t3 := Tag("align", f.align), Tag("1h", f.h1), Tag("4h", f.h4), Tag("1d", f.d1);
    assert es[..1][..0] == [];
    assert Flat(es[..1]) == [] + t0 == t0;
    assert es[..2][..1] == es[..1];
    assert Flat(es[..2]) == t0 + t1;
    assert es[..3][..2] == es[..2];
    assert Flat(es[..3]) == t0 + t1 + t2;
    assert es[..4][..3] == es[..3];
    assert es[..4] == es;
    assert Flat(es) == t0 + t1 + t2 + t3;
    BiasStrongBearishTag("align", f.align);
    BiasStrongBearishTag("1h", f.h1);
    BiasStrongBearishTag("4h", f.h4);
    BiasStrongBearishTag("1d", f.d1);
    BiasStrongBearishAppend(t0, t1);
    BiasStrongBearishAppend(t0 + t1, t2);
    BiasStrongBearishAppend(t0 + t1 + t2, t3);
  }

  /** A disqualified filter set always shows at least two strong bearish filters in its bias. */
  lemma DisqualifiedIsBearish(f: Filters)
    requires Disqualified(f)
    ensures FilterBiasOf(f).strongBearish >= 2
  {
    FilterBiasStrongBearish(f);
  }

  /**
   * What `FilterBias` promises: weights of 1.0, 0.6 or 0.3, and at most
   * three key items, the first ones found, in the key signals.
   */
  lemma FilterBiasProperties(f: Filters)
    ensures var fb := FilterBiasOf(f); var tagged := Flat(Entries(f));
      fb.strongBullish as real <= fb.netBullish <= CountTrend(tagged, true) as real &&
      fb.strongBearish as real <= fb.netBearish <= CountTrend(tagged, false) as real &&
      exists key: seq<string> :: |key| <= 3 && |key| <= |BiasOf(tagged).keyItems| && key == BiasOf(tagged).keyItems[..|key|] && fb.keySignals == Join(key)
  {
    var tagged := Flat(Entries(f));
    BiasBounds(tagged);
    var key := Top3(BiasOf(tagged).keyItems);
    assert FilterBiasOf(f).keySignals == Join(key);
  }

  lemma BiasSnoc(done: seq<Tagged>, tf: string, fs: seq<Filter>, j: nat)
    requires j < |fs|
    ensures BiasOf(done + Tag(tf, fs[..j + 1])) == BiasStep(BiasOf(done + Tag(tf, fs[..j])), Tagged(tf, fs[j]))
  {
    var next := done + Tag(tf, fs[..j + 1]);
    assert next[..|next| - 1] == done + Tag(tf, fs[..j]);
  }

  lemma JoinSnoc(items: seq<string>, i: nat)
    requires i < |items|
    ensures Join(items[..i + 1]) == Join(items[..i]) + (if i > 0 then " " else "") + items[i]
  {
    assert items[..i + 1][..i] == items[..i];
  }

  /**
   * The body of the constructor's inner loop: one filter of timeframe
   * `tfLabel` read into the running totals.
   */
  method ReadFilter(b: Bias, tfLabel: string, f: Filter) returns (next: Bias)
    ensures next == BiasStep(b, Tagged(tfLabel, f))
  {
    var netBullish, netBearish, strongBullish, strongBearish, keyItems :=
      b.netBullish, b.netBearish, b.strongBullish, b.strongBearish, b.keyItems;
    var weight := if f.conf == High then 1.0 else if f.conf == Medium then 0.6 else 0.3;
    if f.trend == StrongUptrend || f.trend == ModerateUptrend {
      netBullish := netBullish + weight;
      if f.conf == High {
        strongBullish := strongBullish + 1;
        if f.str != [] {
          keyItems := keyItems + [tfLabel + ": " + f.str];
        }
      }
    } else if f.trend == Bearish {
      netBearish := netBearish + weight;
      if f.conf == High {
        strongBearish := strongBearish + 1;
        if f.str != [] {
          keyItems := keyItems + [tfLabel + ": " + f.str];
        }
      }
    }
    next := Bias(netBullish, netBearish, strongBullish, strongBearish, keyItems);
  }

  /** The inner loop of the `FilterBias` constructor: every filter of one timeframe read in turn. */
  method ReadFilters(bias: Bias, ghost done: seq<Tagged>, tfLabel: string, filterList: seq<Filter>) returns (next: Bias)
    requires bias == BiasOf(done)
    ensures next == BiasOf(done + Tag(tfLabel, filterList))
  {
    next := bias;
    assert done + Tag(tfLabel, filterList[..0]) == done;
    for j := 0 to |filterList|
      invariant next == BiasOf(done + Tag(tfLabel, filterList[..j]))
    {
      BiasSnoc(done, tfLabel, filterList, j);
      next := ReadFilter(next, tfLabel, filterList[j]);
    }
    assert filterList[..|filterList|] == filterList;
  }

  /** The loop that joins the key items, a space between neighbours. */
  method JoinItems(keyItems: seq<string>) returns (keySignals: string)
    ensures keySignals == Join(keyItems)
  {
    keySignals := "";
    for i := 0 to |keyItems|
      invariant keySignals == Join(keyItems[..i])
    {
      if i > 0 {
        keySignals := keySignals + " ";
      }
      keySignals := keySignals + keyItems[i];
      JoinSnoc(keyItems, i);
    }
    assert keyItems[..|keyItems|] == keyItems;
  }

  /** The `FilterBias` constructor: one pass over the filter map, then the first three key items joined. */
  method NewFilterBias(filters: Filters) returns (fb: FilterBias)
    ensures fb == FilterBiasOf(filters)
  {
    var bias := Bias(0.0, 0.0, 0, 0, []);
    var entries := Entries(filters);
    for t := 0 to |entries|
      invariant bias == BiasOf(Flat(entries[..t]))
    {
      var inv, filterList := entries[t].0, entries[t].1;
      bias := ReadFilters(bias, Flat(entries[..t]), Label(inv), filterList);
      assert entries[..t + 1][..t] == entries[..t];
    }
    assert entries[..|entries|] == entries;

    var keyItems := bias.keyItems;
    if |keyItems| > 3 {
      keyItems := keyItems[..3];
    }
    var keySignals := JoinItems(keyItems);
    fb := FilterBias(bias.netBullish, bias.netBearish, bias.strongBullish, bias.strongBearish, keySignals);
  }

  // --------------------------------------------------------- contextual_rating

  /**
   * The 1h rating after the 1d, 4h and filter adjustments of
   * `contextual_rating`, before the disqualification check.
   */
  function AdjustedRating(sig1h: Rating, sig4h: Rating, sig1d: Rating, fb: FilterBias, hasPosition: bool): Rating
  {
    match sig1h
    case Entry =>
      var after1d := if sig1d == Exit || sig1d == Rating.Caution then Watchlist else Entry;
      var after4h := if sig4h == Exit && after1d == Entry then Mixed else after1d;
      if fb.strongBullish < 3 && fb.strongBearish >= 2 then Watchlist else after4h
    case Watchlist =>
      if (sig1d == Entry || sig1d == Watchlist) && sig4h == Entry && fb.strongBullish >= 2 then Entry
      else if sig1d == Entry && fb.netBullish > 2.0 then Entry
      else if sig1d == Exit || fb.strongBearish >= 2 then Rating.Caution
      else Watchlist
    case Exit =>
      if !(sig1d == Exit || sig4h == Exit) && sig1d == Entry && !hasPosition then Rating.Caution else Exit
    case None =>
      if sig1d == Entry && fb.strongBullish >= 2 then Watchlist
      else if sig4h == Entry && sig1d != Exit then Watchlist
      else if sig1d == Exit || fb.strongBearish >= 2 then Rating.Caution
      else sig1h
    case Mixed =>
      if sig1d == Entry && fb.strongBullish >= 2 then Watchlist
      else if sig4h == Entry && sig1d != Exit then Watchlist
      else if sig1d == Exit || fb.strongBearish >= 2 then Rating.Caution
      else sig1h
    case _ => sig1h
  }

  /** The position adjustments: Caution is held cautiously with a position, and Exit needs one. */
  function FitToPosition(r: Rating, hasPosition: bool): Rating
  {
    if r == Rating.Caution && hasPosition then HoldCautiously
    else if r == Exit && !hasPosition then Rating.Caution
    else r
  }

  /** A Watchlist 1h rating is upgraded when the 4h and 1d ratings or the filters support it. */
  predicate WatchlistUpgrade(sig4h: Rating, sig1d: Rating, fb: FilterBias)
  {
    ((sig1d == Entry || sig1d == Watchlist) && sig4h == Entry && fb.strongBullish >= 2) ||
    (sig1d == Entry && fb.netBullish > 2.0)
  }

  /**
   * The rating `contextual_rating` returns, branch by branch. A 1h Entry
   * stays Entry exactly when the 1d rating does not conflict, the 4h
   * rating is not Exit and the filters are not bearish without being
   * excellent; it becomes Watchlist on a 1d conflict or bearish filters
   * and Mixed on a 4h Exit otherwise. A 1h Watchlist is upgraded to Entry
   * exactly on 4h and 1d support or a 1d Entry with a net bullish bias over
   * 2, else turns to Caution on a 1d Exit or two strong bearish filters.
   * A neutral or mixed 1h rating becomes Watchlist or Caution likewise. A
   * disqualified filter set gives Skip, Caution is held cautiously with a
   * position and an Exit without a position is only Caution.
   */
  function ContextualRatingOf(sig1h: Rating, sig4h: Rating, sig1d: Rating, filters: Filters, hasPosition: bool): (r: Rating)
    ensures Disqualified(filters) ==> r == Skip
    ensures r == Skip ==> Disqualified(filters) || sig1h == Skip
    ensures r == Exit ==> sig1h == Exit && hasPosition
    ensures hasPosition ==> r != Rating.Caution
    ensures r == Entry ==> sig1h in {Entry, Watchlist}
    ensures var fb := FilterBiasOf(filters); sig1h == Entry && !Disqualified(filters) ==>
      (r == Entry <==> sig1d !in {Exit, Rating.Caution} && sig4h != Exit && (fb.strongBullish >= 3 || fb.strongBearish < 2))
    ensures var fb := FilterBiasOf(filters);
      (sig1h == Entry && !Disqualified(filters) &&
       (sig1d in {Exit, Rating.Caution} || (fb.strongBullish < 3 && fb.strongBearish >= 2))) ==> r == Watchlist
    ensures var fb := FilterBiasOf(filters);
      (sig1h == Entry && !Disqualified(filters) &&
       sig1d !in {Exit, Rating.Caution} && sig4h == Exit && (fb.strongBullish >= 3 || fb.strongBearish < 2)) ==> r == Mixed
    ensures var fb := FilterBiasOf(filters); sig1h == Watchlist && !Disqualified(filters) ==>
      (r == Entry <==> WatchlistUpgrade(sig4h, sig1d, fb))
    ensures var fb := FilterBiasOf(filters); sig1h == Watchlist && !Disqualified(filters) && !WatchlistUpgrade(sig4h, sig1d, fb) ==>
      r == (if sig1d == Exit || fb.strongBearish >= 2 then (if hasPosition then HoldCautiously else Rating.Caution) else Watchlist)
    ensures sig1h == Exit && !Disqualified(filters) ==> r == (if hasPosition then Exit else Rating.Caution)
    ensures var fb := FilterBiasOf(filters); sig1h in {Rating.None, Mixed} && !Disqualified(filters) ==>
      (r == Watchlist <==> (sig1d == Entry && fb.strongBullish >= 2) || (sig4h == Entry && sig1d != Exit))
    ensures var fb := FilterBiasOf(filters);
      (sig1h in {Rating.None, Mixed} && !Disqualified(filters) &&
       !((sig1d == Entry && fb.strongBullish >= 2) || (sig4h == Entry && sig1d != Exit))) ==>
      r == (if sig1d == Exit || fb.strongBearish >= 2 then (if hasPosition then HoldCautiously else Rating.Caution) else sig1h)
    ensures sig1h !in {Entry, Watchlist, Exit, Rating.None, Mixed} && !Disqualified(filters) ==>
      r == (if sig1h == Rating.Caution && hasPosition then HoldCautiously else sig1h)
  {
    if Disqualified(filters) then Skip
    else FitToPosition(AdjustedRating(sig1h, sig4h, sig1d, FilterBiasOf(filters), hasPosition), hasPosition)
  }

  /** The branches of `contextual_rating` that adjust the 1h rating and accumulate the score modifier. */
  method AdjustRating(sig1h: Rating, sig4h: Rating, sig1d: Rating, filterBias: FilterBias, hasPosition: bool)
    returns (baseRating: Rating, scoreMod: real)
    ensures baseRating == AdjustedRating(sig1h, sig4h, sig1d, filterBias, hasPosition)
    ensures -0.09 <= scoreMod <= 0.105
  {
    baseRating := sig1h;
    scoreMod := 0.0;
    if baseRating == Entry {
      if sig1d == Entry || sig1d == Watchlist {
        scoreMod := scoreMod + 0.04;
      } else if sig1d == Exit || sig1d == Rating.Caution {
        baseRating := Watchlist;
        scoreMod := scoreMod - 0.05;
      }

      if sig4h == Entry || sig4h == Watchlist {
        scoreMod := scoreMod + 0.03;
      } else if sig4h == Exit && baseRating == Entry {
        baseRating := Mixed;
        scoreMod := scoreMod - 0.03;
      }

      if filterBias.strongBullish >= 3 {
        scoreMod := scoreMod + 0.035;
      } else if filterBias.strongBearish >= 2 {
        baseRating := Watchlist;
        scoreMod := scoreMod - 0.04;
      }
    } else if baseRating == Watchlist {
      if (sig1d == Entry || sig1d == Watchlist) && sig4h == Entry && filterBias.strongBullish >= 2 {
        baseRating := Entry;
        scoreMod := scoreMod + 0.035;
      } else if sig1d == Entry && filterBias.netBullish > 2.0 {
        baseRating := Entry;
        scoreMod := scoreMod + 0.03;
      } else if sig1d == Exit || filterBias.strongBearish >= 2 {
        baseRating := Rating.Caution;
        scoreMod := scoreMod - 0.03;
      }
    } else if baseRating == Exit {
      if sig1d == Exit || sig4h == Exit {
        scoreMod := scoreMod - 0.06;
      } else if sig1d == Entry && !hasPosition {
        baseRating := Rating.Caution;
        scoreMod := scoreMod + 0.04;
      }
      if filterBias.strongBearish >= 2 {
        scoreMod := scoreMod - 0.025;
      }
    } else if baseRating == Rating.None || baseRating == Mixed {
      if sig1d == Entry && filterBias.strongBullish >= 2 {
        baseRating := Watchlist;
        scoreMod := scoreMod + 0.025;
      } else if sig4h == Entry && sig1d != Exit {
        baseRating := Watchlist;
      } else if sig1d == Exit || filterBias.strongBearish >= 2 {
        baseRating := Rating.Caution;
        scoreMod := scoreMod - 0.02;
      }
    }

  }

  /**
   * `contextual_rating`: the 1h rating adjusted by the 4h and 1d ratings and
   * the filter bias, then Skip when disqualified, and finally fitted to
   * whether a position is held. Returns the rating and the score modifier.
   */
  method ContextualRating(sig1h: Rating, sig4h: Rating, sig1d: Rating, filters: Filters, hasPosition: bool)
    returns (rating: Rating, scoreMod: real)
    ensures rating == ContextualRatingOf(sig1h, sig4h, sig1d, filters, hasPosition)
    ensures -0.09 <= scoreMod <= 0.105
  {
    var filterBias := NewFilterBias(filters);
    var baseRating;
    baseRating, scoreMod := AdjustRating(sig1h, sig4h, sig1d, filterBias, hasPosition);

    var disqualified := Disqualify(filters);
    if disqualified {
      return Skip, scoreMod;
    }

    if baseRating == Rating.Caution && hasPosition {
      baseRating := HoldCautiously;
    }
    if baseRating == Exit && !hasPosition {
      baseRating := Rating.Caution;
    }
    rating := baseRating;
  }

  // ----------------------------------------------------------- combined signal

  /** `combined_forecast`: the first non-empty forecast in the order 1h, 4h, 1d. */
  function CombinedForecast<T>(fc1h: seq<T>, fc4h: seq<T>, fc1d: seq<T>): (r: seq<T>)
    ensures r == [] <==> fc1h == [] && fc4h == [] && fc1d == []
    ensures fc1h != [] ==> r == fc1h
    ensures fc1h == [] && fc4h != [] ==> r == fc4h
    ensures r == fc1h || r == fc4h || r == fc1d
  {
    if fc1h != [] then fc1h else if fc4h != [] then fc4h else fc1d
  }

  datatype StopHitType = None | StopLossHit | StopProximity | StopInATR | TimeExit

  /** The rating after `apply_stop_hit`. */
  function AfterStopHit(r: Rating, hit: StopHitType): (a: Rating)
    ensures hit == StopLossHit || hit == TimeExit ==> a == Exit
    ensures hit == StopProximity && r == Entry ==> a == Mixed
    ensures a == Entry ==> r == Entry && hit != StopLossHit && hit != TimeExit && hit != StopProximity
    ensures a != r ==> a == Exit || (a == Mixed && r == Entry)
  {
    if hit == StopLossHit || hit == TimeExit then Exit
    else if hit == StopProximity && r == Entry then Mixed
    else r
  }

  /** Applying the same stop hit twice changes nothing more. */
  lemma AfterStopHitIdempotent(r: Rating, hit: StopHitType)
    ensures AfterStopHit(AfterStopHit(r, hit), hit) == AfterStopHit(r, hit)
  {
  }

  /** `risk_config.earnings_buffer_days` of include/util/config.h. */
  const EarningsBufferDays: int := 5

  /** A calendar event: its type letter and the days until it, which the clock decides. */
  datatype Event = Event(kind: char, daysUntil: int)

  predicate NearEarnings(ev: Event, bufferDays: int)
  {
    ev.kind == 'E' && 0 <= ev.daysUntil < bufferDays
  }

  /** The earnings check of the constructor: an Entry with earnings due within the buffer waits. */
  function EarningsGate(r: Rating, ev: Event, bufferDays: int): (g: Rating)
    ensures r != Entry ==> g == r
    ensures r == Entry ==> (g == Watchlist <==> NearEarnings(ev, bufferDays))
    ensures r == Entry ==> (g == Entry <==> !NearEarnings(ev, bufferDays))
  {
    if r == Entry && NearEarnings(ev, bufferDays) then Watchlist else r
  }

  /**
   * A combined signal: its rating, the stop hit applied to it, the filters
   * behind it and its forecast (any sequence; empty means none).
   */
  class CombinedSignal<T> {
    var rating: Rating
    var stopHit: StopHitType
    var filters: Filters
    var forecast: seq<T>

    /**
     * The constructor from the three timeframes' ratings and forecasts,
     * the filters, whether a position is held and the next calendar event.
     */
    constructor (sig1h: Rating, sig4h: Rating, sig1d: Rating, fc1h: seq<T>, fc4h: seq<T>, fc1d: seq<T>,
                 filters: Filters, hasPosition: bool, ev: Event)
      ensures forecast == CombinedForecast(fc1h, fc4h, fc1d)
      ensures this.filters == filters && stopHit == StopHitType.None
      ensures rating == EarningsGate(ContextualRatingOf(sig1h, sig4h, sig1d, filters, hasPosition), ev, EarningsBufferDays)
      ensures Disqualified(filters) ==> rating == Skip
      ensures rating == Skip ==> Disqualified(filters) || sig1h == Skip
      ensures !(rating == Entry && NearEarnings(ev, EarningsBufferDays))
      ensures rating == Exit ==> sig1h == Exit && hasPosition
      ensures hasPosition ==> rating != Rating.Caution
    {
      forecast := CombinedForecast(fc1h, fc4h, fc1d);
      this.filters := filters;
      var r, scoreMod := ContextualRating(sig1h, sig4h, sig1d, filters, hasPosition);
      rating := EarningsGate(r, ev, EarningsBufferDays);
      stopHit := StopHitType.None;
    }

    /** `apply_stop_hit`: records the hit and lets it override the rating. */
    method ApplyStopHit(hit: StopHitType)
      modifies this
      ensures stopHit == hit && rating == AfterStopHit(old(rating), hit)
      ensures filters == old(filters) && forecast == old(forecast)
    {
      stopHit := hit;
      if stopHit == StopLossHit {
        rating := Exit;
        return;
      }
      if stopHit == TimeExit {
        rating := Exit;
        return;
      }
      if stopHit == StopProximity && rating == Entry {
        rating := Mixed;
      }
    }
  }
}
