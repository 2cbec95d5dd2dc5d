/**
 * The chart derivations of page/js/plot.js: crossover detection, y-axis
 * range padding, the stacked subplot layout, clasping trade times to the
 * 1h/4h/1d buckets, and the MACD histogram colours.
 *
 * JavaScript numbers are `real`; a value that the source filters out as
 * `null` or `NaN` is `None`. Chart times are wall-clock minutes in New York
 * (the "LLL dd, HH:mm" labels have minute resolution); parsing and
 * formatting labels is left to the caller.
 */
module Plot {
  import opened Wrappers
  import Arith

  // ---------------------------------------------------------------------
  // findCrossPoints
  // ---------------------------------------------------------------------

  /** A list of chart markers: the `{x: [], y: []}` objects of the source. */
  datatype Points<X> = Points(xs: seq<X>, ys: seq<real>)

  function Diff(fast: seq<real>, slow: seq<real>, i: nat): real
    requires i < |fast| && i < |slow|
  {
    fast[i] - slow[i]
  }

  /** The fast series goes from strictly below to strictly above the slow one between i and i + 1. */
  predicate BullishAt(fast: seq<real>, slow: seq<real>, i: nat)
    requires i + 1 < |fast| && i + 1 < |slow|
  {
    Diff(fast, slow, i) < 0.0 && Diff(fast, slow, i + 1) > 0.0
  }

  predicate BearishAt(fast: seq<real>, slow: seq<real>, i: nat)
    requires i + 1 < |fast| && i + 1 < |slow|
  {
    Diff(fast, slow, i) > 0.0 && Diff(fast, slow, i + 1) < 0.0
  }

  predicate CrossAt(fast: seq<real>, slow: seq<real>, i: nat, bullish: bool)
    requires i + 1 < |fast| && i + 1 < |slow|
  {
    if bullish then BullishAt(fast, slow, i) else BearishAt(fast, slow, i)
  }

  /** The indices i + 1, for i < n in increasing order, at which a cross of the given kind is reported. */
  function CrossIndices(fast: seq<real>, slow: seq<real>, n: nat, bullish: bool): (r: seq<nat>)
    requires (n == 0 || n < |fast|) && |slow| == |fast|
    ensures forall k :: 0 <= k < |r| ==> 1 <= r[k] <= n
  {
    if n == 0 then []
    else CrossIndices(fast, slow, n - 1, bullish) + (if CrossAt(fast, slow, n - 1, bullish) then [n] else [])
  }

  function Mid(fast: seq<real>, slow: seq<real>, j: nat): real
    requires j < |fast| && j < |slow|
  {
    (fast[j] + slow[j]) / 2.0
  }

  /** The markers placed at the given indices: the label of that sample and the midpoint of the two series. */
  function MarkersAt<X>(x: seq<X>, fast: seq<real>, slow: seq<real>, idx: seq<nat>): (p: Points<X>)
    requires |x| == |fast| == |slow|
    requires forall k :: 0 <= k < |idx| ==> idx[k] < |fast|
    ensures |p.xs| == |p.ys| == |idx|
  {
    Points(seq(|idx|, k requires 0 <= k < |idx| => x[idx[k]]),
           seq(|idx|, k requires 0 <= k < |idx| => Mid(fast, slow, idx[k])))
  }

  /** Number of adjacent pairs the source scans: `fast.length - 1`, none for an empty series. */
  function Pairs(n: nat): nat { if n == 0 then 0 else n - 1 }

  /** `findCrossPoints(x, fast, slow)`: bullish and bearish crossings, in order of index. */
  method FindCrossPoints<X>(x: seq<X>, fast: seq<real>, slow: seq<real>)
    returns (bullish: Points<X>, bearish: Points<X>)
    requires |x| == |fast| == |slow|
    ensures bullish == MarkersAt(x, fast, slow, CrossIndices(fast, slow, Pairs(|fast|), true))
    ensures bearish == MarkersAt(x, fast, slow, CrossIndices(fast, slow, Pairs(|fast|), false))
  {
    bullish, bearish := Points([], []), Points([], []);
    var i := 0;
    while i < |fast| - 1
      invariant 0 <= i <= Pairs(|fast|)
      invariant bullish == MarkersAt(x, fast, slow, CrossIndices(fast, slow, i, true))
      invariant bearish == MarkersAt(x, fast, slow, CrossIndices(fast, slow, i, false))
    {
      var diff1 := fast[i] - slow[i];
      var diff2 := fast[i + 1] - slow[i + 1];
      CrossStep(x, fast, slow, i, true);
      CrossStep(x, fast, slow, i, false);
      if diff1 < 0.0 && diff2 > 0.0 {
        bullish := Points(bullish.xs + [x[i + 1]], bullish.ys + [(fast[i + 1] + slow[i + 1]) / 2.0]);
      } else if diff1 > 0.0 && diff2 < 0.0 {
        bearish := Points(bearish.xs + [x[i + 1]], bearish.ys + [(fast[i + 1] + slow[i + 1]) / 2.0]);
      }
      i := i + 1;
    }
  }

  /** One more index adds its marker at the end. */
  lemma MarkersAppend<X>(x: seq<X>, fast: seq<real>, slow: seq<real>, idx: seq<nat>, j: nat)
    requires |x| == |fast| == |slow| && j < |fast|
    requires forall k :: 0 <= k < |idx| ==> idx[k] < |fast|
    ensures var m := MarkersAt(x, fast, slow, idx);
      MarkersAt(x, fast, slow, idx + [j]) == Points(m.xs + [x[j]], m.ys + [Mid(fast, slow, j)])
  {
    var m := MarkersAt(x, fast, slow, idx);
    var m' := MarkersAt(x, fast, slow, idx + [j]);
    assert m'.xs == m.xs + [x[j]];
    assert m'.ys == m.ys + [Mid(fast, slow, j)];
  }

  /** Scanning one more pair adds a marker exactly when that pair crosses. */
  lemma CrossStep<X>(x: seq<X>, fast: seq<real>, slow: seq<real>, i: nat, bullish: bool)
    requires |x| == |fast| == |slow| && i + 1 < |fast|
    ensures var m := MarkersAt(x, fast, slow, CrossIndices(fast, slow, i, bullish));
      MarkersAt(x, fast, slow, CrossIndices(fast, slow, i + 1, bullish)) ==
        if CrossAt(fast, slow, i, bullish) then Points(m.xs + [x[i + 1]], m.ys + [Mid(fast, slow, i + 1)]) else m
  {
    MarkersAppend(x, fast, slow, CrossIndices(fast, slow, i, bullish), i + 1);
  }

  /** An index is reported exactly when the diff changes strictly sign there (both directions). */
  lemma {:induction false} CrossIndicesExact(fast: seq<real>, slow: seq<real>, n: nat, bullish: bool, j: int)
    requires n < |fast| && |slow| == |fast|
    ensures j in CrossIndices(fast, slow, n, bullish) <==> 1 <= j <= n && CrossAt(fast, slow, j - 1, bullish)
    decreases n
  {
    if n > 0 {
      CrossIndicesExact(fast, slow, n - 1, bullish, j);
    }
  }

  /** Reported indices are strictly increasing, so there are at most n of them. */
  lemma {:induction false} CrossIndicesIncreasing(fast: seq<real>, slow: seq<real>, n: nat, bullish: bool)
    requires n < |fast| && |slow| == |fast|
    ensures var r := CrossIndices(fast, slow, n, bullish);
      |r| <= n && forall a, b :: 0 <= a < b < |r| ==> r[a] < r[b]
    decreases n
  {
    if n > 0 {
      CrossIndicesIncreasing(fast, slow, n - 1, bullish);
    }
  }

  /** No sample is both a bullish and a bearish cross. */
  lemma CrossKindsDisjoint(fast: seq<real>, slow: seq<real>, n: nat, j: int)
    requires n < |fast| && |slow| == |fast|
    ensures !(j in CrossIndices(fast, slow, n, true) && j in CrossIndices(fast, slow, n, false))
  {
    CrossIndicesExact(fast, slow, n, true, j);
    CrossIndicesExact(fast, slow, n, false, j);
  }

  /** If the fast series never goes strictly below the slow one (or never strictly above), no cross is reported. */
  lemma {:induction false} NoSignChangeNoCross(fast: seq<real>, slow: seq<real>, n: nat)
    requires n < |fast| && |slow| == |fast|
    requires (forall i :: 0 <= i <= n ==> Diff(fast, slow, i) >= 0.0) ||
             (forall i :: 0 <= i <= n ==> Diff(fast, slow, i) <= 0.0)
    ensures CrossIndices(fast, slow, n, true) == [] && CrossIndices(fast, slow, n, false) == []
    decreases n
  {
    if n > 0 {
      NoSignChangeNoCross(fast, slow, n - 1);
    }
  }

  /** A crossing that passes through an exact tie is not reported. */
  lemma TieSuppressesCross()
    ensures CrossIndices([-1.0, 0.0, 1.0], [0.0, 0.0, 0.0], 2, true) == []
    ensures CrossIndices([1.0, 0.0, -1.0], [0.0, 0.0, 0.0], 2, false) == []
  {
    assert !BullishAt([-1.0, 0.0, 1.0], [0.0, 0.0, 0.0], 0);
    assert !BullishAt([-1.0, 0.0, 1.0], [0.0, 0.0, 0.0], 1);
    assert !BearishAt([1.0, 0.0, -1.0], [0.0, 0.0, 0.0], 0);
    assert !BearishAt([1.0, 0.0, -1.0], [0.0, 0.0, 0.0], 1);
  }

  // ---------------------------------------------------------------------
  // setYAxisRange
  // ---------------------------------------------------------------------

  /** The values that survive `filter(v => v != null && !isNaN(v))`. */
  function Present(data: seq<Option<real>>): (r: seq<real>)
    ensures forall v :: v in r ==> Some(v) in data
    ensures forall k :: 0 <= k < |data| && data[k].Some? ==> data[k].value in r
    decreases |data|
  {
    if data == [] then []
    else
      var init := data[..|data| - 1];
      assert forall k :: 0 <= k < |init| ==> init[k] == data[k];
      Present(init) + (if data[|data| - 1].Some? then [data[|data| - 1].value] else [])
  }

  function MinOf(s: seq<real>): (m: real)
    requires s != []
    ensures m in s && forall i :: 0 <= i < |s| ==> m <= s[i]
    decreases |s|
  {
    if |s| == 1 then s[0]
    else
      var m := MinOf(s[1..]);
      assert forall i :: 1 <= i < |s| ==> s[i] == s[1..][i - 1];
      if s[0] < m then s[0] else m
  }

  function MaxOf(s: seq<real>): (m: real)
    requires s != []
    ensures m in s && forall i :: 0 <= i < |s| ==> s[i] <= m
    decreases |s|
  {
    if |s| == 1 then s[0]
    else
      var m := MaxOf(s[1..]);
      assert forall i :: 1 <= i < |s| ==> s[i] == s[1..][i - 1];
      if s[0] > m then s[0] else m
  }

  function AbsR(x: real): real { if x < 0.0 then -x else x }

  /** [min - pad*span, max + pad*span], span being the larger magnitude of the two ends. */
  function Padded(min: real, max: real, pad: real): (real, real)
  {
    var span := if AbsR(max) > AbsR(min) then AbsR(max) else AbsR(min);
    (min - pad * span, max + pad * span)
  }

  /**
   * `setYAxisRange(data, pad)`: no range when nothing numeric is left;
   * otherwise [min - pad*span, max + pad*span] with span the larger of |min|
   * and |max|, which encloses every value when pad is not negative.
   */
  function SetYAxisRange(data: seq<Option<real>>, pad: real): (r: Option<(real, real)>)
    ensures r.None? <==> forall k :: 0 <= k < |data| ==> data[k].None?
    ensures r.Some? ==> Present(data) != [] && r.value == Padded(MinOf(Present(data)), MaxOf(Present(data)), pad)
  {
    var values := Present(data);
    if |values| == 0 then
      None
    else
      assert Some(values[0]) in data;
      Some(Padded(MinOf(values), MaxOf(values), pad))
  }

  /** With a non-negative pad the range encloses every value shown. */
  lemma YAxisRangeEncloses(data: seq<Option<real>>, pad: real, k: nat)
    requires pad >= 0.0 && k < |data| && data[k].Some?
    ensures var r := SetYAxisRange(data, pad);
      r.Some? && r.value.0 <= data[k].value <= r.value.1
  {
    var values := Present(data);
    assert data[k].value in values;
    var i :| 0 <= i < |values| && values[i] == data[k].value;
    var min, max := MinOf(values), MaxOf(values);
    assert min <= data[k].value <= max;
    PaddedEncloses(min, max, pad, data[k].value);
  }

  lemma PaddedEncloses(min: real, max: real, pad: real, v: real)
    requires pad >= 0.0 && min <= v <= max
    ensures Padded(min, max, pad).0 <= v <= Padded(min, max, pad).1
  {
    var span := if AbsR(max) > AbsR(min) then AbsR(max) else AbsR(min);
    assert pad * span >= 0.0;
  }

  // ---------------------------------------------------------------------
  // createPlotlyLayout: subplot domains and axes
  // ---------------------------------------------------------------------

  const Spacing: real := 0.075
  const NumPlots: nat := 4

  /** `heights.reduce((a, b) => a + b, 0)`. */
  function Sum(hs: seq<real>): real
    decreases |hs|
  {
    if hs == [] then 0.0 else Sum(hs[..|hs| - 1]) + hs[|hs| - 1]
  }

  lemma Sum4(hs: seq<real>)
    requires |hs| == 4
    ensures Sum(hs) == hs[0] + hs[1] + hs[2] + hs[3]
  {
    assert Sum(hs[..1]) == hs[0] by { assert hs[..1][..0] == []; }
    assert Sum(hs[..2]) == hs[0] + hs[1] by { assert hs[..2][..1] == hs[..1]; }
    assert Sum(hs[..3]) == hs[0] + hs[1] + hs[2] by { assert hs[..3][..2] == hs[..2]; }
    assert hs[..4] == hs;
  }

  /** The room the subplots share once the three gaps are taken. */
  const TotalHeight: real := 1.0 - Spacing * (NumPlots - 1) as real

  /** The height a subplot gets: its share of the room left after the gaps. */
  function Scaled(heights: seq<real>, i: nat): real
    requires i < |heights| && Sum(heights) != 0.0
  {
    heights[i] / Sum(heights) * TotalHeight
  }

  /** The scaled heights fill exactly the room left after the gaps. */
  lemma ScaledSum(heights: seq<real>)
    requires |heights| == 4 && Sum(heights) != 0.0
    ensures Scaled(heights, 0) + Scaled(heights, 1) + Scaled(heights, 2) + Scaled(heights, 3) == TotalHeight
  {
    Sum4(heights);
    var s := Sum(heights);
    var a0, a1, a2, a3 := heights[0] / s, heights[1] / s, heights[2] / s, heights[3] / s;
    assert a0 + a1 + a2 + a3 == (heights[0] + heights[1] + heights[2] + heights[3]) / s;
    assert a0 + a1 + a2 + a3 == 1.0;
    assert a0 * TotalHeight + a1 * TotalHeight + a2 * TotalHeight + a3 * TotalHeight
        == (a0 + a1 + a2 + a3) * TotalHeight;
  }

  /** Bottom of the k-th subplot counted from the bottom of the figure. */
  function Bottom(stack: seq<real>, k: nat): real
    requires k <= |stack|
  {
    if k == 0 then 0.0 else Bottom(stack, k - 1) + stack[k - 1] + Spacing
  }

  /**
   * The domain loop of `createPlotlyLayout`: the scaled heights are reversed,
   * stacked from 0 upward with a fixed gap, and the list is reversed back,
   * so the first subplot ends up on top.
   */
  method StackDomains(scaled: seq<real>) returns (domains: seq<(real, real)>)
    requires |scaled| == NumPlots
    ensures |domains| == 4
    ensures domains[3].0 == 0.0
    ensures domains[0].1 == scaled[0] + scaled[1] + scaled[2] + scaled[3] + 3.0 * Spacing
    ensures forall i :: 0 <= i < 4 ==> domains[i].1 - domains[i].0 == scaled[i]
    ensures forall i :: 0 <= i < 3 ==> domains[i + 1].1 + Spacing == domains[i].0
  {
    var reversed := [scaled[3], scaled[2], scaled[1], scaled[0]];
    var bottomUp: seq<(real, real)> := [];
    var currentBottom := 0.0;
    for i := 0 to NumPlots
      invariant |bottomUp| == i
      invariant currentBottom == Bottom(reversed, i)
      invariant forall k :: 0 <= k < i ==> bottomUp[k] == (Bottom(reversed, k), Bottom(reversed, k) + reversed[k])
    {
      var h := reversed[i];
      bottomUp := bottomUp + [(currentBottom, currentBottom + h)];
      currentBottom := currentBottom + h + Spacing;
    }
    domains := [bottomUp[3], bottomUp[2], bottomUp[1], bottomUp[0]];
    forall i | 0 <= i < 3
      ensures domains[i + 1].1 + Spacing == domains[i].0
    {
      assert domains[i].0 == Bottom(reversed, 3 - i) == Bottom(reversed, 2 - i) + reversed[2 - i] + Spacing;
    }
    StackTop(reversed);
  }

  /**
   * The domains of `createPlotlyLayout` for four positive heights: each
   * subplot gets its scaled share, the gaps are `Spacing`, and together they
   * span the figure from 0 to 1 with the first subplot on top.
   */
  method SubplotDomains(heights: seq<real>) returns (domains: seq<(real, real)>)
    requires |heights| == 4 && forall i :: 0 <= i < 4 ==> heights[i] > 0.0
    ensures |domains| == 4
    ensures Stacked(domains)
    ensures Sum(heights) > 0.0
    ensures forall i :: 0 <= i < 4 ==> domains[i].1 - domains[i].0 == Scaled(heights, i) > 0.0
  {
    ScaledPositive(heights);
    var scaledHeights := [Scaled(heights, 0), Scaled(heights, 1), Scaled(heights, 2), Scaled(heights, 3)];
    domains := StackDomains(scaledHeights);
    ScaledSum(heights);
  }

  /** The top of four stacked blocks: their heights plus the three gaps. */
  lemma StackTop(stack: seq<real>)
    requires |stack| == 4
    ensures Bottom(stack, 3) + stack[3] == stack[0] + stack[1] + stack[2] + stack[3] + 3.0 * Spacing
  {
    assert Bottom(stack, 1) == stack[0] + Spacing;
    assert Bottom(stack, 2) == stack[0] + stack[1] + 2.0 * Spacing;
  }

  lemma ScaledPositive(heights: seq<real>)
    requires |heights| == 4 && forall i :: 0 <= i < 4 ==> heights[i] > 0.0
    ensures Sum(heights) > 0.0 && forall i :: 0 <= i < 4 ==> Scaled(heights, i) > 0.0
  {
    Sum4(heights);
    forall i | 0 <= i < 4 ensures Scaled(heights, i) > 0.0 {
      assert heights[i] / Sum(heights) > 0.0;
    }
  }

  /** One bar of data as the layout reads it; `None` for a missing or non-numeric field. */
  datatype Row = Row(close: Option<real>, volume: Option<real>, macd: Option<real>)

  datatype Axis = Axis(key: string, title: string, domain: (real, real),
                       range: Option<(real, real)>, nticks: Option<int>)

  /** The part of the layout object that the computation decides. */
  datatype Layout = Layout(axes: seq<Axis>, dividers: seq<real>, rsiLines: seq<real>)

  function Column(rows: seq<Row>, start: nat, field: nat): (c: seq<Option<real>>)
    requires field < 3
    ensures |c| == if start <= |rows| then |rows| - start else 0
  {
    var tail := if start <= |rows| then rows[start..] else [];
    seq(|tail|, k requires 0 <= k < |tail| =>
      if field == 0 then tail[k].close else if field == 1 then tail[k].volume else tail[k].macd)
  }

  /** The axis domains from top to bottom. */
  function Domains(axes: seq<Axis>): (d: seq<(real, real)>)
    requires |axes| == NumPlots
    ensures |d| == NumPlots && forall i :: 0 <= i < NumPlots ==> d[i] == axes[i].domain
  {
    [axes[0].domain, axes[1].domain, axes[2].domain, axes[3].domain]
  }

  /** Four non-empty domains that tile [0, 1] from the top down with a gap of `Spacing`. */
  predicate Stacked(d: seq<(real, real)>)
  {
    |d| == NumPlots && d[3].0 == 0.0 && d[0].1 == 1.0 &&
    (forall i :: 0 <= i < 3 ==> d[i + 1].1 + Spacing == d[i].0) &&
    (forall i :: 0 <= i < NumPlots ==> d[i].0 < d[i].1)
  }

  /** The four y axes: keys in order, stacked domains, ranges from the columns of `rows[start..]`, ticks on volume only. */
  predicate AxesFor(axes: seq<Axis>, rows: seq<Row>, start: nat)
  {
    |axes| == NumPlots &&
    axes[0].key == "yaxis" && axes[1].key == "yaxis2" && axes[2].key == "yaxis3" && axes[3].key == "yaxis4" &&
    Stacked(Domains(axes)) &&
    axes[0].range == SetYAxisRange(Column(rows, start, 0), 0.02) &&
    axes[1].range == SetYAxisRange(Column(rows, start, 1), 0.02) &&
    axes[2].range == Some((21.0, 79.0)) &&
    axes[3].range == SetYAxisRange(Column(rows, start, 2), 0.02) &&
    axes[1].nticks == Some(3) && axes[0].nticks.None? && axes[2].nticks.None? && axes[3].nticks.None?
  }

  /** One divider inside each of the three gaps. */
  predicate DividersInGaps(d: seq<(real, real)>, dividers: seq<real>)
    requires |d| == NumPlots
  {
    |dividers| == 3 && forall i :: 0 <= i < 3 ==> d[i + 1].1 < dividers[i] < d[i].0
  }

  /**
   * `createPlotlyLayout`: throws unless exactly four heights are given;
   * otherwise one axis per subplot with its domain (its scaled share of the
   * figure), the computed range of the rows from `start` on (RSI keeps its
   * fixed [21, 79]), three ticks on the volume axis, a divider in each gap
   * and the RSI lines at 70, 50 and 30.
   */
  method CreatePlotlyLayout(timeframe: string, rows: seq<Row>, start: nat, heights: Option<seq<real>>)
    returns (r: Result<Layout>)
    requires heights.Some? ==> forall i :: 0 <= i < |heights.value| ==> heights.value[i] > 0.0
    ensures r.Err? <==> heights.None? || |heights.value| != NumPlots
    ensures r.Ok? ==> AxesFor(r.value.axes, rows, start)
    ensures r.Ok? ==> DividersInGaps(Domains(r.value.axes), r.value.dividers)
    ensures r.Ok? ==> r.value.rsiLines == [70.0, 50.0, 30.0]
    ensures r.Ok? ==> Sum(heights.value) > 0.0 && forall i :: 0 <= i < NumPlots ==>
      r.value.axes[i].domain.1 - r.value.axes[i].domain.0 == Scaled(heights.value, i)
  {
    if heights.None? || |heights.value| != NumPlots {
      return Err("Invalid 'heights' array: must provide 4 values");
    }
    var domains := SubplotDomains(heights.value);
    var priceRange := SetYAxisRange(Column(rows, start, 0), 0.02);
    var volumeRange := SetYAxisRange(Column(rows, start, 1), 0.02);
    var macdRange := SetYAxisRange(Column(rows, start, 2), 0.02);
    var axes := [
      Axis("yaxis", "Price and EMA", domains[0], priceRange, None),
      Axis("yaxis2", "Volume", domains[1], volumeRange, Some(3)),
      Axis("yaxis3", "RSI (" + timeframe + ")", domains[2], Some((21.0, 79.0)), None),
      Axis("yaxis4", "MACD (" + timeframe + ")", domains[3], macdRange, None)
    ];
    assert Domains(axes) == domains;
    // `domains.slice(1).map(([_, bottom]) => bottom + spacing / 1.5)`: the
    // destructured second element is the top of each lower domain.
    var dividers := seq(3, i requires 0 <= i < 3 => domains[i + 1].1 + Spacing / 1.5);
    r := Ok(Layout(axes, dividers, [70.0, 50.0, 30.0]));
  }

  // ---------------------------------------------------------------------
  // claspToTimeframe
  // ---------------------------------------------------------------------

  const MinutesPerDay: int := 1440
  /** 09:30 as minutes after midnight. */
  const OpenMinute: int := 570

  /** What `claspToTimeframe` returns: the input label itself, a time in the
      "LLL dd, HH:mm" display format, a time as an ISO string, or the
      TypeError thrown by `undefined.toFormat`. */
  datatype Clasped = Unchanged(text: string) | Display(minute: int) | Iso(minute: int) | TypeError

  function MarketOpenOf(t: int): int { (t / MinutesPerDay) * MinutesPerDay + OpenMinute }

  /**
   * `claspToTimeframe(text, timeframe)` for a label that parses to wall-clock
   * minute `t`: '1h' keeps the label; before 09:30 the day's open, as an ISO
   * string; '4h' the start of the 240-minute bucket counted from the open;
   * '1d' the open; any other timeframe throws.
   */
  function ClaspToTimeframe(text: string, t: int, timeframe: string): (r: Clasped)
    ensures timeframe == "1h" ==> r == Unchanged(text)
    ensures timeframe != "1h" && t < MarketOpenOf(t) ==> r == Iso(MarketOpenOf(t))
    ensures timeframe == "4h" && t >= MarketOpenOf(t) ==>
      r.Display? && MarketOpenOf(t) <= r.minute <= t && t - r.minute < 240 &&
      (r.minute - MarketOpenOf(t)) % 240 == 0
    ensures timeframe == "1d" && t >= MarketOpenOf(t) ==> r == Display(MarketOpenOf(t))
    ensures timeframe !in {"1h", "4h", "1d"} && t >= MarketOpenOf(t) ==> r == TypeError
  {
    if timeframe == "1h" then Unchanged(text)
    else
      var marketOpen := MarketOpenOf(t);
      if t < marketOpen then Iso(marketOpen)
      else
        var diffMinutes := t - marketOpen;
        if timeframe == "4h" then
          var intervals := diffMinutes / 240;
          assert (intervals * 240) % 240 == 0 by { Arith.MultipleMod(intervals, 240); }
          Display(marketOpen + intervals * 240)
        else if timeframe == "1d" then Display(marketOpen)
        else TypeError
  }

  /**
   * The clasp as evidently intended: a time before the open is moved to the
   * open in the same display format as every other clasped time, and an
   * unsupported timeframe is an explicit error whatever the time.
   */
  function ClaspToTimeframeFixed(text: string, t: int, timeframe: string): (r: Clasped)
    ensures timeframe in {"4h", "1d"} ==> r.Display? && MarketOpenOf(t) <= r.minute
    ensures timeframe in {"4h", "1d"} && t >= MarketOpenOf(t) ==> r == ClaspToTimeframe(text, t, timeframe)
    ensures timeframe == "1h" ==> r == Unchanged(text)
    ensures timeframe !in {"1h", "4h", "1d"} ==> r == TypeError
  {
    if timeframe == "1h" then Unchanged(text)
    else if timeframe !in {"4h", "1d"} then TypeError
    else if t < MarketOpenOf(t) then Display(MarketOpenOf(t))
    else ClaspToTimeframe(text, t, timeframe)
  }

  /** As written, a pre-market trade on the 4h chart gets an ISO string, not a display label. */
  lemma PreMarketClaspIsIso()
    ensures ClaspToTimeframe("Jan 02, 08:00", 480, "4h") == Iso(570)
    ensures ClaspToTimeframeFixed("Jan 02, 08:00", 480, "4h") == Display(570)
  {
  }

  // ---------------------------------------------------------------------
  // MACD histogram colours
  // ---------------------------------------------------------------------

  /** `rgba` of the green or red palette entry with an opacity. */
  datatype BarColor = BarColor(green: bool, opacity: real)

  /** `data.map(row => row.macd - row.signal)`. */
  function MacdHistogram(macd: seq<real>, signal: seq<real>): (h: seq<real>)
    requires |macd| == |signal|
    ensures |h| == |macd| && forall i :: 0 <= i < |h| ==> h[i] + signal[i] == macd[i]
  {
    seq(|macd|, i requires 0 <= i < |macd| => macd[i] - signal[i])
  }

  /** The source's `bullish` test for bar i given bar i - 1. */
  predicate Strengthening(prev: real, val: real)
  {
    if val >= 0.0 then val > prev else val < prev
  }

  /**
   * `histogramColors`: green exactly for non-negative bars; the first bar at
   * 0.8, every later bar at 0.5 when it strengthens and 0.25 otherwise.
   */
  function HistogramColors(hist: seq<real>): (r: seq<BarColor>)
    ensures |r| == |hist|
    ensures forall i :: 0 <= i < |r| ==> (r[i].green <==> hist[i] >= 0.0)
    ensures |r| > 0 ==> r[0].opacity == 0.8
    ensures forall i :: 1 <= i < |r| ==>
      r[i].opacity == (if Strengthening(hist[i - 1], hist[i]) then 0.5 else 0.25)
  {
    seq(|hist|, i requires 0 <= i < |hist| =>
      if i == 0 then BarColor(hist[0] >= 0.0, 0.8)
      else BarColor(hist[i] >= 0.0, if Strengthening(hist[i - 1], hist[i]) then 0.5 else 0.25))
  }

  /**
   * A later bar is drawn strong exactly when the histogram changed side of
   * zero or grew in magnitude: momentum measured away from zero.
   */
  lemma StrongBarIffAwayFromZero(hist: seq<real>, i: nat)
    requires 1 <= i < |hist|
    ensures HistogramColors(hist)[i].opacity == 0.5 <==>
      (hist[i] >= 0.0) != (hist[i - 1] >= 0.0) || AbsR(hist[i]) > AbsR(hist[i - 1])
  {
  }
}
