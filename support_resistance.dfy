/**
 * Support and resistance zone bookkeeping of src/ind/support_resistance.cpp
 * and include/ind/support_resistance.h: the distance from a price to a
 * zone, the swing measured around a candle (`to_swing`), merging
 * overlapping zones, filtering and normalising them, and the nearest-zone
 * lookup.
 *
 * Prices are `real`. An `Indicators` object is given by the three series
 * `to_swing` reads: lows, highs and ATR values, all indexed from the
 * oldest candle.
 */
module SupportResistance {
  import opened Wrappers
  import Sorting
  import opened Intervals

  datatype SwingPoint = SwingPoint(tp: int, price: real)

  datatype Zone = Zone(lo: real, hi: real, confidence: real, hits: seq<Interval>, sps: seq<SwingPoint>)

  // ---------------------------------------------------------------------
  // Zone::contains, Zone::distance
  // ---------------------------------------------------------------------

  predicate Contains(z: Zone, price: real)
  {
    price >= z.lo && price <= z.hi
  }

  function AbsR(x: real): real { if x < 0.0 then -x else x }

  /** How far `price` is from the point `y`. */
  function Gap(price: real, y: real): real { AbsR(price - y) }

  /** `std::min(a, b)`: `b` only when it is strictly smaller. */
  function MinR(a: real, b: real): real { if b < a then b else a }

  /** `Zone::distance`: 0 inside the zone, otherwise the distance to the nearer bound. */
  function Distance(z: Zone, price: real): (r: real)
    ensures r >= 0.0
    ensures Contains(z, price) ==> r == 0.0
  {
    if Contains(z, price) then 0.0 else MinR(Gap(price, z.lo), Gap(price, z.hi))
  }

  /**
   * For a well-formed zone (lo <= hi) the distance is the distance from the
   * price to the nearest point of [lo, hi]: zero exactly inside, never more
   * than the gap to any point of the zone, and attained by one of them.
   */
  lemma DistanceToZone(z: Zone, price: real)
    requires z.lo <= z.hi
    ensures Distance(z, price) == 0.0 <==> Contains(z, price)
    ensures forall y :: z.lo <= y <= z.hi ==> Distance(z, price) <= Gap(price, y)
    ensures exists y :: z.lo <= y <= z.hi && Distance(z, price) == Gap(price, y)
  {
    if Contains(z, price) {
      assert Gap(price, price) == 0.0;
    } else if price < z.lo {
      assert Distance(z, price) == Gap(price, z.lo);
    } else {
      assert Distance(z, price) == Gap(price, z.hi);
    }
  }

  // ---------------------------------------------------------------------
  // to_swing
  // ---------------------------------------------------------------------

  datatype Swing = Swing(idx: nat, price: real, window: nat, width: real)

  /** The series a swing is measured on: lows for a support, highs for a resistance. */
  function Val(lows: seq<real>, highs: seq<real>, support: bool, k: nat): real
    requires k < |lows| && k < |highs|
  {
    if support then lows[k] else highs[k]
  }

  /** Candle `k` does not undercut (support) or exceed (resistance) the swing value `cur`. */
  predicate Holds(lows: seq<real>, highs: seq<real>, support: bool, cur: real, k: nat)
    requires k < |lows| && k < |highs|
  {
    if support then Val(lows, highs, support, k) >= cur else Val(lows, highs, support, k) <= cur
  }

  /** The swing at `i` extends to distance `j`: both neighbours exist and hold. */
  predicate Extends(lows: seq<real>, highs: seq<real>, support: bool, i: nat, j: nat)
    requires i < |lows| == |highs|
  {
    var cur := Val(lows, highs, support, i);
    i >= j && i + j < |lows| && Holds(lows, highs, support, cur, i - j) && Holds(lows, highs, support, cur, i + j)
  }

  function SumR(s: seq<real>): real
  {
    if s == [] then 0.0 else s[0] + SumR(s[1..])
  }

  lemma {:induction false} SumRAppend(s: seq<real>, x: real)
    ensures SumR(s + [x]) == SumR(s) + x
  {
    if s != [] {
      assert (s + [x])[1..] == s[1..] + [x];
      SumRAppend(s[1..], x);
    } else {
      assert [] + [x] == [x];
    }
  }

  /** The ATR values summed over the window of half-width `w` around `i`, innermost first. */
  function WindowSum(atrs: seq<real>, i: nat, w: nat): real
    requires w <= i && i + w < |atrs|
  {
    if w == 0 then atrs[i] else WindowSum(atrs, i, w - 1) + atrs[i - w] + atrs[i + w]
  }

  /** The window sum is the sum of the 2w + 1 ATR values from i - w to i + w. */
  lemma {:induction false} WindowSumSlice(atrs: seq<real>, i: nat, w: nat)
    requires w <= i && i + w < |atrs|
    ensures WindowSum(atrs, i, w) == SumR(atrs[i - w..i + w + 1])
  {
    if w == 0 {
      assert atrs[i..i + 1] == [atrs[i]];
    } else {
      WindowSumSlice(atrs, i, w - 1);
      var inner := atrs[i - w + 1..i + w];
      assert atrs[i - w..i + w + 1] == [atrs[i - w]] + (inner + [atrs[i + w]]);
      SumRAppend(inner, atrs[i + w]);
    }
  }

  /**
   * `to_swing`: the swing at candle `i` spreads while the candles at equal
   * distance on both sides stay on the same side of its value; its width is
   * the mean ATR over the 2w + 1 candles of the window.
   */
  method ToSwing(lows: seq<real>, highs: seq<real>, atrs: seq<real>, i: nat, support: bool)
    returns (sw: Swing)
    requires |lows| == |highs| == |atrs| && i < |lows|
    ensures sw.idx == i && sw.price == Val(lows, highs, support, i)
    ensures sw.window <= i && i + sw.window < |atrs|
    ensures forall k :: 1 <= k <= sw.window ==> Extends(lows, highs, support, i, k)
    ensures !Extends(lows, highs, support, i, sw.window + 1)
    ensures sw.width == SumR(atrs[i - sw.window..i + sw.window + 1]) / (2 * sw.window + 1) as real
  {
    var cur := Val(lows, highs, support, i);
    var atrSum := atrs[i];
    var j := 1;
    var n := |lows|;
    while i >= j && i + j < n && Holds(lows, highs, support, cur, i - j) && Holds(lows, highs, support, cur, i + j)
      invariant 1 <= j <= i + 1 && i + j <= n
      invariant forall k :: 1 <= k < j ==> Extends(lows, highs, support, i, k)
      invariant atrSum == WindowSum(atrs, i, j - 1)
      decreases n - j
    {
      atrSum := atrSum + atrs[i - j] + atrs[i + j];
      j := j + 1;
    }
    WindowSumSlice(atrs, i, j - 1);
    sw := Swing(i, cur, j - 1, atrSum / (2 * j - 1) as real);
  }

  // ---------------------------------------------------------------------
  // merge_zones
  // ---------------------------------------------------------------------

  function Lo(z: Zone): real { z.lo }

  /** `next.lo * (1 + 0.002) <= prev.hi`: the next zone starts within 0.2% of the current one. */
  predicate Crossed(prevHi: real, next: Zone)
  {
    next.lo * (1.0 + 0.002) <= prevHi
  }

  function MaxR(a: real, b: real): real { if a < b then b else a }

  /** The highest `hi` of a group. */
  function MaxHi(g: seq<Zone>): (m: real)
    requires g != []
    ensures forall k :: 0 <= k < |g| ==> g[k].hi <= m
  {
    if |g| == 1 then g[0].hi else MaxR(g[|g| - 1].hi, MaxHi(g[..|g| - 1]))
  }

  function SumConf(g: seq<Zone>): real
  {
    if g == [] then 0.0 else SumConf(g[..|g| - 1]) + g[|g| - 1].confidence
  }

  function AllHits(g: seq<Zone>): seq<Interval>
  {
    if g == [] then [] else AllHits(g[..|g| - 1]) + g[|g| - 1].hits
  }

  function AllSps(g: seq<Zone>): seq<SwingPoint>
  {
    if g == [] then [] else AllSps(g[..|g| - 1]) + g[|g| - 1].sps
  }

  /**
   * The zone a run of crossing zones becomes: the first one's `lo`, the
   * highest `hi`, the mean confidence, and all hits and swing points.
   */
  function Fold(g: seq<Zone>): Zone
    requires g != []
  {
    Zone(g[0].lo, MaxHi(g), SumConf(g) / |g| as real, AllHits(g), AllSps(g))
  }

  /** One turn of the merge loop on groups: join the last group or open a new one. */
  function GroupStep(gs: seq<seq<Zone>>, z: Zone): seq<seq<Zone>>
    requires gs != [] && gs[|gs| - 1] != []
  {
    var last := gs[|gs| - 1];
    if Crossed(MaxHi(last), z) then gs[..|gs| - 1] + [last + [z]] else gs + [[z]]
  }

  predicate NonEmptyGroups(gs: seq<seq<Zone>>)
  {
    forall k :: 0 <= k < |gs| ==> gs[k] != []
  }

  /** The groups the merge loop forms from the first `n` zones of `s`. */
  function Groups(s: seq<Zone>, n: nat): (gs: seq<seq<Zone>>)
    requires 1 <= n <= |s|
    ensures 1 <= |gs| <= n && NonEmptyGroups(gs)
  {
    if n == 1 then [[s[0]]] else GroupStep(Groups(s, n - 1), s[n - 1])
  }

  function FoldAll(gs: seq<seq<Zone>>): (zs: seq<Zone>)
    requires NonEmptyGroups(gs)
    ensures |zs| == |gs|
  {
    seq(|gs|, k requires 0 <= k < |gs| => Fold(gs[k]))
  }

  /** The body of the merge loop when `next` crosses `prev`, after `n` zones went into `prev`. */
  function MergeInto(prev: Zone, next: Zone, n: real): Zone
    requires n >= 1.0
  {
    var w := n / (n + 1.0);
    prev.(hi := MaxR(next.hi, prev.hi),
          hits := prev.hits + next.hits,
          sps := prev.sps + next.sps,
          confidence := prev.confidence * w + next.confidence * (1.0 - w))
  }

  /** The weights n/(n+1) and 1/(n+1) turn the mean of n values into the mean of n + 1. */
  lemma RunningMean(sum: real, n: real, c: real)
    requires n >= 1.0
    ensures (sum / n) * (n / (n + 1.0)) + c * (1.0 - n / (n + 1.0)) == (sum + c) / (n + 1.0)
  {
    assert (sum / n) * (n / (n + 1.0)) == sum / (n + 1.0);
    assert 1.0 - n / (n + 1.0) == 1.0 / (n + 1.0);
  }

  /** Folding one more zone into a group is what the loop body does to the merged zone. */
  lemma FoldAppend(g: seq<Zone>, z: Zone)
    requires g != []
    ensures Fold(g + [z]) == MergeInto(Fold(g), z, |g| as real)
  {
    var g' := g + [z];
    assert g'[..|g'| - 1] == g;
    assert MaxHi(g') == MaxR(z.hi, MaxHi(g));
    RunningMean(SumConf(g), |g| as real, z.confidence);
  }

  lemma FoldSingle(z: Zone)
    ensures Fold([z]) == z
  {
    assert [z][..0] == [];
    assert SumConf([z]) == z.confidence;
    assert AllHits([z]) == [] + z.hits == z.hits;
    assert AllSps([z]) == [] + z.sps == z.sps;
  }

  /** One turn of the loop on the merged zones, in terms of the groups. */
  lemma FoldAllStep(gs: seq<seq<Zone>>, z: Zone)
    requires gs != [] && NonEmptyGroups(gs)
    ensures NonEmptyGroups(GroupStep(gs, z))
    ensures var zs := FoldAll(gs); var last := gs[|gs| - 1];
      FoldAll(GroupStep(gs, z)) ==
        if Crossed(zs[|zs| - 1].hi, z) then zs[..|zs| - 1] + [MergeInto(zs[|zs| - 1], z, |last| as real)]
        else zs + [z]
  {
    var last := gs[|gs| - 1];
    var zs := FoldAll(gs);
    var r: seq<seq<Zone>> := GroupStep(gs, z);
    if Crossed(MaxHi(last), z) {
      FoldAppend(last, z);
      assert FoldAll(r) == zs[..|zs| - 1] + [MergeInto(zs[|zs| - 1], z, |last| as real)];
    } else {
      FoldSingle(z);
      assert FoldAll(r) == zs + [z];
    }
  }

  /** The zones `merge_zones` forms before the width cap, from the zones sorted by `lo`. */
  function MergedZones(raw: seq<Zone>): (zs: seq<Zone>)
    ensures |zs| <= |raw|
  {
    var s := Sorting.SortBy(raw, Lo);
    if s == [] then [] else FoldAll(Groups(s, |s|))
  }

  /** The sorted, deduplicated swing points: `std::set` order is by time, then price. */
  predicate Less(a: SwingPoint, b: SwingPoint)
  {
    a.tp < b.tp || (a.tp == b.tp && a.price < b.price)
  }

  predicate StrictlySorted(s: seq<SwingPoint>)
  {
    forall i, j :: 0 <= i < j < |s| ==> Less(s[i], s[j])
  }

  function InsertUnique(x: SwingPoint, s: seq<SwingPoint>): (r: seq<SwingPoint>)
    ensures forall y :: y in r <==> y == x || y in s
  {
    if s == [] then [x]
    else if x == s[0] then s
    else if Less(x, s[0]) then [x] + s
    else [s[0]] + InsertUnique(x, s[1..])
  }

  lemma {:induction false} InsertUniqueSorted(x: SwingPoint, s: seq<SwingPoint>)
    requires StrictlySorted(s)
    ensures StrictlySorted(InsertUnique(x, s))
    decreases |s|
  {
    if s != [] && x != s[0] && !Less(x, s[0]) {
      var rest := InsertUnique(x, s[1..]);
      InsertUniqueSorted(x, s[1..]);
      forall k | 0 <= k < |rest|
        ensures Less(s[0], rest[k])
      {
        assert rest[k] in rest;
        if rest[k] != x {
          var j :| 0 <= j < |s[1..]| && s[1..][j] == rest[k];
          assert s[1 + j] == rest[k];
        }
      }
    }
  }

  /** `std::sort` followed by copying through a `std::set`: each swing point once, in order. */
  function SortedUnique(s: seq<SwingPoint>): (r: seq<SwingPoint>)
    ensures StrictlySorted(r)
    ensures forall y :: y in r <==> y in s
  {
    if s == [] then []
    else
      var rest := SortedUnique(s[1..]);
      InsertUniqueSorted(s[0], rest);
      assert forall y :: y in s <==> y == s[0] || y in s[1..];
      InsertUnique(s[0], rest)
  }

  function Center(z: Zone): real { (z.lo + z.hi) / 2.0 }

  /**
   * `current_width > max_zone_width` with `current_width = (hi - lo) / center`.
   * At a zero center the double division gives +inf (wider than any cap)
   * for hi > lo, and -inf or NaN (never wider) otherwise.
   */
  predicate TooWide(z: Zone, maxWidth: real)
  {
    WiderThan(z.lo, z.hi, maxWidth)
  }

  predicate WiderThan(lo: real, hi: real, maxWidth: real)
  {
    var c := (lo + hi) / 2.0;
    if c == 0.0 then hi - lo > 0.0 else (hi - lo) / c > maxWidth
  }

  /** The width cap of `merge_zones`: a zone wider than `maxWidth` of its center shrinks to exactly that width around the center. */
  function Cap(z: Zone, maxWidth: real): Zone
  {
    var c := Center(z);
    if TooWide(z, maxWidth) then z.(lo := c - c * maxWidth / 2.0, hi := c + c * maxWidth / 2.0) else z
  }

  /** The second loop of `merge_zones` on one zone: cap the width, fuse the hits, dedupe the swing points. */
  function Finish(z: Zone, maxWidth: real): Zone
  {
    var capped := Cap(z, maxWidth);
    capped.(hits := Merged(Sort(capped.hits)), sps := SortedUnique(capped.sps))
  }

  function FinishAll(zs: seq<Zone>, maxWidth: real): (r: seq<Zone>)
    ensures |r| == |zs|
  {
    seq(|zs|, k requires 0 <= k < |zs| => Finish(zs[k], maxWidth))
  }

  /** The first loop of `merge_zones`, over zones sorted by `lo`. */
  method FoldCrossing(sorted: seq<Zone>) returns (zones: seq<Zone>)
    requires sorted != []
    ensures zones == FoldAll(Groups(sorted, |sorted|))
  {
    zones := [sorted[0]];
    FoldSingle(sorted[0]);
    var nMerged := 1.0;
    ghost var gs := Groups(sorted, 1);
    for i := 1 to |sorted|
      invariant gs == Groups(sorted, i)
      invariant zones == FoldAll(gs)
      invariant nMerged == |gs[|gs| - 1]| as real
    {
      zones, nMerged := FoldNext(zones, nMerged, sorted[i], gs);
      gs := GroupStep(gs, sorted[i]);
    }
  }

  /**
   * The body of the first loop of `merge_zones`: `next` is folded into the
   * last zone when it starts within 0.2% of that zone's `hi`, and starts a
   * zone of its own otherwise.
   */
  method FoldNext(zones: seq<Zone>, nMerged: real, next: Zone, ghost gs: seq<seq<Zone>>)
    returns (folded: seq<Zone>, count: real)
    requires gs != [] && NonEmptyGroups(gs)
    requires zones == FoldAll(gs) && nMerged == |gs[|gs| - 1]| as real
    ensures NonEmptyGroups(GroupStep(gs, next))
    ensures var grown := GroupStep(gs, next);
      folded == FoldAll(grown) && count == |grown[|grown| - 1]| as real
  {
    var prev := zones[|zones| - 1];
    FoldAllStep(gs, next);
    var crossed := next.lo * (1.0 + 0.002) <= prev.hi;
    if crossed {
      folded := zones[..|zones| - 1] + [MergeInto(prev, next, nMerged)];
      count := nMerged + 1.0;
    } else {
      folded := zones + [next];
      count := 1.0;
    }
  }

  /** The body of the second loop of `merge_zones`: cap the width, fuse the hits, dedupe the swing points. */
  method FinishOne(merged: Zone, maxZoneWidth: real) returns (finished: Zone)
    ensures finished == Finish(merged, maxZoneWidth)
  {
    var zone := merged;
    var center := (zone.lo + zone.hi) / 2.0;
    if TooWide(zone, maxZoneWidth) {
      var halfMax := center * maxZoneWidth / 2.0;
      zone := zone.(lo := center - halfMax, hi := center + halfMax);
    }
    assert zone == Cap(merged, maxZoneWidth);
    var hits := MergeIntervals(zone.hits);
    finished := zone.(hits := hits, sps := SortedUnique(zone.sps));
  }

  /** The second loop of `merge_zones`, applied to each merged zone in turn. */
  method FinishZones(merged: seq<Zone>, maxZoneWidth: real) returns (zones: seq<Zone>)
    ensures zones == FinishAll(merged, maxZoneWidth)
  {
    zones := [];
    for i := 0 to |merged|
      invariant zones == FinishAll(merged[..i], maxZoneWidth)
    {
      var finished := FinishOne(merged[i], maxZoneWidth);
      FinishAllSnoc(merged, i, maxZoneWidth);
      zones := zones + [finished];
    }
    assert merged[..|merged|] == merged;
  }

  lemma FinishAllSnoc(zs: seq<Zone>, i: nat, maxWidth: real)
    requires i < |zs|
    ensures FinishAll(zs[..i + 1], maxWidth) == FinishAll(zs[..i], maxWidth) + [Finish(zs[i], maxWidth)]
  {
    var a, b := FinishAll(zs[..i + 1], maxWidth), FinishAll(zs[..i], maxWidth) + [Finish(zs[i], maxWidth)];
    assert |a| == |b|;
    forall k | 0 <= k < |a|
      ensures a[k] == b[k]
    {
      if k < i {
        assert zs[..i + 1][k] == zs[..i][k];
        assert a[k] == Finish(zs[..i][k], maxWidth);
      } else {
        assert zs[..i + 1][k] == zs[i];
      }
    }
  }

  /**
   * `merge_zones`: sort by `lo`; fold each zone that starts within 0.2% of
   * the current zone's `hi` into it (highest `hi`, hits and swing points
   * appended, confidence weighted n/(n+1) against 1/(n+1), which keeps it
   * the mean of the merged confidences); then cap each zone's width,
   * fuse its hits and dedupe its swing points. An empty input comes back
   * as it is.
   */
  method MergeZones(raw: seq<Zone>, maxZoneWidth: real) returns (zones: seq<Zone>)
    ensures zones == FinishAll(MergedZones(raw), maxZoneWidth)
  {
    if raw == [] {
      return raw;
    }
    var sorted := Sorting.SortBy(raw, Lo);
    zones := FoldCrossing(sorted);
    zones := FinishZones(zones, maxZoneWidth);
  }

  // ---------------------------------------------------------------------
  // What merge_zones promises
  // ---------------------------------------------------------------------

  /** A zone between two positive prices. */
  predicate Priced(z: Zone)
  {
    0.0 < z.lo <= z.hi
  }

  function Flatten(gs: seq<seq<Zone>>): seq<Zone>
  {
    if gs == [] then [] else Flatten(gs[..|gs| - 1]) + gs[|gs| - 1]
  }

  /** Group heads by nondecreasing `lo`, and no group reaches within 0.2% of a later group's head. */
  predicate GroupsOrdered(gs: seq<seq<Zone>>)
    requires NonEmptyGroups(gs)
  {
    forall a, b :: 0 <= a < b < |gs| ==> gs[a][0].lo <= gs[b][0].lo && !Crossed(MaxHi(gs[a]), gs[b][0])
  }

  /** One turn keeps the groups ordered, with the last head no later than the zone read. */
  lemma GroupStepOrdered(gs: seq<seq<Zone>>, z: Zone)
    requires gs != [] && NonEmptyGroups(gs) && GroupsOrdered(gs)
    requires gs[|gs| - 1][0].lo <= z.lo
    ensures var r := GroupStep(gs, z);
      NonEmptyGroups(r) && GroupsOrdered(r) && r[|r| - 1][0].lo <= z.lo
  {
    var last := gs[|gs| - 1];
    var r: seq<seq<Zone>> := GroupStep(gs, z);
    if Crossed(MaxHi(last), z) {
      forall a, b | 0 <= a < b < |r|
        ensures r[a][0].lo <= r[b][0].lo && !Crossed(MaxHi(r[a]), r[b][0])
      {
        assert r[a] == gs[a];
        assert r[b][0] == gs[b][0];
      }
    } else {
      forall a, b | 0 <= a < b < |r|
        ensures r[a][0].lo <= r[b][0].lo && !Crossed(MaxHi(r[a]), r[b][0])
      {
        assert r[a] == gs[a];
        if b == |gs| && a < |gs| - 1 {
          assert !Crossed(MaxHi(gs[a]), last[0]);
        }
      }
    }
  }

  /** One turn heads a group only with the zone read or with an old head. */
  lemma GroupStepHeads(gs: seq<seq<Zone>>, z: Zone)
    requires gs != [] && NonEmptyGroups(gs)
    ensures var r := GroupStep(gs, z);
      forall a :: 0 <= a < |r| ==> r[a][0] == z || (a < |gs| && r[a][0] == gs[a][0])
  {
  }

  /** One turn adds the zone read at the end of the flattened groups. */
  lemma GroupStepFlatten(gs: seq<seq<Zone>>, z: Zone)
    requires gs != [] && NonEmptyGroups(gs)
    ensures Flatten(GroupStep(gs, z)) == Flatten(gs) + [z]
  {
    var last := gs[|gs| - 1];
    var init := gs[..|gs| - 1];
    var r: seq<seq<Zone>> := GroupStep(gs, z);
    if Crossed(MaxHi(last), z) {
      assert r[..|r| - 1] == init;
      assert r[|r| - 1] == last + [z];
    } else {
      assert r[..|r| - 1] == gs;
    }
  }

  lemma PrefixSnoc<T>(s: seq<T>, n: nat)
    requires 1 <= n <= |s|
    ensures s[..n] == s[..n - 1] + [s[n - 1]]
  {
  }

  predicate SortedByLo(s: seq<Zone>)
  {
    forall i, j :: 0 <= i < j < |s| ==> s[i].lo <= s[j].lo
  }

  /** The groups the merge loop forms out of zones sorted by `lo` are ordered. */
  lemma {:induction false} GroupsOrderedByLo(s: seq<Zone>, n: nat)
    requires 1 <= n <= |s| && SortedByLo(s)
    ensures var gs := Groups(s, n); GroupsOrdered(gs) && gs[|gs| - 1][0].lo <= s[n - 1].lo
    decreases n
  {
    if n > 1 {
      GroupsOrderedByLo(s, n - 1);
      GroupStepOrdered(Groups(s, n - 1), s[n - 1]);
    }
  }

  /** Together the groups are exactly the zones read so far, in their order. */
  lemma {:induction false} GroupsPartition(s: seq<Zone>, n: nat)
    requires 1 <= n <= |s|
    ensures Flatten(Groups(s, n)) == s[..n]
    decreases n
  {
    if n == 1 {
      assert Flatten([[s[0]]]) == [] + [s[0]];
    } else {
      GroupsPartition(s, n - 1);
      GroupStepFlatten(Groups(s, n - 1), s[n - 1]);
      PrefixSnoc(s, n);
    }
  }

  /** Every group is headed by a zone between positive prices when all zones read are. */
  lemma {:induction false} GroupHeadsPriced(s: seq<Zone>, n: nat)
    requires 1 <= n <= |s| && forall k :: 0 <= k < n ==> Priced(s[k])
    ensures forall a :: 0 <= a < |Groups(s, n)| ==> Priced(Groups(s, n)[a][0])
    decreases n
  {
    if n > 1 {
      var gs := Groups(s, n - 1);
      GroupHeadsPriced(s, n - 1);
      GroupStepHeads(gs, s[n - 1]);
      assert Priced(s[n - 1]);
      var r := Groups(s, n);
      assert r == GroupStep(gs, s[n - 1]);
      forall a | 0 <= a < |r|
        ensures Priced(r[a][0])
      {
        if r[a][0] != s[n - 1] {
          assert a < |gs| && r[a][0] == gs[a][0];
          assert Priced(gs[a][0]);
        }
      }
    }
  }

  /**
   * Before the width cap the merged zones come out sorted by `lo`, none
   * starting within 0.2% of an earlier one's `hi`, each between positive
   * prices when the input zones are; and every input zone went into
   * exactly one of them, in sorted order.
   */
  lemma MergedZonesOrdered(raw: seq<Zone>)
    requires forall z :: z in raw ==> Priced(z)
    ensures var zs := MergedZones(raw);
      (forall a, b :: 0 <= a < b < |zs| ==> zs[a].lo <= zs[b].lo && !Crossed(zs[a].hi, zs[b])) &&
      forall k :: 0 <= k < |zs| ==> Priced(zs[k])
    ensures raw != [] ==> var s := Sorting.SortBy(raw, Lo); Flatten(Groups(s, |s|)) == s
  {
    var s := Sorting.SortBy(raw, Lo);
    if s != [] {
      SortedInput(raw);
      GroupsOrderedByLo(s, |s|);
      GroupsPartition(s, |s|);
      GroupHeadsPriced(s, |s|);
      assert s[..|s|] == s;
      FoldAllOrdered(Groups(s, |s|));
    }
  }

  /** The zones sorted by `lo`, each between positive prices when the input zones are. */
  lemma SortedInput(raw: seq<Zone>)
    requires forall z :: z in raw ==> Priced(z)
    ensures var s := Sorting.SortBy(raw, Lo); SortedByLo(s) && forall k :: 0 <= k < |s| ==> Priced(s[k])
  {
    var s := Sorting.SortBy(raw, Lo);
    forall k | 0 <= k < |s|
      ensures Priced(s[k])
    {
      Sorting.SortBySameElements(raw, Lo, s[k]);
    }
    forall i, j | 0 <= i < j < |s|
      ensures s[i].lo <= s[j].lo
    {
      assert Lo(s[i]) <= Lo(s[j]);
    }
  }

  /** Ordered groups with priced heads fold into ordered, priced zones. */
  lemma FoldAllOrdered(gs: seq<seq<Zone>>)
    requires NonEmptyGroups(gs) && GroupsOrdered(gs)
    requires forall a :: 0 <= a < |gs| ==> Priced(gs[a][0])
    ensures var zs := FoldAll(gs);
      (forall a, b :: 0 <= a < b < |zs| ==> zs[a].lo <= zs[b].lo && !Crossed(zs[a].hi, zs[b])) &&
      forall k :: 0 <= k < |zs| ==> Priced(zs[k])
  {
    var zs := FoldAll(gs);
    forall a, b | 0 <= a < b < |zs|
      ensures zs[a].lo <= zs[b].lo && !Crossed(zs[a].hi, zs[b])
    {
      assert zs[a].hi == MaxHi(gs[a]);
      assert zs[b].lo == gs[b][0].lo;
    }
    forall k | 0 <= k < |zs|
      ensures Priced(zs[k])
    {
      assert gs[k][0].hi <= MaxHi(gs[k]);
    }
  }

  /**
   * The width cap keeps the center, leaves a zone that was not too wide
   * alone and leaves none too wide; for a zone between positive prices and
   * a nonnegative cap it only ever shrinks the zone.
   */
  lemma CapBounds(z: Zone, maxWidth: real)
    ensures Center(Cap(z, maxWidth)) == Center(z)
    ensures !TooWide(Cap(z, maxWidth), maxWidth)
    ensures !TooWide(z, maxWidth) ==> Cap(z, maxWidth) == z
    ensures Priced(z) && 0.0 <= maxWidth ==>
      z.lo <= Cap(z, maxWidth).lo <= Cap(z, maxWidth).hi <= z.hi
  {
    var c := Center(z);
    if TooWide(z, maxWidth) {
      var half := c * maxWidth / 2.0;
      var capped := Cap(z, maxWidth);
      assert capped.hi - capped.lo == c * maxWidth;
      if c != 0.0 {
        assert (c * maxWidth) / c == maxWidth;
      }
      if Priced(z) && 0.0 <= maxWidth {
        assert c > 0.0;
        assert (z.hi - z.lo) / c > maxWidth;
        assert z.hi - z.lo > c * maxWidth;
        assert half >= 0.0;
      }
    }
  }

  /**
   * With a cap of at least 0.4% (the narrowest configured width) a zone
   * that does not cross a later one keeps its `lo` at or below the later
   * one's after both are capped.
   */
  lemma CapKeepsOrder(p: Zone, q: Zone, maxWidth: real)
    requires Priced(p) && Priced(q) && p.lo <= q.lo && !Crossed(p.hi, q)
    requires maxWidth >= 0.004
    ensures Cap(p, maxWidth).lo <= Cap(q, maxWidth).lo
  {
    CapRaisesLo(q, maxWidth);
    CapLoOrBelow(p, maxWidth);
    assert Center(p) <= p.hi < q.lo * 1.002;
  }

  /** Capping a priced zone never lowers its `lo`. */
  lemma CapRaisesLo(z: Zone, maxWidth: real)
    requires Priced(z) && 0.0 <= maxWidth
    ensures z.lo <= Cap(z, maxWidth).lo
  {
    CapBounds(z, maxWidth);
  }

  /** With a cap of at least 0.4%, `lo` is kept or moved to at most 99.8% of the center. */
  lemma CapLoOrBelow(z: Zone, maxWidth: real)
    requires Priced(z) && maxWidth >= 0.004
    ensures Cap(z, maxWidth).lo == z.lo || Cap(z, maxWidth).lo <= Center(z) * 0.998
  {
    if TooWide(z, maxWidth) {
      CappedLoBelow(Center(z), maxWidth);
    }
  }

  /** A cap of at least 0.4% moves `lo` at least 0.2% below a non-negative center. */
  lemma CappedLoBelow(c: real, maxWidth: real)
    requires c >= 0.0 && maxWidth >= 0.004
    ensures c - c * maxWidth / 2.0 <= c * 0.998
  {
    ScaleAtLeast(c, 0.004, maxWidth);
  }

  lemma ScaleAtLeast(c: real, lo: real, w: real)
    requires c >= 0.0 && lo <= w
    ensures c * lo <= c * w
  {
  }

  /** The cap, the fused hits and the deduplicated swing points of one finished zone. */
  lemma FinishedZone(z: Zone, maxWidth: real)
    ensures var f := Finish(z, maxWidth);
      Center(f) == Center(z) && !TooWide(f, maxWidth) &&
      f.confidence == z.confidence &&
      Separated(f.hits) && (forall p :: Covered(f.hits, p) <==> Covered(z.hits, p)) &&
      StrictlySorted(f.sps) && (forall y :: y in f.sps <==> y in z.sps)
  {
    CapBounds(z, maxWidth);
    MergedProperties(z.hits);
  }

  /**
   * What `merge_zones` promises for zones between positive prices and the
   * configured caps: the result is sorted by `lo` and no zone is wider than
   * the cap relative to its center.
   */
  lemma MergeZonesSorted(raw: seq<Zone>, maxWidth: real)
    requires forall z :: z in raw ==> Priced(z)
    requires maxWidth >= 0.004
    ensures var zs := FinishAll(MergedZones(raw), maxWidth);
      Sorting.SortedBy(zs, Lo) && forall k :: 0 <= k < |zs| ==> !TooWide(zs[k], maxWidth)
  {
    var ms := MergedZones(raw);
    var zs := FinishAll(ms, maxWidth);
    MergedZonesOrdered(raw);
    forall a, b | 0 <= a < b < |zs|
      ensures Lo(zs[a]) <= Lo(zs[b])
    {
      CapKeepsOrder(ms[a], ms[b], maxWidth);
    }
    forall k | 0 <= k < |zs|
      ensures !TooWide(zs[k], maxWidth)
    {
      CapBounds(ms[k], maxWidth);
    }
  }

  // ---------------------------------------------------------------------
  // filter_zones, normalize_zones and the end of find_zones
  // ---------------------------------------------------------------------

  /** `min_zone_conf` and `n_zones` of the support/resistance configuration. */
  const MinZoneConf: real := 0.5
  const NZones: nat := 6

  /** `filter_zones` keeps a zone unless its confidence is below the minimum or it has no hits. */
  predicate Kept(z: Zone)
  {
    !(z.confidence < MinZoneConf) && z.hits != []
  }

  /** The kept zones, in their order. */
  function Filtered(zs: seq<Zone>): (r: seq<Zone>)
    ensures |r| <= |zs|
  {
    if zs == [] then []
    else Filtered(zs[..|zs| - 1]) + (if Kept(zs[|zs| - 1]) then [zs[|zs| - 1]] else [])
  }

  /** A zone survives the filter exactly when it was there and is kept. */
  lemma {:induction false} FilteredMember(zs: seq<Zone>, z: Zone)
    ensures z in Filtered(zs) <==> z in zs && Kept(z)
    decreases |zs|
  {
    if zs != [] {
      var init := zs[..|zs| - 1];
      FilteredMember(init, z);
      assert zs == init + [zs[|zs| - 1]];
    }
  }

  /** `filter_zones`: one pass, skipping the zones that are not kept. */
  method FilterZones(raw: seq<Zone>) returns (zones: seq<Zone>)
    ensures zones == Filtered(raw)
  {
    zones := [];
    for i := 0 to |raw|
      invariant zones == Filtered(raw[..i])
    {
      assert raw[..i + 1][..i] == raw[..i];
      var zone := raw[i];
      if zone.confidence < MinZoneConf {
        continue;
      }
      if zone.hits == [] {
        continue;
      }
      zones := zones + [zone];
    }
    assert raw[..|raw|] == raw;
  }

  /** Every confidence divided by the first one. */
  function Normalized(zs: seq<Zone>): (r: seq<Zone>)
    requires zs != [] && zs[0].confidence != 0.0
    ensures |r| == |zs|
  {
    seq(|zs|, k requires 0 <= k < |zs| => zs[k].(confidence := zs[k].confidence / zs[0].confidence))
  }

  /** `normalize_zones`, in place: the first zone's confidence is read once and divides every confidence. */
  method NormalizeZones(zones: array<Zone>)
    requires zones.Length > 0 && zones[0].confidence != 0.0
    modifies zones
    ensures zones[..] == Normalized(old(zones[..]))
  {
    var maxConf := zones[0].confidence;
    for i := 0 to zones.Length
      invariant forall k :: 0 <= k < i ==> zones[k] == old(zones[k]).(confidence := old(zones[k]).confidence / maxConf)
      invariant forall k :: i <= k < zones.Length ==> zones[k] == old(zones[k])
    {
      zones[i] := zones[i].(confidence := zones[i].confidence / maxConf);
    }
  }

  function NegConf(z: Zone): real { -z.confidence }

  predicate ByConfidenceDesc(zs: seq<Zone>)
  {
    forall i, j :: 0 <= i < j < |zs| ==> zs[i].confidence >= zs[j].confidence
  }

  /**
   * The kept zones by descending confidence, cut to at most `n_zones`: as
   * many as `n_zones` allows, drawn from the kept zones, and none of the
   * kept zones left out is more confident than any zone kept.
   */
  function TopZones(merged: seq<Zone>): (top: seq<Zone>)
    ensures |top| == if |Filtered(merged)| < NZones then |Filtered(merged)| else NZones
    ensures forall k :: 0 <= k < |top| ==> Kept(top[k]) && top[k] in merged
    ensures ByConfidenceDesc(top)
    ensures multiset(top) <= multiset(Filtered(merged))
    ensures MostConfident(top, Filtered(merged))
  {
    var sorted := Sorting.SortBy(Filtered(merged), NegConf);
    var n := if |sorted| < NZones then |sorted| else NZones;
    TopKept(merged, sorted, n);
    sorted[..n]
  }

  /**
   * No zone of `pool` outside `top` (counting repeats) is more confident
   * than a zone of `top`.
   */
  predicate MostConfident(top: seq<Zone>, pool: seq<Zone>)
  {
    forall z, k :: z in multiset(pool) - multiset(top) && 0 <= k < |top| ==> z.confidence <= top[k].confidence
  }

  /** Cutting a sequence leaves the tail as what the head lacks. */
  lemma SplitMultiset(s: seq<Zone>, n: nat)
    requires n <= |s|
    ensures multiset(s[..n]) <= multiset(s)
    ensures multiset(s) - multiset(s[..n]) == multiset(s[n..])
  {
    assert s == s[..n] + s[n..];
  }

  /** In a sequence sorted by descending confidence, no zone of the tail beats one of the head. */
  lemma TailDominated(s: seq<Zone>, n: nat)
    requires n <= |s| && Sorting.SortedBy(s, NegConf)
    ensures forall z, k :: z in multiset(s[n..]) && 0 <= k < n ==> z.confidence <= s[..n][k].confidence
  {
    forall z, k | z in multiset(s[n..]) && 0 <= k < n
      ensures z.confidence <= s[..n][k].confidence
    {
      assert z in s[n..];
      var j :| n <= j < |s| && s[j] == z;
      assert NegConf(s[k]) <= NegConf(s[j]);
    }
  }

  lemma TopKept(merged: seq<Zone>, sorted: seq<Zone>, n: nat)
    requires sorted == Sorting.SortBy(Filtered(merged), NegConf) && n <= |sorted|
    ensures forall k :: 0 <= k < n ==> Kept(sorted[k]) && sorted[k] in merged
    ensures ByConfidenceDesc(sorted[..n])
    ensures multiset(sorted[..n]) <= multiset(Filtered(merged))
    ensures MostConfident(sorted[..n], Filtered(merged))
  {
    SplitMultiset(sorted, n);
    TailDominated(sorted, n);
    forall k | 0 <= k < n
      ensures Kept(sorted[k]) && sorted[k] in merged
    {
      Sorting.SortBySameElements(Filtered(merged), NegConf, sorted[k]);
      FilteredMember(merged, sorted[k]);
    }
    forall i, j | 0 <= i < j < n
      ensures sorted[i].confidence >= sorted[j].confidence
    {
      assert NegConf(sorted[i]) <= NegConf(sorted[j]);
    }
  }

  /**
   * The end of `find_zones` as written: `normalize_zones` reads `front()`
   * even when the filter left nothing, which is undefined behaviour; `None`
   * stands for that case.
   */
  function RankAsWritten(merged: seq<Zone>): (r: Option<seq<Zone>>)
    ensures r.Some? ==> |r.value| == |TopZones(merged)|
  {
    var top := TopZones(merged);
    if top == [] then None else Some(Normalized(top))
  }

  /** The undefined case is reached exactly when no zone survives the filter. */
  lemma RankAsWrittenUndefined(merged: seq<Zone>)
    ensures RankAsWritten(merged).None? <==> forall z :: z in merged ==> !Kept(z)
  {
    var sorted := Sorting.SortBy(Filtered(merged), NegConf);
    if exists z :: z in merged && Kept(z) {
      var z :| z in merged && Kept(z);
      FilteredMember(merged, z);
      assert |Filtered(merged)| > 0;
    } else if Filtered(merged) != [] {
      FilteredMember(merged, Filtered(merged)[0]);
    }
  }

  /** One zone with a confidence under the minimum is enough to reach it. */
  lemma RankAsWrittenEmptyFront()
    ensures RankAsWritten([Zone(1.0, 2.0, 0.4, [Interval(0, 1)], [])]).None?
  {
    RankAsWrittenUndefined([Zone(1.0, 2.0, 0.4, [Interval(0, 1)], [])]);
  }

  /** The end of `find_zones` with normalisation skipped when no zone is left. */
  function Ranked(merged: seq<Zone>): (r: seq<Zone>)
    ensures r == match RankAsWritten(merged) case Some(v) => v case None => []
  {
    var top := TopZones(merged);
    if top == [] then [] else Normalized(top)
  }

  /**
   * Dividing confidences sorted in descending order, all positive, by the
   * first one keeps the order, puts the first at exactly 1 and every
   * confidence in (0, 1], and changes nothing else.
   */
  lemma NormalizedProperties(zs: seq<Zone>)
    requires zs != [] && ByConfidenceDesc(zs)
    requires forall k :: 0 <= k < |zs| ==> zs[k].confidence > 0.0
    ensures var r := Normalized(zs);
      ByConfidenceDesc(r) && r[0].confidence == 1.0 &&
      (forall k :: 0 <= k < |r| ==> 0.0 < r[k].confidence <= 1.0) &&
      (forall k :: 0 <= k < |r| ==> r[k].(confidence := zs[k].confidence) == zs[k])
  {
    var c := zs[0].confidence;
    var r := Normalized(zs);
    forall k | 0 <= k < |r|
      ensures 0.0 < r[k].confidence <= 1.0
      ensures r[k].(confidence := zs[k].confidence) == zs[k]
    {
      assert r[k] == zs[k].(confidence := zs[k].confidence / c);
      if k > 0 {
        assert zs[0].confidence >= zs[k].confidence;
      }
      DivUnit(zs[k].confidence, c);
    }
    assert r[0].confidence == c / c;
    forall i, j | 0 <= i < j < |r|
      ensures r[i].confidence >= r[j].confidence
    {
      assert r[i].confidence == zs[i].confidence / c && r[j].confidence == zs[j].confidence / c;
      DivMonotone(zs[j].confidence, zs[i].confidence, c);
    }
  }

  lemma DivUnit(x: real, c: real)
    requires 0.0 < x <= c
    ensures 0.0 < x / c <= 1.0
  {
  }

  /**
   * What `find_zones` promises of its result: `n_zones` zones, or all the
   * kept ones when fewer are kept, and those the most confident kept ones,
   * ordered by confidence with the first at exactly 1 and every
   * confidence in (0, 1], each with only its confidence rescaled.
   */
  lemma RankedProperties(merged: seq<Zone>)
    ensures var r := Ranked(merged); var top := TopZones(merged); var kept := Filtered(merged);
      |r| == |top| == (if |kept| < NZones then |kept| else NZones) &&
      multiset(top) <= multiset(kept) && MostConfident(top, kept) && ByConfidenceDesc(r) &&
      (r != [] ==> r[0].confidence == 1.0) &&
      (forall k :: 0 <= k < |r| ==> 0.0 < r[k].confidence <= 1.0) &&
      (forall k :: 0 <= k < |r| ==> r[k].hits != [] && r[k].(confidence := top[k].confidence) == top[k])
  {
    var top := TopZones(merged);
    if top != [] {
      NormalizedProperties(top);
    }
  }

  lemma DivMonotone(x: real, y: real, c: real)
    requires c > 0.0 && x <= y
    ensures x / c <= y / c
  {
  }

  /**
   * The end of `find_zones`: filter, sort by descending confidence, keep at
   * most `n_zones`, then normalise, which is skipped when nothing is left.
   */
  method RankZones(merged: seq<Zone>) returns (zones: seq<Zone>)
    ensures zones == Ranked(merged)
  {
    var kept := FilterZones(merged);
    var sorted := Sorting.SortBy(kept, NegConf);
    var n := if |sorted| < NZones then |sorted| else NZones;
    var top := sorted[..n];
    if top == [] {
      return [];
    }
    assert top == TopZones(merged);
    var arr := new Zone[|top|](k requires 0 <= k < |top| => top[k]);
    assert arr[..] == top;
    NormalizeZones(arr);
    zones := arr[..];
  }

  // ---------------------------------------------------------------------
  // SupportResistance::nearest
  // ---------------------------------------------------------------------

  /** A zone on the asked side: not above the price when looking below, not below it when looking above. */
  predicate OnSide(z: Zone, price: real, below: bool)
  {
    !(below && z.lo > price) && !(!below && z.hi < price)
  }

  /**
   * `nearest`: the first zone that contains the price; failing that, the
   * zone on the asked side at the least distance, the earliest among
   * equals; nothing when no zone is on that side.
   */
  method Nearest(zones: seq<Zone>, price: real, below: bool) returns (r: Option<Zone>)
    ensures r.Some? <==> exists k :: 0 <= k < |zones| && OnSide(zones[k], price, below)
    ensures forall j :: (0 <= j < |zones| && Contains(zones[j], price) &&
      forall k :: 0 <= k < j ==> !Contains(zones[k], price)) ==> r == Some(zones[j])
    ensures r.Some? && (forall k :: 0 <= k < |zones| ==> !Contains(zones[k], price)) ==>
      exists m :: 0 <= m < |zones| && r == Some(zones[m]) && OnSide(zones[m], price, below) &&
        (forall k :: 0 <= k < |zones| && OnSide(zones[k], price, below) ==>
           Distance(zones[m], price) <= Distance(zones[k], price)) &&
        (forall k :: 0 <= k < m && OnSide(zones[k], price, below) ==>
           Distance(zones[m], price) < Distance(zones[k], price))
  {
    var minDist: Option<real> := None;
    var minIdx := 0;
    for i := 0 to |zones|
      invariant forall k :: 0 <= k < i ==> !Contains(zones[k], price)
      invariant minDist.None? <==> forall k :: 0 <= k < i ==> !OnSide(zones[k], price, below)
      invariant minDist.Some? ==>
        minIdx < i && OnSide(zones[minIdx], price, below) &&
        minDist.value == Distance(zones[minIdx], price) &&
        (forall k :: 0 <= k < i && OnSide(zones[k], price, below) ==> minDist.value <= Distance(zones[k], price)) &&
        (forall k :: 0 <= k < minIdx && OnSide(zones[k], price, below) ==> minDist.value < Distance(zones[k], price))
    {
      var zone := zones[i];
      if Contains(zone, price) {
        return Some(zone);
      }
      if below && zone.lo > price {
        continue;
      } else if !below && zone.hi < price {
        continue;
      }
      var dist := Distance(zone, price);
      if minDist.None? || dist < minDist.value {
        minDist := Some(dist);
        minIdx := i;
      }
    }
    if minDist.Some? {
      return Some(zones[minIdx]);
    }
    return None;
  }
}
