/**
 * `merge_intervals` of src/ind/support_resistance.cpp: the candle index
 * ranges [l, r] in which price stayed inside a zone, sorted and fused into
 * disjoint ranges. Indices are `size_t` in the source, `nat` here.
 */
module Intervals {

  datatype Interval = Interval(l: nat, r: nat)

  /** The point `p` lies in the closed range [l, r] (an empty range when l > r). */
  predicate In(iv: Interval, p: int)
  {
    iv.l <= p <= iv.r
  }

  predicate Covered(s: seq<Interval>, p: int)
  {
    exists iv :: iv in s && In(iv, p)
  }

  /** The comparator of the source: by `l`, then by `r`. */
  predicate Le(a: Interval, b: Interval)
  {
    a.l < b.l || (a.l == b.l && a.r <= b.r)
  }

  predicate Sorted(s: seq<Interval>)
  {
    forall i, j :: 0 <= i < j < |s| ==> Le(s[i], s[j])
  }

  function Insert(x: Interval, s: seq<Interval>): (r: seq<Interval>)
    ensures multiset(r) == multiset(s) + multiset{x}
    ensures |r| == |s| + 1
  {
    if s == [] then [x]
    else if Le(x, s[0]) then [x] + s
    else
      assert s == [s[0]] + s[1..];
      [s[0]] + Insert(x, s[1..])
  }

  lemma {:induction false} InsertSorted(x: Interval, s: seq<Interval>)
    requires Sorted(s)
    ensures Sorted(Insert(x, s))
    decreases |s|
  {
    if s != [] && !Le(x, s[0]) {
      var rest := Insert(x, s[1..]);
      InsertSorted(x, s[1..]);
      forall k | 0 <= k < |rest|
        ensures Le(s[0], rest[k])
      {
        assert rest[k] in multiset(rest);
        if rest[k] != x {
          assert rest[k] in multiset(s[1..]);
          var j :| 0 <= j < |s[1..]| && s[1..][j] == rest[k];
          assert s[1 + j] == rest[k];
        }
      }
    }
  }

  /** `std::sort` with the comparator above: a sorted permutation. */
  function Sort(s: seq<Interval>): (r: seq<Interval>)
    ensures Sorted(r) && multiset(r) == multiset(s) && |r| == |s|
  {
    if s == [] then []
    else
      assert s == [s[0]] + s[1..];
      InsertSorted(s[0], Sort(s[1..]));
      Insert(s[0], Sort(s[1..]))
  }

  function Max(a: nat, b: nat): nat { if a < b then b else a }

  /**
   * One turn of the merge loop: an interval that starts at or before the
   * end of the last output range extends it, any other one opens a new range.
   */
  function Step(m: seq<Interval>, inv: Interval): (r: seq<Interval>)
    requires m != []
    ensures |m| <= |r| <= |m| + 1
  {
    var prev := m[|m| - 1];
    if inv.l <= prev.r then m[..|m| - 1] + [Interval(prev.l, Max(inv.r, prev.r))]
    else m + [inv]
  }

  /** The merge loop over the first `n` intervals of `s`. */
  function MergeRun(s: seq<Interval>, n: nat): (m: seq<Interval>)
    requires 1 <= n <= |s|
    ensures 1 <= |m| <= n
  {
    if n == 1 then [s[0]] else Step(MergeRun(s, n - 1), s[n - 1])
  }

  function Merged(s: seq<Interval>): (m: seq<Interval>)
    ensures |m| <= |s|
  {
    if s == [] then [] else MergeRun(s, |s|)
  }

  /** Every output range ends before any later one starts. */
  predicate Separated(m: seq<Interval>)
  {
    forall i, j :: 0 <= i < j < |m| ==> m[i].r < m[j].l
  }

  lemma CoveredAppend(a: seq<Interval>, x: Interval, p: int)
    ensures Covered(a + [x], p) <==> Covered(a, p) || In(x, p)
  {
    if Covered(a + [x], p) {
      var iv :| iv in a + [x] && In(iv, p);
      if iv != x {
        assert iv in a;
      }
    }
    if Covered(a, p) {
      var iv :| iv in a && In(iv, p);
      assert iv in a + [x];
    }
    assert x in a + [x];
  }

  /** A turn keeps the ranges separated when the new interval starts no earlier than the last range. */
  lemma StepSeparated(m: seq<Interval>, inv: Interval)
    requires m != [] && Separated(m) && m[|m| - 1].l <= inv.l
    ensures var r := Step(m, inv); Separated(r) && r[|r| - 1].l <= inv.l
  {
    var r := Step(m, inv);
    var prev := m[|m| - 1];
    if inv.l <= prev.r {
      forall i, j | 0 <= i < j < |r|
        ensures r[i].r < r[j].l
      {
        assert r[i] == m[i];
        if j < |r| - 1 {
          assert r[j] == m[j];
        } else {
          assert r[j].l == prev.l;
        }
      }
    } else {
      forall i, j | 0 <= i < j < |r|
        ensures r[i].r < r[j].l
      {
        assert r[i] == m[i];
        if j < |r| - 1 {
          assert r[j] == m[j];
        } else if i < |m| - 1 {
          assert m[i].r < prev.l;
        }
      }
    }
  }

  /** A turn covers exactly what the ranges before it and the new interval cover. */
  lemma StepCovers(m: seq<Interval>, inv: Interval, p: int)
    requires m != [] && m[|m| - 1].l <= inv.l
    ensures Covered(Step(m, inv), p) <==> Covered(m, p) || In(inv, p)
  {
    var prev := m[|m| - 1];
    if inv.l <= prev.r {
      var init := m[..|m| - 1];
      assert m == init + [prev];
      CoveredAppend(init, Interval(prev.l, Max(inv.r, prev.r)), p);
      CoveredAppend(init, prev, p);
    } else {
      CoveredAppend(m, inv, p);
    }
  }

  /** The output so far is separated and its last range starts no later than the last interval read. */
  lemma {:induction false} MergeRunSeparated(s: seq<Interval>, n: nat)
    requires Sorted(s) && 1 <= n <= |s|
    ensures var m := MergeRun(s, n); Separated(m) && m[|m| - 1].l <= s[n - 1].l
    decreases n
  {
    if n > 1 {
      MergeRunSeparated(s, n - 1);
      assert Le(s[n - 2], s[n - 1]);
      StepSeparated(MergeRun(s, n - 1), s[n - 1]);
    }
  }

  /** Some one of the first `n` intervals of `s` contains `p`. */
  predicate CoveredBy(s: seq<Interval>, n: nat, p: int)
    requires n <= |s|
  {
    exists k :: 0 <= k < n && In(s[k], p)
  }

  lemma CoveredByStep(s: seq<Interval>, n: nat, p: int)
    requires 1 <= n <= |s|
    ensures CoveredBy(s, n, p) <==> CoveredBy(s, n - 1, p) || In(s[n - 1], p)
  {
  }

  /** The output so far covers exactly the points the intervals read so far cover. */
  lemma {:induction false} MergeRunCovers(s: seq<Interval>, n: nat, p: int)
    requires Sorted(s) && 1 <= n <= |s|
    ensures Covered(MergeRun(s, n), p) <==> CoveredBy(s, n, p)
    decreases n
  {
    if n == 1 {
      CoversFirst(s, p);
    } else {
      MergeRunCovers(s, n - 1, p);
      MergeRunSeparated(s, n - 1);
      assert Le(s[n - 2], s[n - 1]);
      CoversStep(MergeRun(s, n - 1), s, n, p);
    }
  }

  /** The first interval read: the output is that interval alone. */
  lemma CoversFirst(s: seq<Interval>, p: int)
    requires 1 <= |s|
    ensures Covered(MergeRun(s, 1), p) <==> CoveredBy(s, 1, p)
  {
    CoveredByStep(s, 1, p);
    CoveredAppend([], s[0], p);
    assert [] + [s[0]] == MergeRun(s, 1);
  }

  /** One more interval read: the output and the prefix read both gain exactly its points. */
  lemma CoversStep(m: seq<Interval>, s: seq<Interval>, n: nat, p: int)
    requires 2 <= n <= |s| && m != [] && m[|m| - 1].l <= s[n - 1].l
    requires Covered(m, p) <==> CoveredBy(s, n - 1, p)
    ensures Covered(Step(m, s[n - 1]), p) <==> CoveredBy(s, n, p)
  {
    StepCovers(m, s[n - 1], p);
    CoveredByStep(s, n, p);
  }

  /**
   * `merge_intervals` sorts `raw_invs` in place and returns the fused
   * ranges; an empty input is returned as it is.
   */
  method MergeIntervals(raw: seq<Interval>) returns (invs: seq<Interval>)
    ensures invs == Merged(Sort(raw))
    ensures |invs| <= |raw| && Separated(invs)
    ensures forall p :: Covered(invs, p) <==> Covered(raw, p)
  {
    MergedProperties(raw);
    if raw == [] {
      return raw;
    }
    invs := MergeSorted(Sort(raw));
  }

  /** The merge loop of `merge_intervals` over the sorted, non-empty intervals. */
  method MergeSorted(sorted: seq<Interval>) returns (invs: seq<Interval>)
    requires sorted != []
    ensures invs == Merged(sorted)
  {
    invs := [sorted[0]];
    for i := 1 to |sorted|
      invariant invs == MergeRun(sorted, i)
    {
      var inv := sorted[i];
      var prev := invs[|invs| - 1];
      if inv.l <= prev.r {
        invs := invs[..|invs| - 1] + [Interval(prev.l, Max(inv.r, prev.r))];
      } else {
        invs := invs + [inv];
      }
    }
  }

  /** Rearranging intervals does not change the points they cover. */
  lemma PermutationCovers(a: seq<Interval>, b: seq<Interval>, p: int)
    requires multiset(a) == multiset(b)
    ensures Covered(a, p) ==> Covered(b, p)
  {
    if Covered(a, p) {
      var iv :| iv in a && In(iv, p);
      assert iv in multiset(b);
    }
  }

  lemma CoveredByAll(s: seq<Interval>, p: int)
    ensures Covered(s, p) <==> CoveredBy(s, |s|, p)
  {
    if Covered(s, p) {
      var iv :| iv in s && In(iv, p);
      var k :| 0 <= k < |s| && s[k] == iv;
    }
    if CoveredBy(s, |s|, p) {
      var k :| 0 <= k < |s| && In(s[k], p);
      assert s[k] in s;
    }
  }

  /**
   * What `merge_intervals` promises: no more ranges than it was given,
   * sorted and pairwise disjoint, and covering exactly the points the
   * input covered.
   */
  lemma MergedProperties(raw: seq<Interval>)
    ensures var m := Merged(Sort(raw));
      |m| <= |raw| && Separated(m) &&
      forall p :: Covered(m, p) <==> Covered(raw, p)
  {
    var s := Sort(raw);
    forall p
      ensures Covered(Merged(s), p) <==> Covered(raw, p)
    {
      PermutationCovers(s, raw, p);
      PermutationCovers(raw, s, p);
      CoveredByAll(s, p);
      if s != [] {
        MergeRunCovers(s, |s|, p);
      }
    }
    if s != [] {
      MergeRunSeparated(s, |s|);
    }
  }
}
