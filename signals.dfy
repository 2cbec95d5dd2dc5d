/**
 * The signal records of include/sig/signals.h and include/sig/signal_types.h
 * and the per-timeframe signal memory of src/sig/signal_memory.cpp: a
 * bounded queue of past signals, their decayed mean score and their rating
 * tally.
 */
module Signals {
  import Times

  datatype Rating = Exit | Entry | HoldCautiously | Watchlist | Mixed | None | OldWatchlist | Caution | Skip

  /**
   * A `Reason` or `Hint`: its type number, score and description. The
   * severity and class tables behind them are not part of this model.
   */
  datatype Note = Note(kind: nat, score: real, desc: string)

  /** A signal: its rating, score, time (seconds) and the reasons and hints behind it. */
  datatype Signal = Signal(rating: Rating, score: real, tp: int, reasons: seq<Note>, hints: seq<Note>)

  predicate HasRating(s: Signal) { s.rating != Rating.None }

  predicate HasReasons(s: Signal) { s.reasons != [] }

  predicate HasHints(s: Signal) { s.hints != [] }

  // ---------------------------------------------------------------------
  // The queue
  // ---------------------------------------------------------------------

  /** `push_back`: append, then drop the oldest signal when the memory overflows. */
  function Pushed(past: seq<Signal>, sig: Signal, len: int): (r: seq<Signal>)
    ensures |past| <= len ==> |r| <= len
    ensures 1 <= len ==> r != [] && r[|r| - 1] == sig
  {
    var q := past + [sig];
    if |q| > len then q[1..] else q
  }

  /** `pop_back`: drop the newest signal, if there is one. */
  function Popped(past: seq<Signal>): (r: seq<Signal>)
    ensures past == [] ==> r == []
    ensures past != [] ==> r + [past[|past| - 1]] == past
  {
    if past == [] then past else past[..|past| - 1]
  }

  /**
   * Within the bound a push appends; at the bound it also drops the
   * oldest signal, so the memory never grows past its length.
   */
  lemma PushedDropsOldest(past: seq<Signal>, sig: Signal, len: int)
    requires 1 <= len && |past| <= len
    ensures Pushed(past, sig, len) == if |past| < len then past + [sig] else past[1..] + [sig]
  {
    if |past| == len {
      assert (past + [sig])[1..] == past[1..] + [sig];
    }
  }

  /** Below the bound, a push followed by a pop gives back the memory. */
  lemma PushPopRestores(past: seq<Signal>, sig: Signal, len: int)
    requires |past| < len
    ensures Popped(Pushed(past, sig, len)) == past
  {
    assert (past + [sig])[..|past|] == past;
  }

  /** At the bound, a push followed by a pop loses the oldest signal. */
  lemma PushPopAtBound(past: seq<Signal>, sig: Signal, len: int)
    requires 1 <= |past| == len
    ensures Popped(Pushed(past, sig, len)) == past[1..]
  {
    assert (past + [sig])[1..] == past[1..] + [sig];
    assert (past[1..] + [sig])[..|past| - 1] == past[1..];
  }

  // ---------------------------------------------------------------------
  // score
  // ---------------------------------------------------------------------

  /** The running score of `score`: after each signal it becomes `scr * decay + score`. */
  function DecayedSum(past: seq<Signal>, decay: real): real
  {
    if past == [] then 0.0 else DecayedSum(past[..|past| - 1], decay) * decay + past[|past| - 1].score
  }

  /** The weight of `score` as written: after each signal it becomes `weight * decay + decay`. */
  function WeightAsWritten(past: seq<Signal>, decay: real): real
  {
    if past == [] then 0.0 else WeightAsWritten(past[..|past| - 1], decay) * decay + decay
  }

  function ScoreAsWritten(past: seq<Signal>, decay: real): real
  {
    var scr := DecayedSum(past, decay);
    var weight := WeightAsWritten(past, decay);
    if weight > 0.0 then scr / weight else 0.0
  }

  /**
   * The weight that matches the running score: each signal adds weight 1
   * and older weights are multiplied by `decay`.
   */
  function DecayedWeight(past: seq<Signal>, decay: real): real
  {
    if past == [] then 0.0 else DecayedWeight(past[..|past| - 1], decay) * decay + 1.0
  }

  /** The decayed mean of the remembered scores; 0 for an empty memory. */
  function ScoreMean(past: seq<Signal>, decay: real): real
  {
    var scr := DecayedSum(past, decay);
    var weight := DecayedWeight(past, decay);
    if weight > 0.0 then scr / weight else 0.0
  }

  /** The weight as written is `decay` times the one that matches the running score. */
  lemma {:induction false} WeightAsWrittenScaled(past: seq<Signal>, decay: real)
    ensures WeightAsWritten(past, decay) == decay * DecayedWeight(past, decay)
    decreases |past|
  {
    if past != [] {
      var init := past[..|past| - 1];
      WeightAsWrittenScaled(init, decay);
      var w := DecayedWeight(init, decay);
      assert (decay * w) * decay + decay == decay * (w * decay + 1.0);
    }
  }

  /** With a nonnegative decay the weight of a non-empty memory is at least 1. */
  lemma {:induction false} WeightAtLeastOne(past: seq<Signal>, decay: real)
    requires decay >= 0.0
    ensures past != [] ==> DecayedWeight(past, decay) >= 1.0
    ensures DecayedWeight(past, decay) >= 0.0
    decreases |past|
  {
    if past != [] {
      WeightAtLeastOne(past[..|past| - 1], decay);
      MulMono(0.0, DecayedWeight(past[..|past| - 1], decay), decay);
    }
  }

  lemma DivDiv(a: real, b: real, c: real)
    requires b > 0.0 && c > 0.0
    ensures a / (c * b) == (a / b) / c
  {
    var q := a / b;
    assert q * b == a;
    assert (q / c) * c == q;
    assert (q / c) * (c * b) == ((q / c) * c) * b;
  }

  /**
   * As written, `score` is the decayed mean divided by `decay`: with the
   * configured 0.5 it doubles the mean.
   */
  lemma ScoreAsWrittenScaled(past: seq<Signal>, decay: real)
    requires decay > 0.0 && past != []
    ensures ScoreAsWritten(past, decay) == ScoreMean(past, decay) / decay
  {
    WeightAsWrittenScaled(past, decay);
    WeightAtLeastOne(past, decay);
    var w := DecayedWeight(past, decay);
    MulPos(decay, w);
    DivDiv(DecayedSum(past, decay), w, decay);
  }

  lemma MulPos(x: real, y: real)
    requires x > 0.0 && y > 0.0
    ensures x * y > 0.0
  {
  }

  /** One remembered signal of score 0.6 gives 1.2, outside the [-1, 1] range of a signal score. */
  lemma ScoreAsWrittenOutOfRange()
    ensures ScoreAsWritten([Signal(Entry, 0.6, 0, [], [])], 0.5) == 1.2
    ensures ScoreMean([Signal(Entry, 0.6, 0, [], [])], 0.5) == 0.6
  {
    var past := [Signal(Entry, 0.6, 0, [], [])];
    assert past[..0] == [];
  }

  /** Every score of the memory lies in [lo, hi]. */
  predicate ScoresIn(past: seq<Signal>, lo: real, hi: real)
  {
    forall k :: 0 <= k < |past| ==> lo <= past[k].score <= hi
  }

  /** A running score between `lo` and `hi` times its weight. */
  predicate Bounded(scr: real, w: real, lo: real, hi: real)
  {
    lo * w <= scr <= hi * w
  }

  /** One step of the running score keeps it between the least and greatest score times the weight. */
  lemma StepBetween(scr: real, w: real, decay: real, s: real, lo: real, hi: real)
    requires decay >= 0.0 && Bounded(scr, w, lo, hi) && lo <= s <= hi
    ensures Bounded(scr * decay + s, w * decay + 1.0, lo, hi)
  {
    MulMono(lo * w, scr, decay);
    MulMono(scr, hi * w, decay);
    assert lo * (w * decay + 1.0) == (lo * w) * decay + lo;
    assert hi * (w * decay + 1.0) == (hi * w) * decay + hi;
  }

  lemma StepInto(scr: real, w: real, decay: real, s: real, lo: real, hi: real, scr': real, w': real)
    requires decay >= 0.0 && Bounded(scr, w, lo, hi) && lo <= s <= hi
    requires scr' == scr * decay + s && w' == w * decay + 1.0
    ensures Bounded(scr', w', lo, hi)
  {
    StepBetween(scr, w, decay, s, lo, hi);
  }

  lemma ScoresInPrefix(past: seq<Signal>, lo: real, hi: real)
    requires past != [] && ScoresIn(past, lo, hi)
    ensures ScoresIn(past[..|past| - 1], lo, hi) && lo <= past[|past| - 1].score <= hi
  {
  }

  /** The running score lies between the least and the greatest score times the weight. */
  lemma {:induction false} SumBetween(past: seq<Signal>, decay: real, lo: real, hi: real)
    requires decay >= 0.0 && ScoresIn(past, lo, hi)
    ensures Bounded(DecayedSum(past, decay), DecayedWeight(past, decay), lo, hi)
    decreases |past|
  {
    if past != [] {
      var init := past[..|past| - 1];
      var x := past[|past| - 1].score;
      ScoresInPrefix(past, lo, hi);
      SumBetween(init, decay, lo, hi);
      StepInto(DecayedSum(init, decay), DecayedWeight(init, decay), decay, x, lo, hi,
        DecayedSum(past, decay), DecayedWeight(past, decay));
    }
  }

  lemma MulMono(x: real, y: real, c: real)
    requires x <= y && c >= 0.0
    ensures x * c <= y * c
  {
  }

  /** The decayed mean of a non-empty memory lies between its least and greatest score. */
  lemma ScoreMeanBetween(past: seq<Signal>, decay: real, lo: real, hi: real)
    requires decay >= 0.0 && past != []
    requires forall k :: 0 <= k < |past| ==> lo <= past[k].score <= hi
    ensures lo <= ScoreMean(past, decay) <= hi
  {
    assert ScoresIn(past, lo, hi);
    SumBetween(past, decay, lo, hi);
    WeightAtLeastOne(past, decay);
    MeanBetween(DecayedSum(past, decay), DecayedWeight(past, decay), lo, hi);
  }

  lemma MeanBetween(scr: real, w: real, lo: real, hi: real)
    requires w > 0.0 && Bounded(scr, w, lo, hi)
    ensures lo <= scr / w <= hi
  {
    assert (lo * w) / w == lo;
    assert (hi * w) / w == hi;
    DivMono(lo * w, scr, w);
    DivMono(scr, hi * w, w);
  }

  lemma DivMono(x: real, y: real, c: real)
    requires x <= y && c > 0.0
    ensures x / c <= y / c
  {
  }

  // ---------------------------------------------------------------------
  // rating_score
  // ---------------------------------------------------------------------

  /** The four counters of `rating_score`. */
  datatype Tally = Tally(entry: int, strongWatchlist: int, exit: int, strongCaution: int)

  function B2I(b: bool): int { if b then 1 else 0 }

  /** One turn of the `rating_score` loop. */
  function TallyStep(t: Tally, sig: Signal, threshold: real): Tally
  {
    match sig.rating
    case Entry => t.(entry := t.entry + 1 + B2I(sig.score >= threshold))
    case Watchlist => t.(strongWatchlist := t.strongWatchlist + B2I(sig.score >= threshold))
    case Exit => t.(exit := t.exit + 1 + B2I(sig.score <= -threshold))
    case Caution => t.(strongCaution := t.strongCaution + B2I(sig.score <= -threshold))
    case HoldCautiously => t.(strongCaution := t.strongCaution + B2I(sig.score <= -threshold))
    case _ => t
  }

  function TallyOf(past: seq<Signal>, threshold: real): (t: Tally)
    ensures t.strongWatchlist >= 0 && t.strongCaution >= 0
  {
    if past == [] then Tally(0, 0, 0, 0) else TallyStep(TallyOf(past[..|past| - 1], threshold), past[|past| - 1], threshold)
  }

  /** Entries minus exits, each strong Watchlist pair (rounded up) counting as one entry and each strong Caution pair as one exit. */
  function RatingScoreOf(past: seq<Signal>, threshold: real): int
  {
    var t := TallyOf(past, threshold);
    (t.entry + (t.strongWatchlist + 1) / 2) - (t.exit + (t.strongCaution + 1) / 2)
  }

  /** An empty memory scores 0. */
  lemma RatingScoreEmpty(threshold: real)
    ensures RatingScoreOf([], threshold) == 0
  {
  }

  /** Appending an Entry raises the rating score by 2 when strong, else by 1; an Exit lowers it likewise. */
  lemma RatingScoreEntryExit(past: seq<Signal>, sig: Signal, threshold: real)
    requires sig.rating == Entry || sig.rating == Exit
    ensures var before := RatingScoreOf(past, threshold); var after := RatingScoreOf(past + [sig], threshold);
      (sig.rating == Entry ==> after == before + if sig.score >= threshold then 2 else 1) &&
      (sig.rating == Exit ==> after == before - if sig.score <= -threshold then 2 else 1)
  {
    assert (past + [sig])[..|past|] == past;
  }

  /** Signals that are neither Entry, Watchlist, Exit, Caution nor HoldCautiously leave the rating score alone. */
  lemma RatingScoreIgnores(past: seq<Signal>, sig: Signal, threshold: real)
    requires sig.rating in {Mixed, Rating.None, OldWatchlist, Skip}
    ensures RatingScoreOf(past + [sig], threshold) == RatingScoreOf(past, threshold)
  {
    assert (past + [sig])[..|past|] == past;
  }

  /** Strong Watchlist signals add the rounded-up half of their number; strong Caution ones subtract it. */
  lemma {:induction false} RatingScoreHalves(past: seq<Signal>, threshold: real)
    requires forall k :: 0 <= k < |past| ==> past[k].rating in {Watchlist, Caution}
    ensures var w := StrongCount(past, Watchlist, threshold); var c := StrongCount(past, Caution, threshold);
      RatingScoreOf(past, threshold) == (w + 1) / 2 - (c + 1) / 2
    decreases |past|
  {
    TallyHalves(past, threshold);
  }

  lemma {:induction false} TallyHalves(past: seq<Signal>, threshold: real)
    requires forall k :: 0 <= k < |past| ==> past[k].rating in {Watchlist, Caution}
    ensures TallyOf(past, threshold) ==
      Tally(0, StrongCount(past, Watchlist, threshold), 0, StrongCount(past, Caution, threshold))
    decreases |past|
  {
    if past != [] {
      TallyHalves(past[..|past| - 1], threshold);
    }
  }

  /** How many signals of the rating are strong: a Watchlist at or above the threshold, a Caution at or below its negative. */
  function StrongCount(past: seq<Signal>, r: Rating, threshold: real): (n: nat)
    ensures n <= |past|
  {
    if past == [] then 0
    else
      var last := past[|past| - 1];
      var strong := if r == Watchlist then last.score >= threshold else last.score <= -threshold;
      StrongCount(past[..|past| - 1], r, threshold) + B2I(last.rating == r && strong)
  }

  // ---------------------------------------------------------------------
  // SignalMemory
  // ---------------------------------------------------------------------

  /** The signals of one timeframe, newest last, at most `memoryLength` of them. */
  class SignalMemory {
    var past: seq<Signal>
    var memoryLength: int

    ghost predicate Valid()
      reads this
    {
      1 <= memoryLength && |past| <= memoryLength
    }

    /** 16 signals for 1h, 10 for 4h, 6 for any other interval (minutes). */
    constructor(interval: int)
      ensures past == []
      ensures memoryLength == if interval == Times.H1 then 16 else if interval == Times.H4 then 10 else 6
      ensures Valid()
    {
      past := [];
      if interval == Times.H1 {
        memoryLength := 16;
      } else if interval == Times.H4 {
        memoryLength := 10;
      } else {
        memoryLength := 6;
      }
    }

    method PushBack(sig: Signal)
      requires Valid()
      modifies this
      ensures past == Pushed(old(past), sig, old(memoryLength))
      ensures memoryLength == old(memoryLength)
      ensures Valid()
    {
      past := past + [sig];
      if |past| > memoryLength {
        past := past[1..];
      }
    }

    method PopBack()
      requires Valid()
      modifies this
      ensures past == Popped(old(past))
      ensures memoryLength == old(memoryLength)
      ensures Valid()
    {
      if past != [] {
        past := past[..|past| - 1];
      }
    }

    /** `score()`: the decayed mean of the remembered scores (with the weight corrected; see `ScoreAsWritten`). */
    method Score(decay: real) returns (r: real)
      ensures r == ScoreMean(past, decay)
    {
      var scr := 0.0;
      var weight := 0.0;
      for i := 0 to |past|
        invariant scr == DecayedSum(past[..i], decay)
        invariant weight == DecayedWeight(past[..i], decay)
      {
        assert past[..i + 1][..i] == past[..i];
        scr := scr * decay + past[i].score;
        weight := weight * decay + 1.0;
      }
      assert past[..|past|] == past;
      r := if weight > 0.0 then scr / weight else 0.0;
    }

    /** `rating_score()`: the tally of Entry and Exit signals and the halves of strong Watchlist and Caution ones. */
    method RatingScore(threshold: real) returns (r: int)
      ensures r == RatingScoreOf(past, threshold)
    {
      var nEntry, nStrongWatchlist, nExit, nStrongCaution := 0, 0, 0, 0;
      for i := 0 to |past|
        invariant Tally(nEntry, nStrongWatchlist, nExit, nStrongCaution) == TallyOf(past[..i], threshold)
      {
        assert past[..i + 1][..i] == past[..i];
        var sig := past[i];
        match sig.rating {
          case Entry =>
            nEntry := nEntry + 1 + B2I(sig.score >= threshold);
          case Watchlist =>
            nStrongWatchlist := nStrongWatchlist + B2I(sig.score >= threshold);
          case Exit =>
            nExit := nExit + 1 + B2I(sig.score <= -threshold);
          case Caution =>
            nStrongCaution := nStrongCaution + B2I(sig.score <= -threshold);
          case HoldCautiously =>
            nStrongCaution := nStrongCaution + B2I(sig.score <= -threshold);
          case _ =>
        }
      }
      assert past[..|past|] == past;
      nEntry := nEntry + (nStrongWatchlist + 1) / 2;
      nExit := nExit + (nStrongCaution + 1) / 2;
      r := nEntry - nExit;
    }
  }
}
