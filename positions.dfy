/**
 * Trades and net positions of src/core/positions.cpp.
 *
 * Doubles are `real`. A trade's date string is kept already parsed into its
 * `LocalTimePoint` (seconds, see the Times module); reading the trades file
 * and the `clean_trades.py` call of `update_trades` are left out.
 */
module Positions {
  import opened Wrappers

  datatype Action = Buy | Sell

  /** `Trade` of include/core/positions.h; `time` is `time()` of its date. */
  datatype Trade = Trade(time: int, ticker: string, action: Action, qty: real, px: real, total: real,
                         remark: string, rating: int)

  /** `Position` of include/core/positions.h; the default position is all zeros at the epoch. */
  datatype Position = Position(qty: real, px: real, total: real, maxPriceSeen: real, tp: int)

  const NoPosition: Position := Position(0.0, 0.0, 0.0, 0.0, 0)

  // ---------------------------------------------------------------------
  // operator-, pnl, pct
  // ---------------------------------------------------------------------

  /** `std::round`: to the nearest integer, halves away from zero. */
  function Round(x: real): (r: int)
    ensures x >= 0.0 ==> x - 0.5 < r as real <= x + 0.5
    ensures x < 0.0 ==> x - 0.5 <= r as real < x + 0.5
  {
    if x >= 0.0 then (x + 0.5).Floor else -((-x + 0.5).Floor)
  }

  /**
   * `lhs - rhs`: the difference of quantities and totals, the average price
   * of the difference rounded to a whole number (0 when the quantities are
   * equal), no highest price and the epoch as time.
   */
  function Difference(lhs: Position, rhs: Position): (r: Position)
    ensures r.qty == lhs.qty - rhs.qty && r.total == lhs.total - rhs.total
    ensures r.qty == 0.0 ==> r.px == 0.0
    ensures r.qty != 0.0 ==> r.px == Round(r.total / r.qty) as real
    ensures r.maxPriceSeen == 0.0 && r.tp == 0
  {
    var diffQty := lhs.qty - rhs.qty;
    var diffCost := lhs.total - rhs.total;
    var diffPx := if diffQty != 0.0 then Round(diffCost / diffQty) as real else 0.0;
    Position(diffQty, diffPx, diffCost, 0.0, 0)
  }

  /** A position minus itself is flat at price 0; minus no position it keeps its quantity and total. */
  lemma DifferenceIdentities(p: Position)
    ensures Difference(p, p) == NoPosition
    ensures Difference(p, NoPosition).qty == p.qty && Difference(p, NoPosition).total == p.total
  {
  }

  /** `pnl(price)`: the gain of the position if closed at `price`. */
  function Pnl(p: Position, price: real): (r: real)
    ensures p.qty == 0.0 || price == p.px ==> r == 0.0
  {
    (price - p.px) * p.qty
  }

  /** A long position gains exactly when the price is above its average price. */
  lemma PnlSign(p: Position, price: real)
    requires p.qty > 0.0
    ensures Pnl(p, price) > 0.0 <==> price > p.px
    ensures Pnl(p, price) < 0.0 <==> price < p.px
  {
    var d := price - p.px;
    if d > 0.0 {
      assert d * p.qty > 0.0 * p.qty;
    } else if d < 0.0 {
      assert (-d) * p.qty > 0.0 * p.qty;
    }
  }

  /** `pct(price)`: the gain in percent of the absolute cost; 0 when the cost is 0. */
  function Pct(p: Position, price: real): (r: real)
    ensures p.px * p.qty == 0.0 ==> r == 0.0
    ensures p.px * p.qty != 0.0 ==> (r > 0.0 <==> Pnl(p, price) > 0.0) && (r < 0.0 <==> Pnl(p, price) < 0.0)
  {
    var cost := p.px * p.qty;
    var absCost := if cost < 0.0 then -cost else cost;
    if cost != 0.0 then Pnl(p, price) / absCost * 100.0 else 0.0
  }

  // ---------------------------------------------------------------------
  // net_position
  // ---------------------------------------------------------------------

  /** `8 * numeric_limits<double>::epsilon()`, that is 8 * 2^-52. */
  const Eps: real := 1.0 / 562949953421312.0

  /** The running sums of `net_position`. */
  datatype Net = Net(qty: real, total: real, cost: real, pnl: real, tp: int)

  const Start: Net := Net(0.0, 0.0, 0.0, 0.0, 0)

  function Sign(a: Action): real { if a == Buy then 1.0 else -1.0 }

  /**
   * One trade: a buy adds its quantity, total and cost, a sell subtracts
   * them; once the quantity falls below `Eps` the position is closed, its
   * total moves into the profit and the sums restart from zero.
   */
  function NetStep(s: Net, t: Trade): Net
  {
    var tp := if s.tp < t.time then t.time else s.tp;
    var qty := s.qty + Sign(t.action) * t.qty;
    var total := s.total + Sign(t.action) * t.total;
    var cost := s.cost + Sign(t.action) * t.qty * t.px;
    if qty < Eps then Net(0.0, 0.0, 0.0, s.pnl - total, tp)
    else Net(qty, total, cost, s.pnl, tp)
  }

  /** The sums after the first `n` trades. */
  function NetRun(trades: seq<Trade>, n: nat): Net
    requires n <= |trades|
  {
    if n == 0 then Start else NetStep(NetRun(trades, n - 1), trades[n - 1])
  }

  /**
   * What `net_position` returns: no position when the final quantity is
   * below `Eps`, otherwise the quantity at its average cost; in both cases
   * the realised profit.
   */
  function NetOf(trades: seq<Trade>): (r: (Position, real))
    ensures r.0 == NoPosition || r.0.qty >= Eps
    ensures r.1 == NetRun(trades, |trades|).pnl
  {
    var s := NetRun(trades, |trades|);
    if s.qty < Eps then (NoPosition, s.pnl)
    else (Position(s.qty, s.cost / s.qty, s.total, 0.0, s.tp), s.pnl)
  }

  /** `net_position(trades)`. */
  method NetPosition(trades: seq<Trade>) returns (pos: Position, pnl: real)
    ensures (pos, pnl) == NetOf(trades)
  {
    var qty, total, cost := 0.0, 0.0, 0.0;
    pnl := 0.0;
    var tp := 0;
    for i := 0 to |trades|
      invariant NetRun(trades, i) == Net(qty, total, cost, pnl, tp)
    {
      var t := trades[i];
      tp := if tp < t.time then t.time else tp;
      var mult := if t.action == Buy then 1.0 else -1.0;
      qty := qty + mult * t.qty;
      total := total + mult * t.total;
      cost := cost + mult * t.qty * t.px;
      if qty < Eps {
        pnl := pnl - total;
        qty, total, cost := 0.0, 0.0, 0.0;
      }
    }
    if qty < Eps {
      return NoPosition, pnl;
    }
    pos := Position(qty, cost / qty, total, 0.0, tp);
  }

  /** The time of the net position is the latest trade time (the epoch when that is earlier). */
  lemma {:induction false} NetTimeIsLatest(trades: seq<Trade>, n: nat)
    requires n <= |trades|
    ensures forall i :: 0 <= i < n ==> trades[i].time <= NetRun(trades, n).tp
    ensures NetRun(trades, n).tp == 0 || exists i :: 0 <= i < n && NetRun(trades, n).tp == trades[i].time
    ensures 0 <= NetRun(trades, n).tp
  {
    if n > 0 {
      NetTimeIsLatest(trades, n - 1);
      var s := NetRun(trades, n - 1);
      if s.tp < trades[n - 1].time {
        assert NetRun(trades, n).tp == trades[n - 1].time;
      } else {
        assert NetRun(trades, n).tp == s.tp;
      }
    }
  }

  /** Buying a quantity and selling all of it closes the position with the difference of the totals as profit. */
  lemma RoundTripClosesPosition(buy: Trade, sell: Trade)
    requires buy.action == Buy && sell.action == Sell
    requires buy.qty == sell.qty && buy.qty >= Eps
    ensures NetOf([buy, sell]) == (NoPosition, sell.total - buy.total)
  {
    var ts := [buy, sell];
    assert NetRun(ts, 1) == Net(buy.qty, buy.total, buy.qty * buy.px, 0.0, NetRun(ts, 1).tp);
  }

  function SumQty(trades: seq<Trade>, n: nat): real
    requires n <= |trades|
  {
    if n == 0 then 0.0 else SumQty(trades, n - 1) + trades[n - 1].qty
  }

  function SumTotal(trades: seq<Trade>, n: nat): real
    requires n <= |trades|
  {
    if n == 0 then 0.0 else SumTotal(trades, n - 1) + trades[n - 1].total
  }

  /** Buys of at least `Eps` never close the position: quantity and total are plain sums and nothing is realised. */
  lemma {:induction false} BuysAccumulate(trades: seq<Trade>, n: nat)
    requires n <= |trades|
    requires forall i :: 0 <= i < |trades| ==> trades[i].action == Buy && trades[i].qty >= Eps
    ensures NetRun(trades, n).qty == SumQty(trades, n)
    ensures NetRun(trades, n).total == SumTotal(trades, n)
    ensures NetRun(trades, n).pnl == 0.0
    ensures n > 0 ==> NetRun(trades, n).qty >= Eps
  {
    if n > 0 {
      BuysAccumulate(trades, n - 1);
    }
  }

  // ---------------------------------------------------------------------
  // parse_remark_rating
  // ---------------------------------------------------------------------

  /** `s.find(ch, from)`: the first index from `from` on holding `ch`. */
  function Find(s: string, ch: char, from: nat): (r: Option<nat>)
    ensures r.Some? ==> from <= r.value < |s| && s[r.value] == ch &&
                        forall i :: from <= i < r.value ==> s[i] != ch
    ensures r.None? ==> forall i :: from <= i < |s| ==> s[i] != ch
    decreases |s| - from
  {
    if from >= |s| then None
    else if s[from] == ch then Some(from)
    else Find(s, ch, from + 1)
  }

  /** The first quote from `from` on that does not follow a backslash. */
  function ClosingQuote(line: string, from: nat): (r: Option<nat>)
    requires 1 <= from
    ensures r.Some? ==> from <= r.value < |line| && line[r.value] == '"' && line[r.value - 1] != '\\'
    ensures r.Some? ==> forall i :: from <= i < r.value && line[i] == '"' ==> line[i - 1] == '\\'
    ensures r.None? ==> forall i :: from <= i < |line| && line[i] == '"' ==> line[i - 1] == '\\'
    decreases |line| - from
  {
    match Find(line, '"', from)
    case None => None
    case Some(e) => if line[e - 1] == '\\' then ClosingQuote(line, e + 1) else Some(e)
  }

  const IntMin: int := -0x8000_0000
  const IntMax: int := 0x7fff_ffff

  /** The white-space characters of `isspace` in the C locale. */
  predicate IsSpace(c: char)
  {
    c == ' ' || c == '\t' || c == '\n' || c == '\U{0B}' || c == '\U{0C}' || c == '\r'
  }

  predicate IsDigit(c: char) { '0' <= c <= '9' }

  /** The first index from `i` on that is not white space. */
  function SkipSpaces(s: string, i: nat): (r: nat)
    requires i <= |s|
    ensures i <= r <= |s| && (r < |s| ==> !IsSpace(s[r]))
    decreases |s| - i
  {
    if i < |s| && IsSpace(s[i]) then SkipSpaces(s, i + 1) else i
  }

  /** The end of the run of digits starting at `i`. */
  function DigitEnd(s: string, i: nat): (r: nat)
    requires i <= |s|
    ensures i <= r <= |s| && (r < |s| ==> !IsDigit(s[r]))
    decreases |s| - i
  {
    if i < |s| && IsDigit(s[i]) then DigitEnd(s, i + 1) else i
  }

  /** The decimal value of the digits `s[i..k]`. */
  function DigitsValue(s: string, i: nat, k: nat): nat
    requires i <= k <= |s|
    decreases k
  {
    if k == i then 0
    else
      var v := s[k - 1] as int - '0' as int;
      DigitsValue(s, i, k - 1) * 10 + (if 0 <= v then v else 0)
  }

  /**
   * `std::stoi(s.substr(from))`: white space, an optional sign and at least
   * one digit, anything after the digits ignored; `None` where it throws,
   * on no digits or a value outside `int`.
   */
  function Stoi(s: string, from: nat): (r: Option<int>)
    requires from <= |s|
    ensures r.Some? ==> IntMin <= r.value <= IntMax
  {
    var i := SkipSpaces(s, from);
    var j := if i < |s| && (s[i] == '-' || s[i] == '+') then i + 1 else i;
    var k := DigitEnd(s, j);
    if k == j then None
    else
      var magnitude := DigitsValue(s, j, k);
      var v := if i < |s| && s[i] == '-' then -(magnitude as int) else magnitude;
      if IntMin <= v <= IntMax then Some(v) else None
  }

  /** The rating after the `try`/`catch` around `stoi(s.substr(from))`: 0 when it throws. */
  function RatingOf(s: string, from: nat): int
    requires from <= |s|
  {
    match Stoi(s, from)
    case Some(v) => v
    case None => 0
  }

  /**
   * What `parse_remark_rating(line)` returns. A line opening with a quote
   * keeps the remark up to its first unescaped closing quote, both quotes
   * included, and reads the rating after the next comma. Any other line
   * splits at its first comma. Without a closing quote or a comma the remark
   * (or the rating) stays empty (or 0).
   */
  function RemarkRating(line: string): (string, int)
  {
    if line != [] && line[0] == '"' then
      match ClosingQuote(line, 1)
      case None => ("", 0)
      case Some(e) =>
        match Find(line, ',', e + 1)
        case None => (line[..e + 1], 0)
        case Some(c) => (line[..e + 1], RatingOf(line, c + 1))
    else
      match Find(line, ',', 0)
      case None => ("", 0)
      case Some(c) => (line[..c], RatingOf(line, c + 1))
  }

  /** `parse_remark_rating(line)`. */
  method ParseRemarkRating(line: string) returns (remark: string, rating: int)
    ensures (remark, rating) == RemarkRating(line)
  {
    remark, rating := "", 0;
    if line != [] && line[0] == '"' {
      var endQuote := FindClosingQuote(line);
      if endQuote.Some? {
        remark := line[..endQuote.value + 1];
        var commaPos := Find(line, ',', endQuote.value + 1);
        if commaPos.Some? {
          rating := RatingOf(line, commaPos.value + 1);
        }
      }
    } else {
      var commaPos := Find(line, ',', 0);
      if commaPos.Some? {
        remark := line[..commaPos.value];
        rating := RatingOf(line, commaPos.value + 1);
      }
    }
  }

  /** The loop of `parse_remark_rating` that looks for the closing quote, skipping escaped ones. */
  method FindClosingQuote(line: string) returns (endQuote: Option<nat>)
    ensures endQuote == ClosingQuote(line, 1)
  {
    endQuote := Find(line, '"', 1);
    ClosingQuoteAtFind(line, 1);
    while endQuote.Some? && line[endQuote.value - 1] == '\\'
      invariant endQuote.Some? ==> 1 <= endQuote.value < |line| && line[endQuote.value] == '"'
      invariant endQuote.Some? ==> ClosingQuote(line, 1) == ClosingQuote(line, endQuote.value)
      invariant endQuote.None? ==> ClosingQuote(line, 1).None?
      decreases if endQuote.Some? then |line| - endQuote.value else 0
    {
      ClosingQuoteAtFind(line, endQuote.value + 1);
      endQuote := Find(line, '"', endQuote.value + 1);
    }
    assert endQuote.Some? ==> Find(line, '"', endQuote.value) == endQuote;
  }

  /** The scan for the closing quote may resume at the next quote. */
  lemma ClosingQuoteAtFind(line: string, from: nat)
    requires 1 <= from
    ensures Find(line, '"', from).None? ==> ClosingQuote(line, from).None?
    ensures Find(line, '"', from).Some? ==>
      ClosingQuote(line, from) == ClosingQuote(line, Find(line, '"', from).value)
  {
    var f := Find(line, '"', from);
    if f.Some? {
      assert Find(line, '"', f.value) == f;
    }
  }

  /** A quoted remark runs from the opening quote to the first unescaped quote. */
  lemma QuotedRemark(line: string)
    requires line != [] && line[0] == '"'
    ensures var remark := RemarkRating(line).0;
      remark == [] || (2 <= |remark| && line[..|remark|] == remark && remark[|remark| - 1] == '"' &&
                      remark[|remark| - 2] != '\\' &&
                      forall i :: 1 <= i < |remark| - 1 && remark[i] == '"' ==> remark[i - 1] == '\\')
    ensures RemarkRating(line).0 == [] <==> ClosingQuote(line, 1).None?
  {
    var q := ClosingQuote(line, 1);
    if q.Some? {
      var e := q.value;
      var remark := line[..e + 1];
      assert RemarkRating(line).0 == remark;
      forall i | 1 <= i < |remark| - 1 && remark[i] == '"'
        ensures remark[i - 1] == '\\'
      {
        assert line[i] == '"';
      }
    }
  }

  /** An unquoted remark is the text before the first comma and the rating is read after it; without a comma both are empty. */
  lemma UnquotedRemark(line: string)
    requires line == [] || line[0] != '"'
    ensures ',' !in line ==> RemarkRating(line) == ("", 0)
    ensures ',' in line ==> var remark := RemarkRating(line).0;
      ',' !in remark && |remark| < |line| && line[..|remark| + 1] == remark + [','] &&
      RemarkRating(line).1 == RatingOf(line, |remark| + 1)
  {
    var f := Find(line, ',', 0);
    if f.Some? {
      assert line[f.value] in line;
    }
    if ',' in line {
      var k :| 0 <= k < |line| && line[k] == ',';
      assert f.Some?;
    }
  }

  /** The decimal digits of `n`, most significant first. */
  function Decimal(n: nat): (d: string)
    ensures d != [] && forall k :: 0 <= k < |d| ==> IsDigit(d[k])
  {
    var digit := ('0' as int + n % 10) as char;
    if n < 10 then [digit] else Decimal(n / 10) + [digit]
  }

  /** The value of digits read at offset `i` of `s` depends only on those digits. */
  lemma {:induction false} DigitsValueAt(s: string, i: nat, d: string, m: nat)
    requires m <= |d| && i + m <= |s|
    requires forall j :: 0 <= j < m ==> s[i + j] == d[j]
    ensures DigitsValue(s, i, i + m) == DigitsValue(d, 0, m)
  {
    if m > 0 {
      DigitsValueAt(s, i, d, m - 1);
    }
  }

  lemma {:induction false} DecimalValue(n: nat)
    ensures DigitsValue(Decimal(n), 0, |Decimal(n)|) == n
  {
    var d := Decimal(n);
    if n >= 10 {
      var e := Decimal(n / 10);
      DecimalValue(n / 10);
      DigitsValueAt(d, 0, e, |e|);
    }
  }

  lemma {:induction false} DigitEndFrom(s: string, i: nat, k: nat)
    requires i <= k <= |s|
    requires forall j :: i <= j < k ==> IsDigit(s[j])
    requires k == |s| || !IsDigit(s[k])
    ensures DigitEnd(s, i) == k
    decreases k - i
  {
    if i < k {
      DigitEndFrom(s, i + 1, k);
    }
  }

  /** `stoi` at offset `i` reads a run of digits `d` ending the number. */
  lemma StoiDigits(s: string, i: nat, d: string)
    requires d != [] && i + |d| <= |s|
    requires forall j :: 0 <= j < |d| ==> s[i + j] == d[j] && IsDigit(d[j])
    requires i + |d| == |s| || !IsDigit(s[i + |d|])
    requires DigitsValue(d, 0, |d|) <= IntMax
    ensures Stoi(s, i) == Some(DigitsValue(d, 0, |d|))
  {
    assert s[i + 0] == d[0] && IsDigit(d[0]);
    assert SkipSpaces(s, i) == i;
    forall j | i <= j < i + |d|
      ensures IsDigit(s[j])
    {
      assert s[i + (j - i)] == d[j - i];
    }
    DigitEndFrom(s, i, i + |d|);
    DigitsValueAt(s, i, d, |d|);
  }

  /** `stoi` reads back a non-negative `int` written in decimal, whatever precedes it and whatever non-digit follows it. */
  lemma StoiDecimal(p: string, n: nat, rest: string)
    requires n <= IntMax
    requires rest == [] || !IsDigit(rest[0])
    ensures Stoi(p + Decimal(n) + rest, |p|) == Some(n)
  {
    var d := Decimal(n);
    var s := p + d + rest;
    forall j | 0 <= j < |d|
      ensures s[|p| + j] == d[j] && IsDigit(d[j])
    {
    }
    assert |p| + |d| < |s| ==> s[|p| + |d|] == rest[0];
    DecimalValue(n);
    StoiDigits(s, |p|, d);
  }

  /** The first occurrence of `ch` is at `k` when `s[k]` is `ch` and nothing before it is. */
  lemma FindAt(s: string, ch: char, k: nat)
    requires k < |s| && s[k] == ch
    requires forall i :: 0 <= i < k ==> s[i] != ch
    ensures Find(s, ch, 0) == Some(k)
  {
  }

  /** Writing an unquoted remark and a rating as `remark,rating` and parsing the line gives both back. */
  lemma RemarkRatingRoundTrip(remark: string, rating: nat)
    requires ',' !in remark && (remark == [] || remark[0] != '"')
    requires rating <= IntMax
    ensures RemarkRating(remark + [','] + Decimal(rating)) == (remark, rating)
  {
    var p := remark + [','];
    var line := p + Decimal(rating) + [];
    assert line == remark + [','] + Decimal(rating);
    assert line[0] != '"';
    forall i | 0 <= i < |remark|
      ensures line[i] != ','
    {
      assert line[i] == remark[i];
    }
    FindAt(line, ',', |remark|);
    assert line[..|remark|] == remark;
    UnquotedSplit(line, |remark|);
    StoiDecimal(p, rating, []);
  }

  /** An unquoted line splits at its first comma. */
  lemma UnquotedSplit(line: string, k: nat)
    requires line != [] && line[0] != '"'
    requires Find(line, ',', 0) == Some(k)
    ensures RemarkRating(line) == (line[..k], RatingOf(line, k + 1))
  {
  }

  // ---------------------------------------------------------------------
  // OpenPositions
  // ---------------------------------------------------------------------

  function TradesOf(trades: map<string, seq<Trade>>, ticker: string): seq<Trade>
  {
    if ticker in trades then trades[ticker] else []
  }

  /** `OpenPositions`: the trades of each ticker and the open positions. */
  class OpenPositions {
    var trades: map<string, seq<Trade>>
    var positions: map<string, Position>
    var totalPnl: real

    /** Every recorded position is the net position of its ticker's trades, and open. */
    ghost predicate Valid()
      reads this
    {
      forall s :: s in positions ==>
        s in trades && positions[s] == NetOf(trades[s]).0 && positions[s].qty >= Eps
    }

    /** `OpenPositions()` when the trades file cannot be opened: nothing traded, nothing open. */
    constructor()
      ensures trades == map[] && positions == map[] && totalPnl == 0.0
      ensures Valid()
    {
      trades, positions, totalPnl := map[], map[], 0.0;
    }

    /**
     * `add_trade(trade)`: appends the trade to its ticker's list and nets
     * it. A flat result removes the ticker's position and returns the trade
     * total minus the position's total (the netted profit when there was no
     * position); otherwise the position is replaced and the netted profit
     * returned.
     */
    method AddTrade(t: Trade) returns (pnl: real)
      requires Valid()
      modifies this
      ensures trades == old(trades)[t.ticker := TradesOf(old(trades), t.ticker) + [t]]
      ensures var (net, p) := NetOf(trades[t.ticker]);
        (net.qty == 0.0 ==>
           positions == old(positions) - {t.ticker} &&
           pnl == (if t.ticker in old(positions) then t.total - old(positions)[t.ticker].total else p)) &&
        (net.qty != 0.0 ==> positions == old(positions)[t.ticker := net] && pnl == p)
      ensures totalPnl == old(totalPnl)
      ensures Valid()
    {
      var list := TradesOf(trades, t.ticker) + [t];
      trades := trades[t.ticker := list];
      var net;
      net, pnl := NetPosition(list);
      if net.qty == 0.0 {
        if t.ticker in positions {
          pnl := t.total - positions[t.ticker].total;
        }
        positions := positions - {t.ticker};
      } else {
        positions := positions[t.ticker := net];
      }
    }

    /** `get_position(symbol)`: the open position of the symbol, if any. */
    function GetPosition(symbol: string): (r: Option<Position>)
      reads this
      ensures r.None? <==> symbol !in positions
      ensures r.Some? ==> r.value == positions[symbol]
    {
      if symbol in positions then Some(positions[symbol]) else None
    }
  }
}
