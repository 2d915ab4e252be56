/**
 What a complete snapshot means: conservation against the book's cost, additivity over sleeves, and
 where the rounded mid price lies between bid and ask.
 */
module ValuationLaws {
  import opened Base
  import opened Decimals
  import opened Valuation

  // ---------- What is complete, and what is reported ----------

  // A snapshot is complete exactly when cash is not negative, no symbol is quoted twice, and every position
  // is a long USD position with one usable quote that is neither newer than the snapshot nor too old.
  lemma CompleteExactlyWhen(s: Sleeve, quotes: seq<Quote>, at: int, maxAge: int)
    ensures Complete(s, quotes, at, maxAge) <==>
            && s.cash >= 0.0 && maxAge > 0
            && (forall i, j :: 0 <= i < j < |quotes| ==> quotes[i].symbol != quotes[j].symbol)
            && forall p :: p in s.positions ==> exists q :: q in quotes && Values(p, q, at, maxAge)
  {
    if Distinct(quotes) {
      forall p | p in s.positions
        ensures (Quoted(quotes, p.symbol) && Usable(p, Mark(quotes, p.symbol), at, maxAge)) <==>
                exists q :: q in quotes && Values(p, q, at, maxAge)
      {
        MarkValues(p, quotes, at, maxAge);
      }
    }
  }

  // A quote values a position at a time.
  ghost predicate Values(p: Position, q: Quote, at: int, maxAge: int) {
    && q.symbol == p.symbol && p.currency == "USD" && q.currency == "USD"
    && p.units > 0.0 && p.cost >= 0.0 && q.bid > 0.0 && q.ask >= q.bid
    && at - maxAge <= q.at <= at
  }

  lemma MarkValues(p: Position, quotes: seq<Quote>, at: int, maxAge: int)
    requires Distinct(quotes)
    ensures (Quoted(quotes, p.symbol) && Usable(p, Mark(quotes, p.symbol), at, maxAge)) <==>
            exists q :: q in quotes && Values(p, q, at, maxAge)
  {
    forall q | q in quotes && q.symbol == p.symbol ensures Quoted(quotes, p.symbol) && Mark(quotes, p.symbol) == q {
      MarkUnique(quotes, q);
    }
    if Quoted(quotes, p.symbol) {
      assert Mark(quotes, p.symbol) in quotes && Mark(quotes, p.symbol).symbol == p.symbol;
    }
  }

  // A reported problem is there: a symbol quoted twice, a position without a quote, or a position and its
  // quote that do not go together.
  lemma ReportedProblemIsReal(s: Sleeve, quotes: seq<Quote>, at: int, maxAge: int, e: Problem)
    requires Reports(s, quotes, at, maxAge, e)
    ensures match e
            case InvalidPolicy => s.cash < 0.0 || maxAge <= 0
            case DuplicateQuote(symbol) =>
              exists i, j :: 0 <= i < j < |quotes| && quotes[i].symbol == quotes[j].symbol == symbol
            case MissingMark(symbol) =>
              && (exists p :: p in s.positions && p.symbol == symbol) && forall q :: q in quotes ==> q.symbol != symbol
            case UnsupportedCurrency(symbol) =>
              exists p, q :: Held(s, quotes, symbol, p, q) && (p.currency != "USD" || q.currency != "USD")
            case InvalidPosition(symbol) =>
              exists p, q :: Held(s, quotes, symbol, p, q) && (p.units <= 0.0 || p.cost < 0.0)
            case InvalidQuote(symbol) =>
              exists p, q :: Held(s, quotes, symbol, p, q) && (q.bid <= 0.0 || q.ask < q.bid)
            case StaleMark(symbol) =>
              exists p, q :: Held(s, quotes, symbol, p, q) && (q.at > at || q.at < at - maxAge)
  {
    hide ProblemOf, Held;
    if s.cash >= 0.0 && maxAge > 0 {
      if !Distinct(quotes) {
        var i :| 0 <= i < |quotes| && Distinct(quotes[..i]) && Quoted(quotes[..i], quotes[i].symbol)
                 && e == DuplicateQuote(quotes[i].symbol);
        var k :| 0 <= k < i && quotes[..i][k].symbol == quotes[i].symbol;
        assert quotes[k].symbol == quotes[i].symbol;
      } else {
        var i :| 0 <= i < |s.positions| && ProblemOf(s.positions[i], quotes, at, maxAge) == Some(e);
        var q := PositionProblem(s, quotes, at, maxAge, s.positions[i], e);
      }
    }
  }

  lemma PositionProblem(s: Sleeve, quotes: seq<Quote>, at: int, maxAge: int, p: Position, e: Problem)
    returns (q: Quote)
    requires p in s.positions && ProblemOf(p, quotes, at, maxAge) == Some(e)
    ensures !e.InvalidPolicy? && !e.DuplicateQuote? && e.symbol == p.symbol
    ensures if e.MissingMark? then forall other :: other in quotes ==> other.symbol != p.symbol
            else Held(s, quotes, p.symbol, p, q)
    ensures e.UnsupportedCurrency? ==> p.currency != "USD" || q.currency != "USD"
    ensures e.InvalidPosition? ==> p.units <= 0.0 || p.cost < 0.0
    ensures e.InvalidQuote? ==> q.bid <= 0.0 || q.ask < q.bid
    ensures e.StaleMark? ==> q.at > at || q.at < at - maxAge
  {
    q := Mark(quotes, p.symbol);
    if Quoted(quotes, p.symbol) {
      var i :| 0 <= i < |quotes| && quotes[i].symbol == p.symbol && quotes[i] == q;
      assert Held(s, quotes, p.symbol, p, q);
    } else {
      forall other | other in quotes ensures other.symbol != p.symbol {
        var i :| 0 <= i < |quotes| && quotes[i] == other;
      }
    }
  }

  // A position of the sleeve and a quote of the same symbol.
  ghost predicate Held(s: Sleeve, quotes: seq<Quote>, symbol: string, p: Position, q: Quote) {
    p in s.positions && q in quotes && p.symbol == symbol && q.symbol == symbol
  }

  // ---------- Sums ----------

  lemma {:induction false} SumSplit(a: seq<Position>, b: seq<Position>, weight: Position -> real, n: nat)
    requires n <= |b|
    ensures Sum(a + b, weight, |a| + n) == Sum(a, weight, |a|) + Sum(b, weight, n)
    decreases |a| + n
  {
    if n > 0 {
      SumSplit(a, b, weight, n - 1);
    } else if |a| > 0 {
      SumPrefix(a, b, weight, |a|);
    }
  }

  lemma {:induction false} SumPrefix(a: seq<Position>, b: seq<Position>, weight: Position -> real, n: nat)
    requires n <= |a|
    ensures Sum(a + b, weight, n) == Sum(a, weight, n)
  {
    if n > 0 {
      SumPrefix(a, b, weight, n - 1);
    }
  }

  lemma {:induction false} SumMonotone(ps: seq<Position>, low: Position -> real, high: Position -> real, n: nat)
    requires n <= |ps| && forall p :: p in ps ==> low(p) <= high(p)
    ensures Sum(ps, low, n) <= Sum(ps, high, n)
  {
    if n > 0 {
      SumMonotone(ps, low, high, n - 1);
    }
  }

  // Two sleeves held as one.
  function Merge(a: Sleeve, b: Sleeve): Sleeve {
    Sleeve(a.id + b.id, a.cash + b.cash, a.strategy, a.positions + b.positions)
  }

  // A merged sleeve can be valued exactly when both its parts can.
  lemma MergeIsComplete(a: Sleeve, b: Sleeve, quotes: seq<Quote>, at: int, maxAge: int)
    requires a.cash >= 0.0 && b.cash >= 0.0
    ensures Complete(Merge(a, b), quotes, at, maxAge) <==>
      Complete(a, quotes, at, maxAge) && Complete(b, quotes, at, maxAge)
  {
    assert forall p :: p in a.positions + b.positions <==> p in a.positions || p in b.positions;
  }

  // Splitting cash and positions between sleeves neither creates nor loses value: every total of the
  // merged sleeve is the sum of the parts' totals.
  lemma TotalsAreAdditive(a: Sleeve, b: Sleeve, quotes: seq<Quote>, at: int)
    ensures var (sa, sb) := (SnapshotOf(a, quotes, at), SnapshotOf(b, quotes, at));
            var m := SnapshotOf(Merge(a, b), quotes, at);
            && m.marketValue == sa.marketValue + sb.marketValue
            && m.equity == sa.equity + sb.equity
            && m.liquidationEquity == sa.liquidationEquity + sb.liquidationEquity
            && m.unrealizedPnl == sa.unrealizedPnl + sb.unrealizedPnl
  {
    TotalOfMerge(a.positions, b.positions, AtMid(quotes));
    TotalOfMerge(a.positions, b.positions, AtBid(quotes));
    TotalOfMerge(a.positions, b.positions, AtCost());
  }

  lemma TotalOfMerge(a: seq<Position>, b: seq<Position>, weight: Position -> real)
    ensures Total(a + b, weight) == Total(a, weight) + Total(b, weight)
  {
    SumSplit(a, b, weight, |b|);
  }

  // Equity less the unrealized result is the cash plus what the positions cost, with no rounding.
  lemma EquityMatchesCost(s: Sleeve, quotes: seq<Quote>, at: int)
    ensures var m := SnapshotOf(s, quotes, at);
            m.equity - m.unrealizedPnl == s.cash + Total(s.positions, AtCost())
  {
  }

  // Some decimal with at most 16 places lies between bid and ask.
  ghost predicate Bracketed(q: Quote) {
    exists k: int :: q.bid <= Units(k) <= q.ask
  }

  // The rounded mid lies between bid and ask exactly when some 16-place decimal does.
  lemma MidWithinSpread(q: Quote)
    requires q.bid <= q.ask
    ensures q.bid <= Mid(q) <= q.ask <==> Bracketed(q)
  {
    var x := (q.bid + q.ask) / 2.0 * 10000000000000000.0;
    assert Mid(q) == Units(Nearest(x));
    if Bracketed(q) {
      var k :| q.bid <= Units(k) <= q.ask;
      NearestIsNearest(x, k);
    }
  }

  // Quotes with at most 16 decimal places always bracket their mid.
  lemma SixteenPlacesBracket(q: Quote)
    requires q.bid <= q.ask && (Places16(q.bid) || Places16(q.ask))
    ensures Bracketed(q)
  {
    if Places16(q.bid) {
      var k :| q.bid == Units(k);
      assert q.bid <= Units(k) <= q.ask;
    } else {
      var k :| q.ask == Units(k);
      assert q.bid <= Units(k) <= q.ask;
    }
  }

  // The mid is the exact midpoint precisely when the midpoint has at most 16 decimal places.
  lemma MidExact(q: Quote)
    ensures Mid(q) == (q.bid + q.ask) / 2.0 <==> Places16((q.bid + q.ask) / 2.0)
  {
    var x := (q.bid + q.ask) / 2.0 * 10000000000000000.0;
    assert Mid(q) == Units(Nearest(x));
    if Places16((q.bid + q.ask) / 2.0) {
      var k :| (q.bid + q.ask) / 2.0 == Units(k);
      assert x == k as real;
      NearestOfInteger(k);
    }
  }

  lemma FifteenPlacesExact(q: Quote)
    requires Places15(q.bid) && Places15(q.ask)
    ensures Mid(q) == (q.bid + q.ask) / 2.0
  {
    var b: int :| q.bid == Units(10 * b);
    var a: int :| q.ask == Units(10 * a);
    assert (q.bid + q.ask) / 2.0 == Units(5 * (a + b));
    MidExact(q);
  }

  // Every complete snapshot whose quotes are bracketed is worth at least what selling at the bids
  // yields and at most what buying at the asks costs.
  lemma EquityWithinSpread(s: Sleeve, quotes: seq<Quote>, at: int, maxAge: int)
    requires Complete(s, quotes, at, maxAge)
    requires forall p :: p in s.positions ==> Bracketed(Mark(quotes, p.symbol))
    ensures var m := SnapshotOf(s, quotes, at);
            m.liquidationEquity <= m.equity <= s.cash + Total(s.positions, AtAsk(quotes))
  {
    hide Mid, Bracketed;
    forall p | p in s.positions ensures AtBid(quotes)(p) <= AtMid(quotes)(p) <= AtAsk(quotes)(p) {
      var q := Mark(quotes, p.symbol);
      MidWithinSpread(q);
      ScaleMonotone(p.units, q.bid, Mid(q));
      ScaleMonotone(p.units, Mid(q), q.ask);
    }
    SumMonotone(s.positions, AtBid(quotes), AtMid(quotes), |s.positions|);
    SumMonotone(s.positions, AtMid(quotes), AtAsk(quotes), |s.positions|);
  }

  lemma ScaleMonotone(k: real, x: real, y: real)
    requires k >= 0.0 && x <= y
    ensures k * x <= k * y
  {
  }

  // The bracket is needed: a sleeve holding one position is worth no less than its bid and no more
  // than its ask exactly when the quote is bracketed.
  lemma BracketIsNeeded(p: Position, q: Quote, cash: real, at: int, maxAge: int)
    requires var s := Sleeve("", cash, "", [p]); Complete(s, [q], at, maxAge)
    ensures var m := SnapshotOf(Sleeve("", cash, "", [p]), [q], at);
            m.liquidationEquity <= m.equity <= cash + Total([p], AtAsk([q])) <==> Bracketed(q)
  {
    hide Mid, Bracketed;
    var s := Sleeve("", cash, "", [p]);
    assert p in s.positions;
    assert Mark([q], p.symbol) == q;
    OneTerm(p, AtMid([q]));
    OneTerm(p, AtBid([q]));
    OneTerm(p, AtAsk([q]));
    MidWithinSpread(q);
    ScaleOrder(p.units, q.bid, Mid(q));
    ScaleOrder(p.units, Mid(q), q.ask);
  }

  lemma ScaleOrder(k: real, x: real, y: real)
    requires k > 0.0
    ensures k * x <= k * y <==> x <= y
  {
    if x > y {
      assert k * (x - y) > 0.0;
    }
  }

  lemma OneTerm(p: Position, weight: Position -> real)
    ensures Total([p], weight) == weight(p)
  {
    assert Sum([p], weight, 1) == Sum([p], weight, 0) + weight([p][0]);
  }

  // A quote with 17 decimal places whose mid rounds to nothing.
  lemma SeventeenPlacesEscape()
    ensures var q := Quote("X", "USD", 0.00000000000000004, 0.00000000000000004, 0);
            Mid(q) == 0.0 && !Bracketed(q)
  {
    var q := Quote("X", "USD", 0.00000000000000004, 0.00000000000000004, 0);
    assert (q.bid + q.ask) / 2.0 * 10000000000000000.0 == 0.4;
    assert Nearest(0.4) == 0;
    MidWithinSpread(q);
  }
}
