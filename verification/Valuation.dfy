/**
 Valuation of unlevered long USD spot sleeves.  A snapshot is complete or there is none: one missing,
 stale, foreign or malformed mark invalidates the whole sleeve.
 */
module Valuation {
  import opened Base
  import opened Decimals

  datatype Position = Position(symbol: string, currency: string, units: real, cost: real)

  datatype Quote = Quote(symbol: string, currency: string, bid: real, ask: real, at: int)

  datatype Sleeve = Sleeve(id: string, cash: real, strategy: string, positions: seq<Position>)

  datatype Snapshot = Snapshot(sleeve: string, at: int, currency: string, cash: real, marketValue: real,
                               equity: real, liquidationEquity: real, unrealizedPnl: real,
                               positions: seq<Position>, quotes: seq<Quote>)

  datatype Problem =
    | InvalidPolicy
    | DuplicateQuote(symbol: string)
    | MissingMark(symbol: string)
    | UnsupportedCurrency(symbol: string)
    | InvalidPosition(symbol: string)
    | InvalidQuote(symbol: string)
    | StaleMark(symbol: string)

  // ---------- Specification ----------

  ghost predicate Quoted(quotes: seq<Quote>, symbol: string) {
    exists i :: 0 <= i < |quotes| && quotes[i].symbol == symbol
  }

  const NO_QUOTE := Quote("", "", 0.0, 0.0, 0)

  // The quote for a symbol; `NO_QUOTE` when there is none.
  ghost function Mark(quotes: seq<Quote>, symbol: string): Quote {
    if Quoted(quotes, symbol) then var i :| 0 <= i < |quotes| && quotes[i].symbol == symbol; quotes[i] else NO_QUOTE
  }

  ghost predicate Distinct(quotes: seq<Quote>) {
    forall i, j :: 0 <= i < j < |quotes| ==> quotes[i].symbol != quotes[j].symbol
  }

  // The mid price a position is valued at.
  function Mid(q: Quote): real {
    Half(q.bid + q.ask)
  }

  // Whether one position can be valued with one quote at a given time.
  predicate Usable(p: Position, q: Quote, at: int, maxAge: int) {
    && p.currency == "USD" && q.currency == "USD"
    && p.units > 0.0 && p.cost >= 0.0
    && 0.0 < q.bid <= q.ask
    && 0 <= at - q.at <= maxAge
  }

  // All the conditions for a complete snapshot.
  ghost predicate Complete(s: Sleeve, quotes: seq<Quote>, at: int, maxAge: int) {
    && s.cash >= 0.0 && maxAge > 0
    && Distinct(quotes)
    && forall p :: p in s.positions ==>
         Quoted(quotes, p.symbol) && Usable(p, Mark(quotes, p.symbol), at, maxAge)
  }

  // The sum of a weight over the first n positions of a book.
  ghost function Sum(ps: seq<Position>, weight: Position -> real, n: nat): real
    requires n <= |ps|
  {
    if n == 0 then 0.0 else Sum(ps, weight, n - 1) + weight(ps[n - 1])
  }

  ghost function Total(ps: seq<Position>, weight: Position -> real): real {
    Sum(ps, weight, |ps|)
  }

  ghost function AtMid(quotes: seq<Quote>): Position -> real {
    (p: Position) => p.units * Mid(Mark(quotes, p.symbol))
  }

  ghost function AtBid(quotes: seq<Quote>): Position -> real {
    (p: Position) => p.units * Mark(quotes, p.symbol).bid
  }

  ghost function AtAsk(quotes: seq<Quote>): Position -> real {
    (p: Position) => p.units * Mark(quotes, p.symbol).ask
  }

  ghost function AtCost(): Position -> real {
    (p: Position) => p.cost
  }

  ghost function Marks(ps: seq<Position>, quotes: seq<Quote>): seq<Quote> {
    seq(|ps|, i requires 0 <= i < |ps| => Mark(quotes, ps[i].symbol))
  }

  ghost function SnapshotOf(s: Sleeve, quotes: seq<Quote>, at: int): Snapshot {
    var market := Total(s.positions, AtMid(quotes));
    Snapshot(s.id, at, "USD", s.cash, market, s.cash + market, s.cash + Total(s.positions, AtBid(quotes)),
             market - Total(s.positions, AtCost()), s.positions, Marks(s.positions, quotes))
  }

  // ---------- A snapshot by itself ----------

  // The first n positions of a snapshot at the mid of the quotes held beside them, at their bids, and at cost.
  ghost function HeldAtMid(ps: seq<Position>, qs: seq<Quote>, n: nat): real
    requires n <= |ps| == |qs|
  {
    if n == 0 then 0.0 else HeldAtMid(ps, qs, n - 1) + ps[n - 1].units * Div(qs[n - 1].bid + qs[n - 1].ask, 2.0)
  }

  ghost function HeldAtBid(ps: seq<Position>, qs: seq<Quote>, n: nat): real
    requires n <= |ps| == |qs|
  {
    if n == 0 then 0.0 else HeldAtBid(ps, qs, n - 1) + ps[n - 1].units * qs[n - 1].bid
  }

  ghost function HeldAtCost(ps: seq<Position>, n: nat): real
    requires n <= |ps|
  {
    if n == 0 then 0.0 else HeldAtCost(ps, n - 1) + ps[n - 1].cost
  }

  // The amounts of a snapshot follow from its cash, its positions and the quotes it holds for them.
  ghost predicate AddsUp(m: Snapshot) {
    && |m.quotes| == |m.positions|
    && m.marketValue == HeldAtMid(m.positions, m.quotes, |m.quotes|)
    && m.equity == m.cash + m.marketValue
    && m.liquidationEquity == m.cash + HeldAtBid(m.positions, m.quotes, |m.quotes|)
    && m.unrealizedPnl == m.marketValue - HeldAtCost(m.positions, |m.positions|)
  }

  lemma {:induction false} MidsAreHeld(ps: seq<Position>, quotes: seq<Quote>, n: nat)
    requires n <= |ps|
    ensures Sum(ps, AtMid(quotes), n) == HeldAtMid(ps, Marks(ps, quotes), n)
  {
    hide Mark, Div;
    if n > 0 {
      MidsAreHeld(ps, quotes, n - 1);
      assert AtMid(quotes)(ps[n - 1]) == ps[n - 1].units * Mid(Marks(ps, quotes)[n - 1]);
    }
  }

  lemma {:induction false} BidsAreHeld(ps: seq<Position>, quotes: seq<Quote>, n: nat)
    requires n <= |ps|
    ensures Sum(ps, AtBid(quotes), n) == HeldAtBid(ps, Marks(ps, quotes), n)
  {
    hide Mark;
    if n > 0 {
      BidsAreHeld(ps, quotes, n - 1);
      assert AtBid(quotes)(ps[n - 1]) == ps[n - 1].units * Marks(ps, quotes)[n - 1].bid;
    }
  }

  lemma {:induction false} CostsAreHeld(ps: seq<Position>, n: nat)
    requires n <= |ps|
    ensures Sum(ps, AtCost(), n) == HeldAtCost(ps, n)
  {
    if n > 0 {
      CostsAreHeld(ps, n - 1);
    }
  }

  lemma SnapshotAddsUp(s: Sleeve, quotes: seq<Quote>, at: int)
    ensures AddsUp(SnapshotOf(s, quotes, at))
  {
    hide Mark;
    MidsAreHeld(s.positions, quotes, |s.positions|);
    BidsAreHeld(s.positions, quotes, |s.positions|);
    CostsAreHeld(s.positions, |s.positions|);
  }

  // A complete snapshot names its sleeve and holds its cash, its positions, and for each of them the one
  // quote of its symbol.
  lemma SnapshotHolds(s: Sleeve, quotes: seq<Quote>, at: int, maxAge: int)
    requires Complete(s, quotes, at, maxAge)
    ensures var m := SnapshotOf(s, quotes, at);
            && m.sleeve == s.id && m.at == at && m.currency == "USD" && m.cash == s.cash && m.positions == s.positions
            && |m.quotes| == |s.positions|
            && forall k :: 0 <= k < |m.quotes| ==>
                 m.quotes[k] in quotes && m.quotes[k].symbol == s.positions[k].symbol
  {
    var m := SnapshotOf(s, quotes, at);
    forall k | 0 <= k < |m.quotes| ensures m.quotes[k] in quotes && m.quotes[k].symbol == s.positions[k].symbol {
      assert s.positions[k] in s.positions;
    }
  }

  // The first reason, in the order of the checks, why a position cannot be valued.
  ghost function ProblemOf(p: Position, quotes: seq<Quote>, at: int, maxAge: int): Option<Problem> {
    var q := Mark(quotes, p.symbol);
    if !Quoted(quotes, p.symbol) then Some(MissingMark(p.symbol))
    else if p.currency != "USD" || q.currency != "USD" then Some(UnsupportedCurrency(p.symbol))
    else if p.units <= 0.0 || p.cost < 0.0 then Some(InvalidPosition(p.symbol))
    else if q.bid <= 0.0 || q.ask < q.bid then Some(InvalidQuote(p.symbol))
    else if at - q.at < 0 || at - q.at > maxAge then Some(StaleMark(p.symbol))
    else None
  }

  // None of the first n positions has a problem.
  ghost predicate NoProblem(ps: seq<Position>, quotes: seq<Quote>, at: int, maxAge: int, n: nat)
    requires n <= |ps|
  {
    forall j :: 0 <= j < n ==> ProblemOf(ps[j], quotes, at, maxAge) == None
  }

  ghost predicate RepeatedQuote(quotes: seq<Quote>, e: Problem) {
    exists i :: 0 <= i < |quotes| && Distinct(quotes[..i]) && Quoted(quotes[..i], quotes[i].symbol)
                && e == DuplicateQuote(quotes[i].symbol)
  }

  ghost predicate FirstProblem(ps: seq<Position>, quotes: seq<Quote>, at: int, maxAge: int, e: Problem) {
    exists i :: 0 <= i < |ps| && NoProblem(ps, quotes, at, maxAge, i)
                && ProblemOf(ps[i], quotes, at, maxAge) == Some(e)
  }

  // The error a caller sees: policy first, then the first repeated quote, then the first bad position.
  ghost predicate Reports(s: Sleeve, quotes: seq<Quote>, at: int, maxAge: int, e: Problem) {
    if s.cash < 0.0 || maxAge <= 0 then e == InvalidPolicy
    else if !Distinct(quotes) then RepeatedQuote(quotes, e)
    else FirstProblem(s.positions, quotes, at, maxAge, e)
  }

  // ---------- The valuation ----------

  // The running sums of the valuation loop: the first i positions of a book, marked with its quotes.
  datatype Sums = Sums(market: real, liquidation: real, cost: real)

  ghost function SumsOf(ps: seq<Position>, quotes: seq<Quote>, i: nat): Sums
    requires i <= |ps|
  {
    Sums(Sum(ps, AtMid(quotes), i), Sum(ps, AtBid(quotes), i), Sum(ps, AtCost(), i))
  }

  method Add(sums: Sums, p: Position, q: Quote, ghost ps: seq<Position>, ghost quotes: seq<Quote>, ghost i: nat)
    returns (more: Sums)
    requires i < |ps| && p == ps[i] && q == Mark(quotes, p.symbol) && sums == SumsOf(ps, quotes, i)
    ensures more == SumsOf(ps, quotes, i + 1)
  {
    hide Mid;
    more := Sums(sums.market + p.units * Mid(q), sums.liquidation + p.units * q.bid, sums.cost + p.cost);
  }

  // The quotes by symbol, or the first symbol quoted twice.
  method IndexQuotes(quotes: seq<Quote>) returns (r: Result<map<string, Quote>, Problem>)
    ensures r.Ok? <==> Distinct(quotes)
    ensures r.Ok? ==> forall symbol :: symbol in r.value <==> Quoted(quotes, symbol)
    ensures r.Ok? ==> forall symbol :: symbol in r.value ==> r.value[symbol] == Mark(quotes, symbol)
    ensures r.Err? ==> RepeatedQuote(quotes, r.error)
  {
    var bySymbol: map<string, Quote> := map[];
    for i := 0 to |quotes|
      invariant Distinct(quotes[..i])
      invariant forall symbol :: symbol in bySymbol <==> Quoted(quotes[..i], symbol)
      invariant forall symbol :: symbol in bySymbol ==>
        bySymbol[symbol] in quotes[..i] && bySymbol[symbol].symbol == symbol
    {
      var q := quotes[i];
      if q.symbol in bySymbol {
        NotDistinct(quotes, i);
        return Err(DuplicateQuote(q.symbol));
      }
      DistinctExtends(quotes, i);
      QuotedExtends(quotes, i);
      bySymbol := bySymbol[q.symbol := q];
    }
    assert quotes[..|quotes|] == quotes;
    forall symbol | symbol in bySymbol ensures bySymbol[symbol] == Mark(quotes, symbol) {
      MarkUnique(quotes, bySymbol[symbol]);
    }
    return Ok(bySymbol);
  }

  // The quote a position is marked with, or the first reason why it cannot be valued.
  method CheckMark(bySymbol: map<string, Quote>, p: Position, at: int, maxAge: int, ghost quotes: seq<Quote>)
    returns (r: Result<Quote, Problem>)
    requires forall symbol :: symbol in bySymbol <==> Quoted(quotes, symbol)
    requires forall symbol :: symbol in bySymbol ==> bySymbol[symbol] == Mark(quotes, symbol)
    ensures r.Ok? ==> ProblemOf(p, quotes, at, maxAge) == None && r.value == Mark(quotes, p.symbol)
    ensures r.Err? ==> ProblemOf(p, quotes, at, maxAge) == Some(r.error)
  {
    if p.symbol !in bySymbol {
      return Err(MissingMark(p.symbol));
    }
    var q := bySymbol[p.symbol];
    if p.currency != "USD" || q.currency != "USD" {
      return Err(UnsupportedCurrency(p.symbol));
    }
    if p.units <= 0.0 || p.cost < 0.0 {
      return Err(InvalidPosition(p.symbol));
    }
    if q.bid <= 0.0 || q.ask < q.bid {
      return Err(InvalidQuote(p.symbol));
    }
    var age := at - q.at;
    if age < 0 || age > maxAge {
      return Err(StaleMark(p.symbol));
    }
    return Ok(q);
  }

  // The sums over all positions and the quotes they are marked with, or the first problem.
  method MarkPositions(ps: seq<Position>, bySymbol: map<string, Quote>, at: int, maxAge: int,
                       ghost quotes: seq<Quote>)
    returns (r: Result<(Sums, seq<Quote>), Problem>)
    requires forall symbol :: symbol in bySymbol <==> Quoted(quotes, symbol)
    requires forall symbol :: symbol in bySymbol ==> bySymbol[symbol] == Mark(quotes, symbol)
    ensures r.Ok? ==> r.value == (SumsOf(ps, quotes, |ps|), Marks(ps, quotes))
    ensures r.Ok? <==> NoProblem(ps, quotes, at, maxAge, |ps|)
    ensures r.Err? ==> FirstProblem(ps, quotes, at, maxAge, r.error)
  {
    hide Mark, Quoted, ProblemOf;
    var sums, held := Sums(0.0, 0.0, 0.0), [];
    for i := 0 to |ps|
      invariant NoProblem(ps, quotes, at, maxAge, i)
      invariant sums == SumsOf(ps, quotes, i)
      invariant held == Marks(ps, quotes)[..i]
    {
      var mark := CheckMark(bySymbol, ps[i], at, maxAge, quotes);
      if mark.Err? {
        return Err(mark.error);
      }
      sums := Add(sums, ps[i], mark.value, ps, quotes, i);
      held := held + [mark.value];
    }
    assert Marks(ps, quotes)[..|ps|] == Marks(ps, quotes);
    return Ok((sums, held));
  }

  method Value(s: Sleeve, quotes: seq<Quote>, at: int, maxAge: int) returns (r: Result<Snapshot, Problem>)
    ensures r.Ok? <==> Complete(s, quotes, at, maxAge)
    ensures r.Ok? ==> r.value == SnapshotOf(s, quotes, at)
    ensures r.Ok? ==>
      && r.value.sleeve == s.id && r.value.at == at && r.value.currency == "USD"
      && r.value.cash == s.cash && r.value.positions == s.positions && |r.value.quotes| == |s.positions|
      && (forall k :: 0 <= k < |s.positions| ==>
        r.value.quotes[k] in quotes && r.value.quotes[k].symbol == s.positions[k].symbol)
      && AddsUp(r.value)
    ensures r.Err? ==> Reports(s, quotes, at, maxAge, r.error)
  {
    if s.cash < 0.0 || maxAge <= 0 {
      return Err(InvalidPolicy);
    }
    NoProblemIsComplete(s.positions, quotes, at, maxAge);
    var index := IndexQuotes(quotes);
    if index.Err? {
      return Err(index.error);
    }
    hide Mark, Distinct, Quoted, ProblemOf, AddsUp;
    var held := MarkPositions(s.positions, index.value, at, maxAge, quotes);
    if held.Err? {
      return Err(held.error);
    }
    var (sums, marks) := held.value;
    SnapshotHolds(s, quotes, at, maxAge);
    SnapshotAddsUp(s, quotes, at);
    return Ok(Snapshot(s.id, at, "USD", s.cash, sums.market, s.cash + sums.market, s.cash + sums.liquidation,
                       sums.market - sums.cost, s.positions, marks));
  }

  lemma NotDistinct(quotes: seq<Quote>, i: nat)
    requires i < |quotes| && Quoted(quotes[..i], quotes[i].symbol)
    ensures !Distinct(quotes)
  {
    var k :| 0 <= k < i && quotes[..i][k].symbol == quotes[i].symbol;
    assert quotes[k].symbol == quotes[i].symbol;
  }

  lemma QuotedExtends(quotes: seq<Quote>, i: nat)
    requires i < |quotes|
    ensures forall symbol :: Quoted(quotes[..i], symbol) || symbol == quotes[i].symbol ==>
      Quoted(quotes[..i + 1], symbol)
  {
    assert quotes[..i + 1][i] == quotes[i];
    forall symbol | Quoted(quotes[..i], symbol) ensures Quoted(quotes[..i + 1], symbol) {
      var k :| 0 <= k < i && quotes[..i][k].symbol == symbol;
      assert quotes[..i + 1][k].symbol == symbol;
    }
  }

  lemma DistinctExtends(quotes: seq<Quote>, i: nat)
    requires i < |quotes| && Distinct(quotes[..i]) && !Quoted(quotes[..i], quotes[i].symbol)
    ensures Distinct(quotes[..i + 1])
  {
    assert forall k :: 0 <= k < i ==> quotes[..i][k] == quotes[..i + 1][k];
  }

  lemma MarkUnique(quotes: seq<Quote>, q: Quote)
    requires Distinct(quotes) && q in quotes
    ensures Mark(quotes, q.symbol) == q
  {
    var i :| 0 <= i < |quotes| && quotes[i] == q;
    assert Quoted(quotes, q.symbol);
  }

  lemma NoProblemIsComplete(ps: seq<Position>, quotes: seq<Quote>, at: int, maxAge: int)
    ensures NoProblem(ps, quotes, at, maxAge, |ps|) <==>
            forall p :: p in ps ==> Quoted(quotes, p.symbol) && Usable(p, Mark(quotes, p.symbol), at, maxAge)
  {
    assert forall p :: p in ps ==>
      (ProblemOf(p, quotes, at, maxAge) == None <==>
       Quoted(quotes, p.symbol) && Usable(p, Mark(quotes, p.symbol), at, maxAge));
  }
}
