/**
 What a replay guarantees: its layout, that it is determined by dataset and experiment, that success
 does not depend on the experiment, that shocks reach only the sleeves that hold a shocked symbol, and
 the exact review rule.
 */
module ReplayLaws {
  import opened Decimals
  import opened Valuation
  import opened Experiments
  import opened Replay

  // ---------- Layout ----------

  lemma CellOf(d: Dataset, k: nat)
    requires k < |d.observations| * |d.sleeves|
    ensures |d.sleeves| > 0 && Cell(d, k, k / |d.sleeves|, k % |d.sleeves|)
  {
    var s := |d.sleeves|;
    assert k == k / s * s + k % s;
    if k / s >= |d.observations| {
      RowsApart(s, |d.observations|, k / s);
    }
  }

  // Decision k points at snapshot k, which is sleeve k mod S at observation k div S.
  lemma Layout(d: Dataset, e: Experiment, r: ReplayResult, k: nat)
    requires IsReplay(d, e, r) && k < |r.snapshots|
    ensures |r.decisions| == |r.snapshots| == |d.observations| * |d.sleeves| && |d.sleeves| > 0
    ensures k / |d.sleeves| < |d.observations|
    ensures var (i, sleeve) := (k / |d.sleeves|, d.sleeves[k % |d.sleeves|]);
            && r.decisions[k].snapshotIndex == k
            && r.decisions[k].observation == i
            && r.decisions[k].sleeve == r.snapshots[k].sleeve == sleeve.id
            && r.decisions[k].at == r.snapshots[k].at == d.observations[i].at
            && r.snapshots[k].positions == sleeve.positions
  {
    CellOf(d, k);
    assert Entry(d, e, k, k / |d.sleeves|, k % |d.sleeves|, r.snapshots[k], r.decisions[k]);
  }

  // A dataset and an experiment have one replay.
  lemma ReplayIsUnique(d: Dataset, e: Experiment, r: ReplayResult, r': ReplayResult)
    requires IsReplay(d, e, r) && IsReplay(d, e, r')
    ensures r == r'
  {
    forall k | 0 <= k < |r.snapshots|
      ensures r.snapshots[k] == r'.snapshots[k] && r.decisions[k] == r'.decisions[k]
    {
      CellOf(d, k);
      var i, j := k / |d.sleeves|, k % |d.sleeves|;
      assert Entry(d, e, k, i, j, r.snapshots[k], r.decisions[k]);
      assert Entry(d, e, k, i, j, r'.snapshots[k], r'.decisions[k]);
    }
  }

  // ---------- Shocks ----------

  // A normal experiment scales prices by a factor between one half and three halves.
  lemma FactorIsPositive(e: Experiment, symbol: string)
    requires IsNormal(e)
    ensures 0.5 <= Factor(e, symbol) <= 1.5
  {
    FactorIsExact(e, symbol);
    assert -5000 <= ShockOf(e, symbol) <= 5000;
  }

  lemma ScaledSign(f: real, x: real)
    requires f > 0.0
    ensures x > 0.0 <==> x * f > 0.0
  {
    if x <= 0.0 {
      assert (-x) * f >= 0.0;
    }
  }

  lemma ScaledOrder(f: real, bid: real, ask: real)
    requires f > 0.0
    ensures 0.0 < bid <= ask <==> 0.0 < bid * f <= ask * f
  {
    ScaledSign(f, bid);
    ScaledSign(f, bid - ask);
    assert (bid - ask) * f == bid * f - ask * f;
  }

  lemma ShockKeepsUsable(p: Position, q: Quote, e: Experiment, at: int, maxAge: int)
    requires IsNormal(e)
    ensures Usable(p, Shocked(q, e), at, maxAge) <==> Usable(p, q, at, maxAge)
  {
    FactorIsPositive(e, q.symbol);
    ScaledUsable(p, q, Factor(e, q.symbol), at, maxAge);
  }

  lemma ScaledUsable(p: Position, q: Quote, f: real, at: int, maxAge: int)
    requires f > 0.0
    ensures Usable(p, q.(bid := q.bid * f, ask := q.ask * f), at, maxAge) <==> Usable(p, q, at, maxAge)
  {
    ScaledOrder(f, q.bid, q.ask);
  }

  lemma ShockKeepsSymbols(quotes: seq<Quote>, e: Experiment)
    ensures Distinct(AllShocked(quotes, e)) <==> Distinct(quotes)
    ensures forall symbol :: Quoted(AllShocked(quotes, e), symbol) <==> Quoted(quotes, symbol)
  {
    var shocked := AllShocked(quotes, e);
    assert forall i :: 0 <= i < |quotes| ==> shocked[i].symbol == quotes[i].symbol;
    forall symbol ensures Quoted(shocked, symbol) <==> Quoted(quotes, symbol) {
      if Quoted(shocked, symbol) {
        var i :| 0 <= i < |shocked| && shocked[i].symbol == symbol;
        assert quotes[i].symbol == symbol;
      }
      if Quoted(quotes, symbol) {
        var i :| 0 <= i < |quotes| && quotes[i].symbol == symbol;
        assert shocked[i].symbol == symbol;
      }
    }
  }

  lemma MarkOfShocked(quotes: seq<Quote>, e: Experiment, symbol: string)
    requires Distinct(quotes) && Quoted(quotes, symbol)
    ensures Mark(AllShocked(quotes, e), symbol) == Shocked(Mark(quotes, symbol), e)
  {
    ShockKeepsSymbols(quotes, e);
    var i :| 0 <= i < |quotes| && quotes[i].symbol == symbol;
    MarkUnique(quotes, quotes[i]);
    MarkUnique(AllShocked(quotes, e), AllShocked(quotes, e)[i]);
  }

  lemma ShockKeepsComplete(s: Sleeve, quotes: seq<Quote>, e: Experiment, at: int, maxAge: int)
    requires IsNormal(e)
    ensures Complete(s, AllShocked(quotes, e), at, maxAge) <==> Complete(s, quotes, at, maxAge)
  {
    ShockKeepsSymbols(quotes, e);
    if Distinct(quotes) {
      forall p | p in s.positions && Quoted(quotes, p.symbol)
        ensures Usable(p, Mark(AllShocked(quotes, e), p.symbol), at, maxAge) <==>
          Usable(p, Mark(quotes, p.symbol), at, maxAge)
      {
        MarkOfShocked(quotes, e, p.symbol);
        ShockKeepsUsable(p, Mark(quotes, p.symbol), e, at, maxAge);
      }
    }
  }

  // Whether a dataset replays does not depend on the experiment: if the unshocked replay succeeds then
  // so does the replay of every normal experiment, and conversely.
  lemma SuccessIgnoresExperiment(d: Dataset, e: Experiment, e': Experiment)
    requires IsNormal(e) && IsNormal(e')
    ensures Replays(d, e) <==> Replays(d, e')
  {
    forall i: nat, j: nat | i < |d.observations| && j < |d.sleeves|
      ensures CellValued(d, e, i, j) <==> CellValued(d, e', i, j)
    {
      var (quotes, at) := (d.observations[i].quotes, d.observations[i].at);
      ShockKeepsComplete(d.sleeves[j], quotes, e, at, MAX_AGE);
      ShockKeepsComplete(d.sleeves[j], quotes, e', at, MAX_AGE);
    }
    forall i: nat | i < |d.observations|
      ensures RowValued(d, e, i, |d.sleeves|) <==> RowValued(d, e', i, |d.sleeves|)
    {
    }
  }

  // ---------- Non-interference ----------

  ghost predicate SameShocks(s: Sleeve, e: Experiment, e': Experiment) {
    forall p :: p in s.positions ==> ShockOf(e, p.symbol) == ShockOf(e', p.symbol)
  }

  lemma {:induction false} SameWeightsSameSum(ps: seq<Position>, w: Position -> real, w': Position -> real, n: nat)
    requires n <= |ps| && forall p :: p in ps ==> w(p) == w'(p)
    ensures Sum(ps, w, n) == Sum(ps, w', n)
  {
    if n > 0 {
      SameWeightsSameSum(ps, w, w', n - 1);
    }
  }

  lemma SameMarksSameSnapshot(s: Sleeve, quotes: seq<Quote>, quotes': seq<Quote>, at: int)
    requires forall p :: p in s.positions ==> Mark(quotes, p.symbol) == Mark(quotes', p.symbol)
    ensures SnapshotOf(s, quotes, at) == SnapshotOf(s, quotes', at)
  {
    hide Mid, Mark;
    SameWeightsSameSum(s.positions, AtMid(quotes), AtMid(quotes'), |s.positions|);
    SameWeightsSameSum(s.positions, AtBid(quotes), AtBid(quotes'), |s.positions|);
    assert Marks(s.positions, quotes) == Marks(s.positions, quotes');
  }

  lemma SameShocksSameMarks(s: Sleeve, quotes: seq<Quote>, e: Experiment, e': Experiment)
    requires Distinct(quotes) && SameShocks(s, e, e')
    requires forall p :: p in s.positions ==> Quoted(quotes, p.symbol)
    ensures forall p :: p in s.positions ==>
      Mark(AllShocked(quotes, e), p.symbol) == Mark(AllShocked(quotes, e'), p.symbol)
  {
    forall p | p in s.positions
      ensures Mark(AllShocked(quotes, e), p.symbol) == Mark(AllShocked(quotes, e'), p.symbol)
    {
      SameShockSameMark(quotes, e, e', p.symbol);
    }
  }

  lemma SameShockSameQuote(q: Quote, e: Experiment, e': Experiment)
    requires ShockOf(e, q.symbol) == ShockOf(e', q.symbol)
    ensures Shocked(q, e) == Shocked(q, e')
  {
    FactorIsExact(e, q.symbol);
    FactorIsExact(e', q.symbol);
  }

  lemma SameShockSameMark(quotes: seq<Quote>, e: Experiment, e': Experiment, symbol: string)
    requires Distinct(quotes) && Quoted(quotes, symbol) && ShockOf(e, symbol) == ShockOf(e', symbol)
    ensures Mark(AllShocked(quotes, e), symbol) == Mark(AllShocked(quotes, e'), symbol)
  {
    MarkOfShocked(quotes, e, symbol);
    MarkOfShocked(quotes, e', symbol);
    SameShockSameQuote(Mark(quotes, symbol), e, e');
  }

  lemma SameShocksSameCell(d: Dataset, e: Experiment, e': Experiment, i: nat, j: nat)
    requires IsNormal(e)
    requires i < |d.observations| && j < |d.sleeves| && CellValued(d, e, i, j)
    requires i < |d.observations| - 1 || SameShocks(d.sleeves[j], e, e')
    ensures CellSnapshot(d, e, i, j) == CellSnapshot(d, e', i, j)
  {
    if i == |d.observations| - 1 {
      var (s, quotes, at) := (d.sleeves[j], d.observations[i].quotes, d.observations[i].at);
      ShockKeepsComplete(s, quotes, e, at, MAX_AGE);
      SameShocksSameMarks(s, quotes, e, e');
      SameMarksSameSnapshot(s, AllShocked(quotes, e), AllShocked(quotes, e'), at);
    }
  }

  // Two replays of a dataset agree at every observation but the last, and at the last one in every
  // sleeve that holds no symbol whose shock differs.
  lemma ShocksDoNotInterfere(d: Dataset, e: Experiment, e': Experiment, r: ReplayResult, r': ReplayResult, k: nat)
    requires IsNormal(e) && Replays(d, e)
    requires IsReplay(d, e, r) && IsReplay(d, e', r') && k < |r.snapshots|
    requires |d.sleeves| > 0
    requires k / |d.sleeves| < |d.observations| - 1 || SameShocks(d.sleeves[k % |d.sleeves|], e, e')
    ensures r.snapshots[k] == r'.snapshots[k]
  {
    CellOf(d, k);
    var i, j := k / |d.sleeves|, k % |d.sleeves|;
    assert Entry(d, e, k, i, j, r.snapshots[k], r.decisions[k]);
    assert Entry(d, e', k, i, j, r'.snapshots[k], r'.decisions[k]);
    assert RowValued(d, e, i, |d.sleeves|) && CellValued(d, e, i, j);
    SameShocksSameCell(d, e, e', i, j);
  }

  // ---------- What a snapshot of a replay holds ----------

  // The quote of the dataset that a snapshot of observation i was valued with: shocked at the last
  // observation, and unchanged before it.
  ghost predicate Prices(d: Dataset, e: Experiment, i: nat, q: Quote, held: Quote)
    requires i < |d.observations|
  {
    if i == |d.observations| - 1 then Scaled(q, held, e) else held == q
  }

  lemma QuotesAreScaled(d: Dataset, e: Experiment, i: nat, held: Quote)
    requires i < |d.observations| && held in QuotesAt(d, e, i)
    ensures exists q :: q in d.observations[i].quotes && Prices(d, e, i, q, held)
  {
    var quotes := d.observations[i].quotes;
    if i == |d.observations| - 1 {
      var m :| 0 <= m < |quotes| && held == Shocked(quotes[m], e);
      ShockedIsScaled(quotes[m], e);
      assert Prices(d, e, i, quotes[m], held);
    } else {
      assert Prices(d, e, i, held, held);
    }
  }

  // Every snapshot of a replay holds its sleeve's cash and positions, for each position the dataset's quote of
  // its symbol, shocked at the last observation and unchanged before it, and the amounts that follow.
  lemma SnapshotsAreShocked(d: Dataset, e: Experiment, r: ReplayResult, k: nat)
    requires IsReplay(d, e, r) && Replays(d, e) && k < |r.snapshots|
    ensures |d.sleeves| > 0 && k / |d.sleeves| < |d.observations|
    ensures var (m, s, i) := (r.snapshots[k], d.sleeves[k % |d.sleeves|], k / |d.sleeves|);
            && m.sleeve == s.id && m.cash == s.cash && m.currency == "USD" && m.positions == s.positions
            && m.at == d.observations[i].at && |m.quotes| == |s.positions| && AddsUp(m)
            && forall n :: 0 <= n < |s.positions| ==>
                 && m.quotes[n].symbol == s.positions[n].symbol
                 && exists q :: q in d.observations[i].quotes && Prices(d, e, i, q, m.quotes[n])
  {
    hide AddsUp, IsReplay, Prices;
    SnapshotOfCell(d, e, r, k);
    var (m, s, i) := (r.snapshots[k], d.sleeves[k % |d.sleeves|], k / |d.sleeves|);
    assert RowValued(d, e, i, |d.sleeves|) && CellValued(d, e, i, k % |d.sleeves|);
    SnapshotHolds(s, QuotesAt(d, e, i), d.observations[i].at, MAX_AGE);
    SnapshotAddsUp(s, QuotesAt(d, e, i), d.observations[i].at);
    forall n | 0 <= n < |s.positions|
      ensures exists q :: q in d.observations[i].quotes && Prices(d, e, i, q, m.quotes[n])
    {
      QuotesAreScaled(d, e, i, m.quotes[n]);
    }
  }

  // A dataset replays under a normal experiment exactly when every sleeve can be valued at every observation
  // with the dataset's own quotes, none of them more than five minutes old.
  lemma ReplaysExactlyWhen(d: Dataset, e: Experiment)
    requires IsNormal(e)
    ensures Replays(d, e) <==>
            forall i, j :: 0 <= i < |d.observations| && 0 <= j < |d.sleeves| ==>
              Complete(d.sleeves[j], d.observations[i].quotes, d.observations[i].at, 300_000_000_000)
  {
    forall i: nat, j: nat | i < |d.observations| && j < |d.sleeves|
      ensures CellValued(d, e, i, j) <==>
              Complete(d.sleeves[j], d.observations[i].quotes, d.observations[i].at, 300_000_000_000)
    {
      ShockKeepsComplete(d.sleeves[j], d.observations[i].quotes, e, d.observations[i].at, MAX_AGE);
    }
    if Replays(d, e) {
      forall i, j | 0 <= i < |d.observations| && 0 <= j < |d.sleeves|
        ensures Complete(d.sleeves[j], d.observations[i].quotes, d.observations[i].at, 300_000_000_000)
      {
        assert RowValued(d, e, i, |d.sleeves|) && CellValued(d, e, i, j);
      }
    }
  }

  // ---------- Review rule ----------

  lemma ThresholdIsExact(n: int)
    ensures Div(n as real, 10000.0) == n as real / 10000.0
  {
    assert n as real / 10000.0 == Units(n * 1000000000000);
    DivExact(n as real, 10000.0, n * 1000000000000);
  }

  // The basis computed as market value less result is the summed position cost, so a sleeve under the
  // review strategy is marked `review` exactly when its cost is positive and 10000 times the absolute
  // result is at least cost times threshold; every other sleeve holds.
  lemma ReviewRule(s: Sleeve, quotes: seq<Quote>, e: Experiment, at: int, observation: nat, index: nat)
    ensures var snap := SnapshotOf(s, quotes, at);
            var cost := Total(s.positions, AtCost());
            Decide(s, snap, e, at, observation, index).action == Review <==>
            && s.strategy == "review-move-v1"
            && cost > 0.0 && 10000.0 * Abs(snap.unrealizedPnl) >= cost * e.threshold as real
  {
    ThresholdIsExact(e.threshold);
    var snap := SnapshotOf(s, quotes, at);
    var cost := Total(s.positions, AtCost());
    assert snap.marketValue - snap.unrealizedPnl == cost;
    Rescale(cost, e.threshold as real, Abs(snap.unrealizedPnl));
  }

  lemma Rescale(cost: real, n: real, move: real)
    ensures move >= cost * (n / 10000.0) <==> 10000.0 * move >= cost * n
  {
    assert cost * (n / 10000.0) == cost * n / 10000.0;
  }

  // Lowering the threshold only ever adds reviews.
  lemma LowerThresholdAddsReviews(s: Sleeve, quotes: seq<Quote>, e: Experiment, e': Experiment, at: int,
      observation: nat, index: nat)
    requires e'.threshold <= e.threshold
    requires Decide(s, SnapshotOf(s, quotes, at), e, at, observation, index).action == Review
    ensures Decide(s, SnapshotOf(s, quotes, at), e', at, observation, index).action == Review
  {
    ReviewRule(s, quotes, e, at, observation, index);
    ReviewRule(s, quotes, e', at, observation, index);
    var cost := Total(s.positions, AtCost());
    assert cost * (e.threshold - e'.threshold) as real >= 0.0;
  }

  lemma SnapshotOfCell(d: Dataset, e: Experiment, r: ReplayResult, k: nat)
    requires IsReplay(d, e, r) && k < |r.snapshots|
    ensures |d.sleeves| > 0 && |r.decisions| == |r.snapshots| && k / |d.sleeves| < |d.observations|
    ensures var (i, j) := (k / |d.sleeves|, k % |d.sleeves|);
            && r.snapshots[k] == SnapshotOf(d.sleeves[j], QuotesAt(d, e, i), d.observations[i].at)
            && r.decisions[k] == Decide(d.sleeves[j], r.snapshots[k], e, d.observations[i].at, i, k)
  {
    CellOf(d, k);
    assert Entry(d, e, k, k / |d.sleeves|, k % |d.sleeves|, r.snapshots[k], r.decisions[k]);
  }

  // The review rule for every decision of a replay, with the sleeve it is about and the result recorded
  // beside it.
  lemma ReplayReviews(d: Dataset, e: Experiment, r: ReplayResult, k: nat)
    requires IsReplay(d, e, r) && k < |r.snapshots|
    ensures |d.sleeves| > 0 && |r.decisions| == |r.snapshots|
    ensures var s := d.sleeves[k % |d.sleeves|];
            var cost := Total(s.positions, AtCost());
            && (r.decisions[k].action == Review <==>
              && s.strategy == "review-move-v1"
              && cost > 0.0 && 10000.0 * Abs(r.snapshots[k].unrealizedPnl) >= cost * e.threshold as real)
            && r.decisions[k].strategy == s.strategy
            && r.decisions[k].reason == (if s.strategy != "review-move-v1" then FixedHoldings
                                         else if r.decisions[k].action == Review then MoveReached(e.threshold)
                                         else MoveBelow(e.threshold))
  {
    SnapshotOfCell(d, e, r, k);
    var (i, j) := (k / |d.sleeves|, k % |d.sleeves|);
    ReviewRule(d.sleeves[j], QuotesAt(d, e, i), e, d.observations[i].at, i, k);
  }

  lemma SameShocksSameQuotes(quotes: seq<Quote>, e: Experiment, e': Experiment)
    requires e'.shocks == e.shocks
    ensures AllShocked(quotes, e) == AllShocked(quotes, e')
  {
    forall k | 0 <= k < |quotes| ensures Shocked(quotes[k], e) == Shocked(quotes[k], e') {
      SameShockSameQuote(quotes[k], e, e');
    }
  }

  // Replaying with the same shocks and a lower threshold keeps every review.
  lemma LowerThresholdKeepsReviews(d: Dataset, e: Experiment, e': Experiment, r: ReplayResult, r': ReplayResult, k: nat)
    requires IsReplay(d, e, r) && IsReplay(d, e', r') && k < |r.snapshots|
    requires e'.shocks == e.shocks && e'.threshold <= e.threshold
    ensures |r.decisions| == |r.snapshots| == |r'.decisions|
    ensures r.decisions[k].action == Review ==> r'.decisions[k].action == Review
  {
    SnapshotOfCell(d, e, r, k);
    SnapshotOfCell(d, e', r', k);
    var (i, j) := (k / |d.sleeves|, k % |d.sleeves|);
    SameShocksSameQuotes(d.observations[i].quotes, e, e');
    var (s, quotes, at) := (d.sleeves[j], QuotesAt(d, e, i), d.observations[i].at);
    if r.decisions[k].action == Review {
      LowerThresholdAddsReviews(s, quotes, e, e', at, i, k);
    }
  }
}
