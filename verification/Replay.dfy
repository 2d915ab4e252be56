/**
 Replay of a dataset under an experiment: every sleeve is valued at every observation, the last
 observation with shocked quotes, and one decision is recorded beside each snapshot.
 */
module Replay {
  import opened Base
  import opened Decimals
  import opened Valuation
  import opened Experiments

  datatype Observation = Observation(at: int, quotes: seq<Quote>)

  // A versioned dataset; the hash is an opaque label.
  datatype Dataset = Dataset(hash: string, sleeves: seq<Sleeve>, observations: seq<Observation>)

  datatype Action = Hold | Review

  datatype Reason = FixedHoldings | MoveReached(threshold: int) | MoveBelow(threshold: int)

  datatype Decision = Decision(sleeve: string, observation: nat, at: int, strategy: string,
                               action: Action, reason: Reason, snapshotIndex: nat)

  datatype ReplayResult = ReplayResult(datasetHash: string, experiment: Experiment,
                                       snapshots: seq<Snapshot>, decisions: seq<Decision>)

  datatype ReplayError = InvalidExperiment(cause: ExperimentError) | Unvaluable(problem: Problem)

  // Five minutes, in nanoseconds.
  const MAX_AGE: int := 300_000_000_000

  // ---------- Specification ----------

  function Factor(e: Experiment, symbol: string): real {
    Div((10000 + ShockOf(e, symbol)) as real, 10000.0)
  }

  function Shocked(q: Quote, e: Experiment): Quote {
    q.(bid := q.bid * Factor(e, q.symbol), ask := q.ask * Factor(e, q.symbol))
  }

  ghost function AllShocked(quotes: seq<Quote>, e: Experiment): seq<Quote> {
    seq(|quotes|, i requires 0 <= i < |quotes| => Shocked(quotes[i], e))
  }

  // The quotes sleeves are valued with at observation i.
  ghost function QuotesAt(d: Dataset, e: Experiment, i: nat): seq<Quote>
    requires i < |d.observations|
  {
    if i == |d.observations| - 1 then AllShocked(d.observations[i].quotes, e) else d.observations[i].quotes
  }

  ghost predicate CellValued(d: Dataset, e: Experiment, i: nat, j: nat)
    requires i < |d.observations| && j < |d.sleeves|
  {
    Complete(d.sleeves[j], QuotesAt(d, e, i), d.observations[i].at, MAX_AGE)
  }

  // The first n sleeves can be valued at observation i.
  ghost predicate RowValued(d: Dataset, e: Experiment, i: nat, n: nat)
    requires i < |d.observations| && n <= |d.sleeves|
  {
    forall j: nat :: j < n ==> CellValued(d, e, i, j)
  }

  ghost predicate Replays(d: Dataset, e: Experiment) {
    forall i: nat :: i < |d.observations| ==> RowValued(d, e, i, |d.sleeves|)
  }

  ghost function CellSnapshot(d: Dataset, e: Experiment, i: nat, j: nat): Snapshot
    requires i < |d.observations| && j < |d.sleeves|
  {
    SnapshotOf(d.sleeves[j], QuotesAt(d, e, i), d.observations[i].at)
  }

  // The decision recorded beside a snapshot.
  function Decide(s: Sleeve, snap: Snapshot, e: Experiment, at: int, observation: nat, index: nat): Decision {
    if s.strategy == "review-move-v1" then
      var basis := snap.marketValue - snap.unrealizedPnl;
      var threshold := Div(e.threshold as real, 10000.0);
      if basis > 0.0 && Abs(snap.unrealizedPnl) >= basis * threshold then
        Decision(s.id, observation, at, s.strategy, Review, MoveReached(e.threshold), index)
      else
        Decision(s.id, observation, at, s.strategy, Hold, MoveBelow(e.threshold), index)
    else
      Decision(s.id, observation, at, s.strategy, Hold, FixedHoldings, index)
  }

  // The place of entry k: observation k div S, sleeve k mod S.
  ghost predicate Cell(d: Dataset, k: nat, i: nat, j: nat) {
    i < |d.observations| && j < |d.sleeves| && k == i * |d.sleeves| + j
  }

  ghost predicate Entry(d: Dataset, e: Experiment, k: nat, i: nat, j: nat, snap: Snapshot, decision: Decision)
    requires i < |d.observations| && j < |d.sleeves|
  {
    && snap == CellSnapshot(d, e, i, j)
    && decision == Decide(d.sleeves[j], snap, e, d.observations[i].at, i, k)
  }

  // Entries [0, n) of the result are the cells of the replay in order.
  ghost predicate Records(d: Dataset, e: Experiment, snapshots: seq<Snapshot>, decisions: seq<Decision>) {
    && |decisions| == |snapshots|
    && forall k: nat, i: nat, j: nat :: k < |snapshots| && Cell(d, k, i, j) ==>
         Entry(d, e, k, i, j, snapshots[k], decisions[k])
  }

  // The complete replay of a dataset under a normal experiment.
  ghost predicate IsReplay(d: Dataset, e: Experiment, r: ReplayResult) {
    && r.datasetHash == d.hash && r.experiment == e
    && |r.snapshots| == |d.observations| * |d.sleeves|
    && Records(d, e, r.snapshots, r.decisions)
  }

  // The first cell, in the order of the replay, that cannot be valued, and why.
  ghost predicate FailsAt(d: Dataset, e: Experiment, i: nat, j: nat, problem: Problem) {
    && i < |d.observations| && j < |d.sleeves|
    && (forall k: nat :: k < i ==> RowValued(d, e, k, |d.sleeves|)) && RowValued(d, e, i, j) && !CellValued(d, e, i, j)
    && Reports(d.sleeves[j], QuotesAt(d, e, i), d.observations[i].at, MAX_AGE, problem)
  }

  // ---------- Shocks, in basis points ----------

  // Both prices of a quote scaled by the shock of its symbol, and nothing else changed; a symbol that the
  // experiment does not name is not shocked.
  ghost predicate Scaled(q: Quote, held: Quote, e: Experiment) {
    var bps := if e.shocks.Some? && q.symbol in e.shocks.value then e.shocks.value[q.symbol] else 0;
    && held.symbol == q.symbol && held.currency == q.currency && held.at == q.at
    && held.bid == q.bid * ((10000 + bps) as real / 10000.0)
    && held.ask == q.ask * ((10000 + bps) as real / 10000.0)
  }

  // The factor carries no rounding.
  lemma FactorIsExact(e: Experiment, symbol: string)
    ensures Factor(e, symbol) == (10000 + ShockOf(e, symbol)) as real / 10000.0
  {
    var n := 10000 + ShockOf(e, symbol);
    assert n as real / 10000.0 == Units(n * 1000000000000);
    DivExact(n as real, 10000.0, n * 1000000000000);
  }

  lemma ShockedIsScaled(q: Quote, e: Experiment)
    ensures Scaled(q, Shocked(q, e), e)
  {
    FactorIsExact(e, q.symbol);
  }

  // ---------- The replay ----------

  method ShockQuote(quote: Quote, e: Experiment) returns (r: Quote)
    ensures r == Shocked(quote, e)
  {
    var factor := Div((10000 + ShockOf(e, quote.symbol)) as real, 10000.0);
    r := quote.(bid := quote.bid * factor, ask := quote.ask * factor);
  }

  method ApplyShock(quotes: array<Quote>, e: Experiment)
    modifies quotes
    ensures quotes[..] == AllShocked(old(quotes[..]), e)
    ensures forall k :: 0 <= k < quotes.Length ==> Scaled(old(quotes[k]), quotes[k], e)
  {
    for j := 0 to quotes.Length
      invariant forall k :: 0 <= k < j ==> quotes[k] == Shocked(old(quotes[k]), e)
      invariant forall k :: j <= k < quotes.Length ==> quotes[k] == old(quotes[k])
    {
      quotes[j] := ShockQuote(quotes[j], e);
    }
    forall k | 0 <= k < quotes.Length ensures Scaled(old(quotes[k]), quotes[k], e) {
      ShockedIsScaled(old(quotes[k]), e);
    }
  }

  // Values every sleeve at observation i with its quotes.
  method ReplayObservation(d: Dataset, e: Experiment, i: nat, quotes: seq<Quote>, snapshots: seq<Snapshot>,
      decisions: seq<Decision>)
    returns (r: Result<(seq<Snapshot>, seq<Decision>), Problem>)
    requires i < |d.observations| && quotes == QuotesAt(d, e, i)
    requires |snapshots| == i * |d.sleeves| && Records(d, e, snapshots, decisions)
    requires forall k: nat :: k < i ==> RowValued(d, e, k, |d.sleeves|)
    ensures r.Ok? <==> RowValued(d, e, i, |d.sleeves|)
    ensures r.Err? ==> exists j: nat :: FailsAt(d, e, i, j, r.error)
    ensures r.Ok? ==> |r.value.0| == |snapshots| + |d.sleeves| && Records(d, e, r.value.0, r.value.1)
  {
    var snaps, made := snapshots, decisions;
    for j := 0 to |d.sleeves|
      invariant |snaps| == |snapshots| + j
      invariant Records(d, e, snaps, made)
      invariant RowValued(d, e, i, j)
    {
      var snap := Value(d.sleeves[j], quotes, d.observations[i].at, MAX_AGE);
      if snap.Err? {
        assert !CellValued(d, e, i, j);
        assert FailsAt(d, e, i, j, snap.error);
        return Err(snap.error);
      }
      var decision := Decide(d.sleeves[j], snap.value, e, d.observations[i].at, i, |snaps|);
      RecordsExtends(d, e, snaps, made, i, j, snap.value, decision);
      snaps, made := snaps + [snap.value], made + [decision];
    }
    return Ok((snaps, made));
  }

  // A copy of the quotes of observation i, shocked in place at the last one.
  method ObservedQuotes(d: Dataset, e: Experiment, i: nat) returns (observed: seq<Quote>)
    requires i < |d.observations|
    ensures observed == QuotesAt(d, e, i)
  {
    var obs := d.observations[i];
    var quotes := new Quote[|obs.quotes|](k requires 0 <= k < |obs.quotes| => obs.quotes[k]);
    assert quotes[..] == obs.quotes;
    if i == |d.observations| - 1 {
      ApplyShock(quotes, e);
    }
    observed := quotes[..];
  }

  method ReplayExperiment(d: Dataset, input: Experiment) returns (r: Result<ReplayResult, ReplayError>)
    ensures r.Ok? <==> Normalizable(input) && Replays(d, Normal(input))
    ensures r.Ok? ==> IsReplay(d, Normal(input), r.value)
    ensures r.Err? ==> match r.error
                       case InvalidExperiment(cause) => Refuses(input, cause)
                       case Unvaluable(problem) =>
                         Normalizable(input) && exists i: nat, j: nat :: FailsAt(d, Normal(input), i, j, problem)
  {
    hide Normalizable, Normal, Refuses, QuotesAt, RowValued, FailsAt, Entry;
    var normalized := NormalizeExperiment(input);
    if normalized.Err? {
      return Err(InvalidExperiment(normalized.error));
    }
    var e := normalized.value;
    var snapshots, decisions := [], [];
    for i := 0 to |d.observations|
      invariant |snapshots| == i * |d.sleeves|
      invariant Records(d, e, snapshots, decisions)
      invariant forall k: nat :: k < i ==> RowValued(d, e, k, |d.sleeves|)
    {
      var quotes := ObservedQuotes(d, e, i);
      var row := ReplayObservation(d, e, i, quotes, snapshots, decisions);
      if row.Err? {
        return Err(Unvaluable(row.error));
      }
      snapshots, decisions := row.value.0, row.value.1;
    }
    return Ok(ReplayResult(d.hash, e, snapshots, decisions));
  }

  lemma CellUnique(s: nat, i: nat, j: nat, i': nat, j': nat)
    requires j < s && j' < s && i * s + j == i' * s + j'
    ensures i == i' && j == j'
  {
    RowsApart(s, i, i');
    RowsApart(s, i', i);
  }

  lemma RowsApart(s: nat, i: nat, i': nat)
    ensures i < i' ==> i * s + s <= i' * s
  {
    if i < i' {
      var k := i' - i - 1;
      assert i' * s == (i + 1) * s + k * s;
    }
  }

  lemma RecordsExtends(d: Dataset, e: Experiment, snapshots: seq<Snapshot>, decisions: seq<Decision>,
                       i: nat, j: nat, snap: Snapshot, decision: Decision)
    requires Records(d, e, snapshots, decisions)
    requires Cell(d, |snapshots|, i, j)
    requires Entry(d, e, |snapshots|, i, j, snap, decision)
    ensures Records(d, e, snapshots + [snap], decisions + [decision])
  {
    var more, made := snapshots + [snap], decisions + [decision];
    forall k: nat, i': nat, j': nat | k < |more| && Cell(d, k, i', j')
      ensures Entry(d, e, k, i', j', more[k], made[k])
    {
      if k < |snapshots| {
        assert Entry(d, e, k, i', j', snapshots[k], decisions[k]);
      } else {
        CellUnique(|d.sleeves|, i, j, i', j');
      }
    }
  }
}
