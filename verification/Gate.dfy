/**
 The decision gate of the Demo strategy: 21 checks over fresh provider reads, evaluated in order and
 stopped at the first failure.  A plan exists only when all of them pass.
 */
module Gate {
  import opened Base
  import opened Decimals
  import opened Trading

  // ---------- Observations ----------

  // One provider read: the raw bytes, and the decoded value unless the read or its schema failed.
  datatype Fetch<T> = Fetch(raw: string, value: Option<T>)

  // `cid` is the provider account ID when it parses; the fingerprint is an opaque keyed digest of it.
  datatype Account = Account(providerAt: int, currency: string, cid: Option<int>, fingerprint: string,
                             availableCash: real, totalValue: real, instruments: nat, mirrors: nat)

  datatype Instrument = Instrument(id: int, symbol: string, tradable: bool, buyable: bool)

  datatype RateRow = RateRow(bid: real, ask: real, at: int, assumedUtc: bool, quoteType: string)

  // A decoded rate has a positive bid below its ask.
  type Rate = r: RateRow | 0.0 < r.bid < r.ask witness RateRow(1.0, 2.0, 0, false, "")

  datatype CostItem = CostItem(kind: string, value: real)

  datatype Costs = Costs(updatedAt: int, items: seq<CostItem>)

  // Everything one evaluation may read, with the three clock readings it takes.
  datatype Observation = Observation(connected: bool, enabled: bool,
                                     account: Fetch<Account>, accountNow: int,
                                     book: Fetch<Book>, instrument: Fetch<Instrument>,
                                     quote: Fetch<Rate>, quoteNow: int,
                                     eligibility: Fetch<Eligibility>,
                                     costs: Fetch<Costs>, costsNow: int)

  // ---------- Decisions ----------

  datatype Source = AggregatePath | PnLPath | SearchPath | RatesPath | EligibilityPath | CostsPath | OrderPath
                  | OrderLookupPath

  datatype Artifact = Artifact(source: Source, raw: string)

  // A digest is an opaque label of the bytes it was taken of.
  datatype Digest = DigestOf(raw: string)

  datatype Plan = Plan(symbol: string, fingerprint: string, instrumentId: int, amount: real,
                       orderType: string, settlementType: string, leverage: int,
                       bid: real, ask: real, maxRecheckAsk: Option<real>, spreadBps: real,
                       quoteAt: int, assumedUtc: bool, upfrontCost: real, sources: map<Source, Digest>)

  datatype CheckName =
    | DemoScope | DemoExecutionSwitch | AccountRead | AccountFreshness | AccountCurrency
    | AccountIdentity | CashBudget | AggregateEmpty | PendingOrderRead | NoExistingOrders
    | InstrumentLookup | InstrumentTradable | QuoteRead | RealtimeQuote | SpreadCap
    | EligibilityRead | UnleveredReal | CostRead | CostFreshness | CostTypes | CostCap

  datatype DemoCheck = DemoCheck(name: CheckName, passed: bool)

  datatype Reason = NoneYet | Failed(name: CheckName) | AllPassed

  datatype Evaluation = Evaluation(checks: seq<DemoCheck>, artifacts: seq<Artifact>, plan: Option<Plan>, reason: Reason)

  // The checks in the order they run.
  const CHECKS: seq<CheckName> := [
    DemoScope, DemoExecutionSwitch, AccountRead, AccountFreshness, AccountCurrency,
    AccountIdentity, CashBudget, AggregateEmpty, PendingOrderRead, NoExistingOrders,
    InstrumentLookup, InstrumentTradable, QuoteRead, RealtimeQuote, SpreadCap,
    EligibilityRead, UnleveredReal, CostRead, CostFreshness, CostTypes, CostCap]

  const SECOND: int := 1_000_000_000
  const AMOUNT: real := 100.0

  predicate Recent(at: int, now: int, maxAge: int) {
    -10 * SECOND <= now - at <= maxAge
  }

  function SpreadBps(bid: real, ask: real): real
    requires bid != 0.0
  {
    Div(ask - bid, bid) * 10000.0
  }

  predicate UpfrontCost(kind: string) {
    kind == "markup" || kind == "marketSpread" || kind == "transactionFee" || kind == "sdrt"
  }

  predicate OngoingCost(kind: string) {
    kind == "overnightFee" || kind == "overWeekendFee"
  }

  function Upfront(items: seq<CostItem>): real {
    if items == [] then 0.0
    else Upfront(items[..|items| - 1]) + if UpfrontCost(items[|items| - 1].kind) then items[|items| - 1].value else 0.0
  }

  // A known cost type that is not an ongoing charge.
  predicate SimpleCost(c: CostItem) {
    UpfrontCost(c.kind) || (OngoingCost(c.kind) && c.value == 0.0)
  }

  ghost predicate SimpleCosts(items: seq<CostItem>) {
    forall c :: c in items ==> SimpleCost(c)
  }

  predicate AllowsHundred(e: Eligibility) {
    e.canOpen && e.symbol == "BTC" && e.realLongUnlevered && e.minExposure <= AMOUNT && e.minPositionAmount <= AMOUNT
  }

  // Condition k of the gate.  A read that failed fails every later condition about it.
  ghost predicate Condition(o: Observation, k: nat) {
    match k
    case 0 => o.connected
    case 1 => o.enabled
    case 2 => o.account.value.Some?
    case 3 => o.account.value.Some? && Recent(o.account.value.value.providerAt, o.accountNow, 120 * SECOND)
    case 4 => o.account.value.Some? && o.account.value.value.currency == "USD"
    case 5 => o.account.value.Some? && o.account.value.value.cid.Some? && o.account.value.value.cid.value > 0
    case 6 => o.account.value.Some? && o.account.value.value.availableCash >= 500.0
      && o.account.value.value.totalValue >= AMOUNT * 100.0
    case 7 => o.account.value.Some? && o.account.value.value.instruments == 0 && o.account.value.value.mirrors == 0
    case 8 => o.book.value.Some?
    case 9 => o.book.value == Some(Book(0, 0))
    case 10 => o.instrument.value.Some? && o.instrument.value.value.symbol == "BTC" && o.instrument.value.value.id > 0
    case 11 => o.instrument.value.Some? && o.instrument.value.value.tradable && o.instrument.value.value.buyable
    case 12 => o.quote.value.Some?
    case 13 => o.quote.value.Some? && o.quote.value.value.quoteType == "realtime"
      && Recent(o.quote.value.value.at, o.quoteNow, 30 * SECOND)
    case 14 => o.quote.value.Some? && SpreadBps(o.quote.value.value.bid, o.quote.value.value.ask) <= 50.0
    case 15 => o.eligibility.value.Some?
    case 16 => o.eligibility.value.Some? && AllowsHundred(o.eligibility.value.value)
    case 17 => o.costs.value.Some?
    case 18 => o.costs.value.Some? && Recent(o.costs.value.value.updatedAt, o.costsNow, 120 * SECOND)
    case 19 => o.costs.value.Some? && SimpleCosts(o.costs.value.value.items)
    case 20 => o.costs.value.Some? && Upfront(o.costs.value.value.items) <= 2.0
    case _ => true
  }

  // The first k conditions hold.
  ghost predicate Passing(o: Observation, k: nat) {
    forall j: nat :: j < k ==> Condition(o, j)
  }

  // ---------- The evaluation ----------

  function Keep(source: Source, raw: string): seq<Artifact> {
    if raw == "" then [] else [Artifact(source, raw)]
  }

  // The nonempty responses read before check k, in order.
  function Captured(o: Observation, k: nat): seq<Artifact> {
    (if k >= 2 then Keep(AggregatePath, o.account.raw) else [])
    + (if k >= 8 then Keep(PnLPath, o.book.raw) else [])
    + (if k >= 10 then Keep(SearchPath, o.instrument.raw) else [])
    + (if k >= 12 then Keep(RatesPath, o.quote.raw) else [])
    + (if k >= 15 then Keep(EligibilityPath, o.eligibility.raw) else [])
    + (if k >= 17 then Keep(CostsPath, o.costs.raw) else [])
  }

  function Digests(artifacts: seq<Artifact>): map<Source, Digest> {
    if artifacts == [] then map[]
    else var last := artifacts[|artifacts| - 1];
         Digests(artifacts[..|artifacts| - 1])[last.source := DigestOf(last.raw)]
  }

  function Passed(k: nat): seq<DemoCheck>
    requires k <= 21
  {
    seq(k, i requires 0 <= i < k => DemoCheck(CHECKS[i], true))
  }

  ghost function PlanOf(o: Observation): Plan
    requires Passing(o, 21)
  {
    assert Condition(o, 2) && Condition(o, 10) && Condition(o, 12) && Condition(o, 17);
    var q := o.quote.value.value;
    Plan("BTC", o.account.value.value.fingerprint, o.instrument.value.value.id, AMOUNT, "mkt", "real", 1,
         q.bid, q.ask, Some(RoundUp2(q.ask * 1.002)), Round4(SpreadBps(q.bid, q.ask)), q.at, q.assumedUtc,
         Upfront(o.costs.value.value.items), Digests(Captured(o, 21)))
  }

  // The record of an evaluation in which the first n checks passed and check n, if any, failed.
  ghost predicate StopsAfter(o: Observation, v: Evaluation, n: nat) {
    && n <= 21 && Passing(o, n)
    && if n == 21 then
         v == Evaluation(Passed(21), Captured(o, 21), Some(PlanOf(o)), AllPassed)
       else
         && !Condition(o, n)
         && v == Evaluation(Passed(n) + [DemoCheck(CHECKS[n], false)], Captured(o, n), None, Failed(CHECKS[n]))
  }

  ghost predicate Evaluates(o: Observation, v: Evaluation) {
    exists n: nat :: StopsAfter(o, v, n)
  }

  lemma PlannedIsConnected(o: Observation, v: Evaluation)
    requires Evaluates(o, v) && v.plan.Some?
    ensures o.connected && o.enabled
  {
    var n: nat :| StopsAfter(o, v, n);
    assert Condition(o, 0) && Condition(o, 1);
  }

  class DemoEvaluation {
    var checks: seq<DemoCheck>
    var artifacts: seq<Artifact>
    var plan: Option<Plan>
    var reason: Reason

    constructor ()
      ensures Contents() == Evaluation([], [], None, NoneYet)
    {
      checks, artifacts, plan, reason := [], [], None, NoneYet;
    }

    function Contents(): Evaluation
      reads this
    {
      Evaluation(checks, artifacts, plan, reason)
    }

    method Check(passed: bool, ghost o: Observation, k: nat) returns (ok: bool)
      requires k < 21 && Passing(o, k) && (passed <==> Condition(o, k))
      requires Contents() == Evaluation(Passed(k), Captured(o, k), None, NoneYet)
      modifies this
      ensures ok == passed
      ensures ok ==> Passing(o, k + 1) && Contents() == Evaluation(Passed(k + 1), Captured(o, k), None, NoneYet)
      ensures !ok ==> Evaluates(o, Contents())
    {
      hide Condition, Captured;
      checks := checks + [DemoCheck(CHECKS[k], passed)];
      if !passed && reason == NoneYet {
        reason := Failed(CHECKS[k]);
      }
      assert passed ==> checks == Passed(k + 1);
      assert !passed ==> StopsAfter(o, Contents(), k);
      return passed;
    }

    method Capture(source: Source, raw: string)
      modifies this
      ensures Contents() == old(Contents()).(artifacts := old(artifacts) + Keep(source, raw))
    {
      if |raw| > 0 {
        artifacts := artifacts + [Artifact(source, raw)];
      }
    }
  }

  method SumCosts(items: seq<CostItem>) returns (immediate: real, simple: bool)
    ensures immediate == Upfront(items)
    ensures simple <==> SimpleCosts(items)
  {
    var knownCosts, noOngoingCosts := true, true;
    immediate := 0.0;
    for i := 0 to |items|
      invariant immediate == Upfront(items[..i])
      invariant knownCosts && noOngoingCosts <==> SimpleCosts(items[..i])
    {
      var cost := items[i];
      CostsStep(items, i);
      CostKindsDiffer(cost.kind);
      if UpfrontCost(cost.kind) {
        immediate := immediate + cost.value;
      } else if OngoingCost(cost.kind) {
        if cost.value != 0.0 {
          noOngoingCosts := false;
        }
      } else {
        knownCosts := false;
      }
    }
    assert items[..|items|] == items;
    simple := knownCosts && noOngoingCosts;
  }

  lemma CostsStep(items: seq<CostItem>, i: nat)
    requires i < |items|
    ensures SimpleCosts(items[..i + 1]) <==> SimpleCosts(items[..i]) && SimpleCost(items[i])
    ensures Upfront(items[..i + 1]) == Upfront(items[..i]) + if UpfrontCost(items[i].kind) then items[i].value else 0.0
  {
    assert items[..i + 1][..i] == items[..i];
    assert items[..i + 1] == items[..i] + [items[i]];
  }

  lemma CostKindsDiffer(kind: string)
    ensures !(UpfrontCost(kind) && OngoingCost(kind))
  {
    assert |"overnightFee"| == 12 && |"overWeekendFee"| == 14 && |"transactionFee"| == 14;
    assert "overWeekendFee"[0] != "transactionFee"[0];
    assert "overnightFee"[0] != "marketSpread"[0];
  }

  method DigestAll(artifacts: seq<Artifact>) returns (digests: map<Source, Digest>)
    ensures digests == Digests(artifacts)
  {
    digests := map[];
    for i := 0 to |artifacts|
      invariant digests == Digests(artifacts[..i])
    {
      assert artifacts[..i + 1][..i] == artifacts[..i];
      digests := digests[artifacts[i].source := DigestOf(artifacts[i].raw)];
    }
    assert artifacts[..|artifacts|] == artifacts;
  }

  // Checks 2 to 7: the account aggregate.
  method CheckAccount(v: DemoEvaluation, o: Observation) returns (ok: bool)
    requires Passing(o, 2) && v.Contents() == Evaluation(Passed(2), Captured(o, 1), None, NoneYet)
    modifies v
    ensures ok ==> Passing(o, 8) && v.Contents() == Evaluation(Passed(8), Captured(o, 7), None, NoneYet)
    ensures !ok ==> Evaluates(o, v.Contents())
  {
    v.Capture(AggregatePath, o.account.raw);
    ok := v.Check(o.account.value.Some?, o, 2);
    if !ok { return; }
    var account := o.account.value.value;
    ok := v.Check(Recent(account.providerAt, o.accountNow, 120 * SECOND), o, 3);
    if !ok { return; }
    ok := v.Check(account.currency == "USD", o, 4);
    if !ok { return; }
    ok := v.Check(account.cid.Some? && account.cid.value > 0, o, 5);
    if !ok { return; }
    ok := v.Check(account.availableCash >= 500.0 && account.totalValue >= AMOUNT * 100.0, o, 6);
    if !ok { return; }
    ok := v.Check(account.instruments == 0 && account.mirrors == 0, o, 7);
  }

  // Checks 8 to 11: open orders and the instrument.
  method CheckInstrument(v: DemoEvaluation, o: Observation) returns (ok: bool)
    requires Passing(o, 8) && v.Contents() == Evaluation(Passed(8), Captured(o, 7), None, NoneYet)
    modifies v
    ensures ok ==> Passing(o, 12) && v.Contents() == Evaluation(Passed(12), Captured(o, 11), None, NoneYet)
    ensures !ok ==> Evaluates(o, v.Contents())
  {
    v.Capture(PnLPath, o.book.raw);
    ok := v.Check(o.book.value.Some?, o, 8);
    if !ok { return; }
    ok := v.Check(o.book.value.value.openPositions == 0 && o.book.value.value.pendingOrders == 0, o, 9);
    if !ok { return; }
    v.Capture(SearchPath, o.instrument.raw);
    var found := o.instrument.value;
    ok := v.Check(found.Some? && found.value.symbol == "BTC" && found.value.id > 0, o, 10);
    if !ok { return; }
    ok := v.Check(found.value.tradable && found.value.buyable, o, 11);
  }

  // Checks 12 to 16: the quote and the account's eligibility.
  method CheckQuote(v: DemoEvaluation, o: Observation) returns (ok: bool)
    requires Passing(o, 12) && v.Contents() == Evaluation(Passed(12), Captured(o, 11), None, NoneYet)
    modifies v
    ensures ok ==> Passing(o, 17) && v.Contents() == Evaluation(Passed(17), Captured(o, 16), None, NoneYet)
    ensures !ok ==> Evaluates(o, v.Contents())
  {
    v.Capture(RatesPath, o.quote.raw);
    ok := v.Check(o.quote.value.Some?, o, 12);
    if !ok { return; }
    var quote := o.quote.value.value;
    ok := v.Check(quote.quoteType == "realtime" && Recent(quote.at, o.quoteNow, 30 * SECOND), o, 13);
    if !ok { return; }
    ok := v.Check(SpreadBps(quote.bid, quote.ask) <= 50.0, o, 14);
    if !ok { return; }
    v.Capture(EligibilityPath, o.eligibility.raw);
    ok := v.Check(o.eligibility.value.Some?, o, 15);
    if !ok { return; }
    ok := v.Check(AllowsHundred(o.eligibility.value.value), o, 16);
  }

  // Checks 17 to 20: the cost estimate.
  method CheckCosts(v: DemoEvaluation, o: Observation) returns (ok: bool, upfront: real)
    requires Passing(o, 17) && v.Contents() == Evaluation(Passed(17), Captured(o, 16), None, NoneYet)
    modifies v
    ensures ok ==> Passing(o, 21) && v.Contents() == Evaluation(Passed(21), Captured(o, 20), None, NoneYet)
    ensures ok ==> o.costs.value.Some? && upfront == Upfront(o.costs.value.value.items)
    ensures !ok ==> Evaluates(o, v.Contents())
  {
    upfront := 0.0;
    v.Capture(CostsPath, o.costs.raw);
    ok := v.Check(o.costs.value.Some?, o, 17);
    if !ok { return; }
    var costs := o.costs.value.value;
    ok := v.Check(Recent(costs.updatedAt, o.costsNow, 120 * SECOND), o, 18);
    if !ok { return; }
    var immediate, simple := SumCosts(costs.items);
    upfront := immediate;
    ok := v.Check(simple, o, 19);
    if !ok { return; }
    ok := v.Check(immediate <= 2.0, o, 20);
  }

  method EvaluateDemo(o: Observation) returns (v: DemoEvaluation)
    ensures fresh(v) && Evaluates(o, v.Contents())
  {
    v := new DemoEvaluation();
    var ok := v.Check(o.connected, o, 0);
    if !ok { return; }
    ok := v.Check(o.enabled, o, 1);
    if !ok { return; }
    ok := CheckAccount(v, o);
    if !ok { return; }
    ok := CheckInstrument(v, o);
    if !ok { return; }
    ok := CheckQuote(v, o);
    if !ok { return; }
    var upfront;
    ok, upfront := CheckCosts(v, o);
    if !ok { return; }
    SetPlan(v, o, upfront);
  }

  method SetPlan(v: DemoEvaluation, o: Observation, upfront: real)
    requires Passing(o, 21) && v.Contents() == Evaluation(Passed(21), Captured(o, 20), None, NoneYet)
    requires o.costs.value.Some? && upfront == Upfront(o.costs.value.value.items)
    modifies v
    ensures StopsAfter(o, v.Contents(), 21)
  {
    assert Condition(o, 2) && Condition(o, 10) && Condition(o, 12);
    var (account, instrument, quote) := (o.account.value.value, o.instrument.value.value, o.quote.value.value);
    var digests := DigestAll(v.artifacts);
    v.plan := Some(Plan("BTC", account.fingerprint, instrument.id, AMOUNT, "mkt", "real", 1,
                        quote.bid, quote.ask, Some(RoundUp2(quote.ask * 1.002)),
                        Round4(SpreadBps(quote.bid, quote.ask)), quote.at, quote.assumedUtc, upfront, digests));
    v.reason := AllPassed;
  }
}
