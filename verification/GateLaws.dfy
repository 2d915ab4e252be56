/**
 What the gate's record means, and the exact reach of its two rounded price tests.
 */
module GateLaws {
  import opened Base
  import opened Decimals
  import opened Gate

  // An observation has one evaluation.
  lemma EvaluationIsUnique(o: Observation, v: Evaluation, w: Evaluation)
    requires Evaluates(o, v) && Evaluates(o, w)
    ensures v == w
  {
    var n: nat :| StopsAfter(o, v, n);
    var m: nat :| StopsAfter(o, w, m);
    StopsOnce(o, v, n, w, m);
    StopsOnce(o, w, m, v, n);
  }

  lemma StopsOnce(o: Observation, v: Evaluation, n: nat, w: Evaluation, m: nat)
    requires StopsAfter(o, v, n) && StopsAfter(o, w, m)
    ensures m <= n
  {
  }

  // A plan exists exactly when all 21 conditions hold; without one the checks stop at the single
  // failing check, which names the recorded reason.
  lemma PlanExactlyWhenAllPass(o: Observation, v: Evaluation) returns (n: nat)
    requires Evaluates(o, v)
    ensures v.plan.Some? <==> Passing(o, 21)
    ensures n <= 21 && Passing(o, n) && (n < 21 ==> !Condition(o, n)) && (v.plan.Some? <==> n == 21)
    ensures |v.checks| == if n == 21 then 21 else n + 1
    ensures forall i :: 0 <= i < |v.checks| ==> v.checks[i] == DemoCheck(CHECKS[i], i < n)
    ensures v.reason == if n == 21 then AllPassed else Failed(CHECKS[n])
  {
    n :| StopsAfter(o, v, n);
  }

  // ---------- The checks in the provider's terms ----------

  // A reading is at most ten seconds ahead of the clock and at most maxAge behind it.
  predicate Within(at: int, now: int, maxAge: int) {
    at <= now + 10_000_000_000 && now <= at + maxAge
  }

  // What each check asks of the observation, by its name.
  ghost predicate Met(o: Observation, name: CheckName) {
    match name
    case DemoScope => o.connected
    case DemoExecutionSwitch => o.enabled
    case AccountRead => o.account.value.Some?
    case AccountFreshness =>
      o.account.value.Some? && Within(o.account.value.value.providerAt, o.accountNow, 120_000_000_000)
    case AccountCurrency => o.account.value.Some? && o.account.value.value.currency == "USD"
    case AccountIdentity => o.account.value.Some? && exists cid :: cid > 0 && o.account.value.value.cid == Some(cid)
    case CashBudget =>
      && o.account.value.Some?
      && o.account.value.value.availableCash >= 500.0 && o.account.value.value.totalValue >= 10000.0
    case AggregateEmpty =>
      o.account.value.Some? && o.account.value.value.instruments == 0 && o.account.value.value.mirrors == 0
    case PendingOrderRead => o.book.value.Some?
    case NoExistingOrders =>
      o.book.value.Some? && o.book.value.value.openPositions == 0 && o.book.value.value.pendingOrders == 0
    case InstrumentLookup =>
      o.instrument.value.Some? && o.instrument.value.value.symbol == "BTC" && o.instrument.value.value.id > 0
    case InstrumentTradable =>
      o.instrument.value.Some? && o.instrument.value.value.tradable && o.instrument.value.value.buyable
    case QuoteRead => o.quote.value.Some?
    case RealtimeQuote =>
      && o.quote.value.Some? && o.quote.value.value.quoteType == "realtime"
      && Within(o.quote.value.value.at, o.quoteNow, 30_000_000_000)
    case SpreadCap =>
      o.quote.value.Some? && var q := o.quote.value.value; q.ask - q.bid < q.bid * (0.005 + 0.00000000000000005)
    case EligibilityRead => o.eligibility.value.Some?
    case UnleveredReal =>
      && o.eligibility.value.Some?
      && var e := o.eligibility.value.value;
      && e.canOpen && e.symbol == "BTC" && e.realLongUnlevered && e.minExposure <= 100.0 && e.minPositionAmount <= 100.0
    case CostRead => o.costs.value.Some?
    case CostFreshness => o.costs.value.Some? && Within(o.costs.value.value.updatedAt, o.costsNow, 120_000_000_000)
    case CostTypes =>
      && o.costs.value.Some?
      && forall c :: c in o.costs.value.value.items ==>
           || c.kind in {"markup", "marketSpread", "transactionFee", "sdrt"}
           || (c.kind in {"overnightFee", "overWeekendFee"} && c.value == 0.0)
    case CostCap => o.costs.value.Some? && Upfront(o.costs.value.value.items) <= 2.0
  }

  lemma AccountConditions(o: Observation, k: nat)
    requires k < 8
    ensures Condition(o, k) <==> Met(o, CHECKS[k])
  {
  }

  lemma InstrumentConditions(o: Observation, k: nat)
    requires 8 <= k < 12
    ensures Condition(o, k) <==> Met(o, CHECKS[k])
  {
  }

  lemma QuoteConditions(o: Observation, k: nat)
    requires 12 <= k < 17
    ensures Condition(o, k) <==> Met(o, CHECKS[k])
  {
    if o.quote.value.Some? {
      SpreadTestIsExact(o.quote.value.value.bid, o.quote.value.value.ask);
    }
  }

  lemma CostConditions(o: Observation, k: nat)
    requires 17 <= k < 21
    ensures Condition(o, k) <==> Met(o, CHECKS[k])
  {
  }

  lemma ConditionIsMet(o: Observation, k: nat)
    requires k < 21
    ensures Condition(o, k) <==> Met(o, CHECKS[k])
  {
    hide Condition, Met;
    if k < 8 {
      AccountConditions(o, k);
    } else if k < 12 {
      InstrumentConditions(o, k);
    } else if k < 17 {
      QuoteConditions(o, k);
    } else {
      CostConditions(o, k);
    }
  }

  lemma EveryCheckIsListed(name: CheckName) returns (k: nat)
    ensures k < 21 && CHECKS[k] == name
  {
    k := match name
      case DemoScope => 0 case DemoExecutionSwitch => 1 case AccountRead => 2 case AccountFreshness => 3
      case AccountCurrency => 4 case AccountIdentity => 5 case CashBudget => 6 case AggregateEmpty => 7
      case PendingOrderRead => 8 case NoExistingOrders => 9 case InstrumentLookup => 10
      case InstrumentTradable => 11 case QuoteRead => 12 case RealtimeQuote => 13 case SpreadCap => 14
      case EligibilityRead => 15 case UnleveredReal => 16 case CostRead => 17 case CostFreshness => 18
      case CostTypes => 19 case CostCap => 20;
  }

  // A plan exists exactly when everything that the checks ask is met, and the reason for having none names a
  // check that is not.
  lemma PlanExactlyWhenMet(o: Observation, v: Evaluation)
    requires Evaluates(o, v)
    ensures v.plan.Some? <==> forall name: CheckName :: Met(o, name)
    ensures v.plan.None? ==> v.reason.Failed? && !Met(o, v.reason.name)
  {
    hide Met, Condition;
    var n := PlanExactlyWhenAllPass(o, v);
    if n < 21 {
      ConditionIsMet(o, n);
    } else {
      forall name: CheckName ensures Met(o, name) {
        var k := EveryCheckIsListed(name);
        ConditionIsMet(o, k);
      }
    }
  }

  // The upfront cost of one item is its value exactly for the four upfront types, and costs add up.
  lemma UpfrontOfOne(c: CostItem)
    ensures Upfront([c]) == if c.kind in {"markup", "marketSpread", "transactionFee", "sdrt"} then c.value else 0.0
  {
    assert Upfront([c][..0]) == 0.0;
  }

  lemma {:induction false} UpfrontIsAdditive(a: seq<CostItem>, b: seq<CostItem>)
    ensures Upfront(a + b) == Upfront(a) + Upfront(b)
  {
    if b == [] {
      assert a + b == a;
    } else {
      UpfrontIsAdditive(a, b[..|b| - 1]);
      assert (a + b)[..|a + b| - 1] == a + b[..|b| - 1];
    }
  }

  // ---------- What a plan says ----------

  // A plan repeats the observation it was made of.
  lemma PlanRepeatsTheObservation(o: Observation, v: Evaluation)
    requires Evaluates(o, v) && v.plan.Some?
    ensures o.account.value.Some? && o.instrument.value.Some? && o.quote.value.Some? && o.costs.value.Some?
    ensures var (p, q) := (v.plan.value, o.quote.value.value);
            && p.fingerprint == o.account.value.value.fingerprint && p.instrumentId == o.instrument.value.value.id
            && p.bid == q.bid && p.ask == q.ask && p.quoteAt == q.at && p.assumedUtc == q.assumedUtc
            && p.upfrontCost == Upfront(o.costs.value.value.items)
            && p.maxRecheckAsk == Some(RoundUp2(q.ask * 1.002))
            && p.spreadBps == Round4(Div(q.ask - q.bid, q.bid) * 10000.0)
  {
    hide Digests, Captured, Div, Round4, RoundUp2, Upfront, Passed;
    var n: nat :| StopsAfter(o, v, n);
    assert Condition(o, 2) && Condition(o, 10) && Condition(o, 12) && Condition(o, 17);
  }

  // Every nonempty response of the evaluation is kept, and the plan cites it by the digest of its bytes; an
  // empty one leaves no trace.
  lemma PlanCitesItsSources(o: Observation, v: Evaluation)
    requires Evaluates(o, v) && v.plan.Some?
    ensures var (all, cited) := (v.artifacts, v.plan.value.sources);
            && Cites(all, cited, AggregatePath, o.account.raw) && Cites(all, cited, PnLPath, o.book.raw)
            && Cites(all, cited, SearchPath, o.instrument.raw) && Cites(all, cited, RatesPath, o.quote.raw)
            && Cites(all, cited, EligibilityPath, o.eligibility.raw) && Cites(all, cited, CostsPath, o.costs.raw)
  {
    hide Captured, Digests, Cites, Condition, Upfront, Passed;
    var n: nat :| StopsAfter(o, v, n);
    CapturedIsCited(o);
  }

  ghost predicate Cites(artifacts: seq<Artifact>, cited: map<Source, Digest>, source: Source, raw: string) {
    if raw == "" then source !in cited
    else Artifact(source, raw) in artifacts && source in cited && cited[source] == DigestOf(raw)
  }

  // Keeping one more response cites it and leaves what other sources are cited for.
  lemma KeepCites(artifacts: seq<Artifact>, source: Source, raw: string)
    requires source !in Digests(artifacts)
    ensures var more := artifacts + Keep(source, raw);
            && Cites(more, Digests(more), source, raw)
            && Digests(more).Keys <= Digests(artifacts).Keys + {source}
            && forall other, r :: other != source && Cites(artifacts, Digests(artifacts), other, r) ==>
                 Cites(more, Digests(more), other, r)
  {
    if raw == "" {
      assert artifacts + Keep(source, raw) == artifacts;
    } else {
      var more := artifacts + [Artifact(source, raw)];
      assert more[..|artifacts|] == artifacts && more[|artifacts|] == Artifact(source, raw);
      assert Digests(more) == Digests(artifacts)[source := DigestOf(raw)];
    }
  }

  lemma CapturedIsCited(o: Observation)
    ensures var (all, cited) := (Captured(o, 21), Digests(Captured(o, 21)));
            && Cites(all, cited, AggregatePath, o.account.raw) && Cites(all, cited, PnLPath, o.book.raw)
            && Cites(all, cited, SearchPath, o.instrument.raw) && Cites(all, cited, RatesPath, o.quote.raw)
            && Cites(all, cited, EligibilityPath, o.eligibility.raw) && Cites(all, cited, CostsPath, o.costs.raw)
  {
    hide Digests, Cites, Keep;
    var a := [] + Keep(AggregatePath, o.account.raw);
    var b := a + Keep(PnLPath, o.book.raw);
    var c := b + Keep(SearchPath, o.instrument.raw);
    var d := c + Keep(RatesPath, o.quote.raw);
    var e := d + Keep(EligibilityPath, o.eligibility.raw);
    assert Captured(o, 21) == e + Keep(CostsPath, o.costs.raw) by {
      assert a == Keep(AggregatePath, o.account.raw);
    }
    hide Captured;
    NoDigests();
    KeepCites([], AggregatePath, o.account.raw);
    KeepCites(a, PnLPath, o.book.raw);
    KeepCites(b, SearchPath, o.instrument.raw);
    KeepCites(c, RatesPath, o.quote.raw);
    KeepCites(d, EligibilityPath, o.eligibility.raw);
    KeepCites(e, CostsPath, o.costs.raw);
  }

  lemma NoDigests()
    ensures Digests([]) == map[]
  {
  }

  // What a reviewed plan promises.
  ghost predicate SoundPlan(p: Plan) {
    && p.symbol == "BTC" && p.amount == 100.0 && p.leverage == 1
    && p.orderType == "mkt" && p.settlementType == "real" && p.instrumentId > 0
    && 0.0 < p.bid < p.ask
    && p.maxRecheckAsk.Some? && 1.002 * p.ask <= p.maxRecheckAsk.value < 1.002 * p.ask + 0.01
    && p.ask - p.bid < p.bid * (0.005 + 0.00000000000000005)
    && p.upfrontCost <= 2.0
  }

  // Rounding up to cents adds less than a cent.
  lemma RoundUpWithinCent(x: real)
    requires x >= 0.0
    ensures x <= RoundUp2(x) < x + 0.01
  {
    assert (x * 100.0) <= Away(x * 100.0) as real < x * 100.0 + 1.0;
  }

  function Cents(k: int): real {
    k as real / 100.0
  }

  ghost predicate WholeCents(x: real) {
    exists k: int :: x == Cents(k)
  }

  // The recheck ceiling is 0.2% above the reviewed ask exactly when that amount is a whole number of
  // cents; otherwise it is strictly higher.
  lemma CeilingIsExactOnCents(o: Observation, v: Evaluation)
    requires Evaluates(o, v) && v.plan.Some?
    ensures var p := v.plan.value;
            && p.maxRecheckAsk.Some? && p.maxRecheckAsk.value >= 1.002 * p.ask
            && (p.maxRecheckAsk.value == 1.002 * p.ask <==> WholeCents(1.002 * p.ask))
  {
    PlanIsSound(o, v);
    var n: nat :| StopsAfter(o, v, n);
    var p := PlanOf(o);
    assert p.ask * 1.002 == 1.002 * p.ask;
    RoundUpFixesCents(1.002 * p.ask);
  }

  lemma RoundUpFixesCents(x: real)
    ensures RoundUp2(x) == x <==> WholeCents(x)
  {
    assert RoundUp2(x) == Cents(Away(x * 100.0));
    if WholeCents(x) {
      var k: int :| x == Cents(k);
      assert x * 100.0 == k as real;
      AwayOfInteger(k);
    }
  }

  lemma AwayOfInteger(k: int)
    ensures Away(k as real) == k
  {
    assert -(k as real) == (-k) as real;
  }

  // An ask of 100000.01 is given a ceiling of 100200.02, more than 0.2% higher.
  lemma CeilingMayExceed()
    ensures RoundUp2(100000.01 * 1.002) == 100200.02 > 100000.01 * 1.002
  {
    assert 100000.01 * 1.002 * 100.0 == 10020001.002;
  }

  // The rounded spread test passes exactly the spreads below half a unit of the 16th place over 50
  // basis points: every spread up to 0.005, and none from 0.005 + 5e-17 on.
  lemma SpreadTestIsExact(bid: real, ask: real)
    requires 0.0 < bid < ask
    ensures SpreadBps(bid, ask) <= 50.0 <==> ask - bid < bid * (0.005 + 0.00000000000000005)
  {
    var x := (ask - bid) / bid;
    QuotientBound(ask - bid, bid, 0.005 + 0.00000000000000005);
    assert x > 0.0 by { QuotientPositive(ask - bid, bid); }
    var units := x * 10000000000000000.0;
    NearestBelow(units, 50000000000000);
  }

  // A spread of 0.005 + 4e-17 of the bid is wider than 50 basis points and passes.
  lemma WiderSpreadPasses()
    ensures var (bid, ask) := (1.0, 1.00500000000000004); ask - bid > bid * 0.005 && SpreadBps(bid, ask) <= 50.0
  {
    SpreadTestIsExact(1.0, 1.00500000000000004);
  }

  lemma QuotientBound(a: real, b: real, c: real)
    requires b > 0.0
    ensures a / b < c <==> a < b * c
  {
    var q := a / b;
    assert q * b == a;
    if q < c {
      assert (c - q) * b > 0.0;
    } else {
      assert (q - c) * b >= 0.0;
    }
  }

  lemma QuotientPositive(a: real, b: real)
    requires a > 0.0 && b > 0.0
    ensures a / b > 0.0
  {
  }

  lemma NearestBelow(x: real, n: nat)
    requires x >= 0.0
    ensures Nearest(x) <= n <==> x < n as real + 0.5
  {
  }

  lemma PlanIsSound(o: Observation, v: Evaluation)
    requires Evaluates(o, v) && v.plan.Some?
    ensures SoundPlan(v.plan.value)
  {
    var n: nat :| StopsAfter(o, v, n);
    var p := PlanOf(o);
    assert Condition(o, 10) && Condition(o, 14) && Condition(o, 20);
    assert Condition(o, 12) && Condition(o, 17) && Condition(o, 2);
    SpreadTestIsExact(p.bid, p.ask);
    RoundUpWithinCent(p.ask * 1.002);
  }
}
