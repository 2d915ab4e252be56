/**
 The provider's trading responses after decoding: which ones are accepted, and what is kept of them.
 A response that breaks its schema is an error; it never yields a partial value.
 */
module Trading {
  import opened Base

  datatype SchemaError = SchemaError

  // ---------- Case folding ----------

  // Simple case folding, for comparison with a lower-case ASCII word.
  function Fold(c: char): char {
    if 'A' <= c <= 'Z' then (c as int - 'A' as int + 'a' as int) as char
    else if c as int == 0x17f then 's'
    else if c as int == 0x212a then 'k'
    else c
  }

  predicate FoldsTo(s: string, word: string) {
    |s| == |word| && forall i :: 0 <= i < |s| ==> Fold(s[i]) == word[i]
  }

  // A text folds to a lower-case ASCII word exactly when each character is the word's letter in either case,
  // or the long s for an s, or the Kelvin sign for a k.
  lemma FoldsExactlyWhen(s: string, word: string)
    requires forall i :: 0 <= i < |word| ==> 'a' <= word[i] <= 'z'
    ensures FoldsTo(s, word) <==>
            |s| == |word| && forall i :: 0 <= i < |s| ==>
              || s[i] == word[i] || s[i] as int + 32 == word[i] as int
              || (word[i] == 's' && s[i] as int == 0x17f) || (word[i] == 'k' && s[i] as int == 0x212a)
  {
  }

  // ---------- Trading eligibility ----------

  datatype LeverageConfig = LeverageConfig(settlement: string, direction: string, leverages: seq<int>,
                                           potential: bool, minimum: Option<real>)

  datatype EligibilityItem = EligibilityItem(instrumentId: int, symbol: string, canOpen: bool,
                                             minExposure: Option<real>, configs: seq<LeverageConfig>)

  datatype Eligibility = Eligibility(instrumentId: int, symbol: string, canOpen: bool, minExposure: real,
                                     realLongUnlevered: bool, minPositionAmount: real)

  // A configuration that offers a real, unlevered long position.
  predicate OffersUnlevered(c: LeverageConfig) {
    FoldsTo(c.settlement, "real") && FoldsTo(c.direction, "long") && !c.potential && 1 in c.leverages
  }

  predicate GoodMinimum(c: LeverageConfig) {
    c.minimum.Some? && c.minimum.value >= 0.0
  }

  // The minimum of the last configuration that offers an unlevered position; earlier ones are overwritten.
  function LastMinimum(configs: seq<LeverageConfig>): Option<real> {
    if configs == [] then None
    else if OffersUnlevered(configs[|configs| - 1]) then configs[|configs| - 1].minimum
    else LastMinimum(configs[..|configs| - 1])
  }

  // The exposure and every configuration that offers an unlevered position have a minimum that is not negative.
  ghost predicate GoodItem(item: EligibilityItem) {
    && item.minExposure.Some? && item.minExposure.value >= 0.0
    && forall c :: c in item.configs && OffersUnlevered(c) ==> GoodMinimum(c)
  }

  ghost predicate Kept(e: Eligibility, item: EligibilityItem) {
    && e.instrumentId == item.instrumentId && e.symbol == item.symbol && e.canOpen == item.canOpen
    && Some(e.minExposure) == item.minExposure
  }

  // What is kept of an accepted item.
  ghost predicate Reads(e: Eligibility, item: EligibilityItem) {
    && Kept(e, item)
    && (e.realLongUnlevered <==> exists c :: c in item.configs && OffersUnlevered(c))
    && (e.realLongUnlevered ==> Some(e.minPositionAmount) == LastMinimum(item.configs))
  }

  // The kept minimum is that of the last configuration whose settlement is real, whose direction is long,
  // which is not a mere potential, and which allows leverage 1; without one the position is not offered.
  lemma ReadsTheLastOffer(e: Eligibility, item: EligibilityItem)
    requires Reads(e, item)
    ensures e.realLongUnlevered ==>
      exists k :: 0 <= k < |item.configs| && LastOffer(item.configs, k)
                  && item.configs[k].minimum == Some(e.minPositionAmount)
    ensures !e.realLongUnlevered ==>
      forall k :: 0 <= k < |item.configs| ==> !LastOffer(item.configs, k)
  {
    if e.realLongUnlevered {
      var k := FindLastOffer(item.configs);
    } else {
      assert forall k :: 0 <= k < |item.configs| ==> item.configs[k] in item.configs;
    }
  }

  ghost predicate LastOffer(configs: seq<LeverageConfig>, k: int)
    requires 0 <= k < |configs|
  {
    && FoldsTo(configs[k].settlement, "real") && FoldsTo(configs[k].direction, "long")
    && !configs[k].potential && 1 in configs[k].leverages
    && forall l :: k < l < |configs| ==> !OffersUnlevered(configs[l])
  }

  lemma {:induction false} FindLastOffer(configs: seq<LeverageConfig>) returns (k: nat)
    requires exists c :: c in configs && OffersUnlevered(c)
    ensures k < |configs| && LastOffer(configs, k) && configs[k].minimum == LastMinimum(configs)
  {
    var init, last := configs[..|configs| - 1], configs[|configs| - 1];
    if OffersUnlevered(last) {
      k := |configs| - 1;
    } else {
      var c :| c in configs && OffersUnlevered(c);
      assert c in init;
      k := FindLastOffer(init);
    }
  }

  // The answer to a query for one instrument, in US dollars.
  method ReadEligibility(instrumentId: int, currency: string, items: seq<EligibilityItem>)
    returns (r: Result<Eligibility, SchemaError>)
    ensures r.Ok? <==>
      FoldsTo(currency, "usd") && |items| == 1 && items[0].instrumentId == instrumentId && GoodItem(items[0])
    ensures r.Ok? ==> Reads(r.value, items[0])
  {
    if !FoldsTo(currency, "usd") || |items| != 1 || items[0].instrumentId != instrumentId {
      return Err(SchemaError);
    }
    r := ReadItem(items[0]);
  }

  method ReadItem(item: EligibilityItem) returns (r: Result<Eligibility, SchemaError>)
    ensures r.Ok? <==> GoodItem(item)
    ensures r.Ok? ==> Reads(r.value, item)
  {
    var minExposure, configs := item.minExposure, item.configs;
    if minExposure.None? || minExposure.value < 0.0 {
      return Err(SchemaError);
    }
    var out := Eligibility(item.instrumentId, item.symbol, item.canOpen, minExposure.value, false, 0.0);
    for i := 0 to |configs|
      invariant Kept(out, item)
      invariant forall k :: 0 <= k < i && OffersUnlevered(configs[k]) ==> GoodMinimum(configs[k])
      invariant out.realLongUnlevered <==> exists k :: 0 <= k < i && OffersUnlevered(configs[k])
      invariant out.realLongUnlevered ==> Some(out.minPositionAmount) == LastMinimum(configs[..i])
    {
      var c := configs[i];
      assert configs[..i + 1][..i] == configs[..i];
      if FoldsTo(c.settlement, "real") && FoldsTo(c.direction, "long") && !c.potential {
        for j := 0 to |c.leverages|
          invariant 1 in c.leverages[..j] ==>
            GoodMinimum(c) && out.realLongUnlevered && Some(out.minPositionAmount) == c.minimum
          invariant 1 !in c.leverages[..j] ==>
            && (out.realLongUnlevered <==> exists k :: 0 <= k < i && OffersUnlevered(configs[k]))
            && (out.realLongUnlevered ==> Some(out.minPositionAmount) == LastMinimum(configs[..i]))
          invariant Kept(out, item)
        {
          if c.leverages[j] == 1 {
            if c.minimum.None? || c.minimum.value < 0.0 {
              assert c in configs && OffersUnlevered(c);
              return Err(SchemaError);
            }
            out := out.(realLongUnlevered := true, minPositionAmount := c.minimum.value);
          }
        }
        assert c.leverages[..|c.leverages|] == c.leverages;
      }
    }
    assert configs[..|configs|] == configs;
    return Ok(out);
  }

  // ---------- Open positions and orders ----------

  // The arrays a portfolio must hold.
  datatype ArrayName = Positions | Mirrors | Orders | StockOrders | EntryOrders | ExitOrders
                     | OrdersForOpen | OrdersForClose | OrdersForCloseMultiple

  const ARRAYS: seq<ArrayName> := [Positions, Mirrors, Orders, StockOrders, EntryOrders, ExitOrders,
                                   OrdersForOpen, OrdersForClose, OrdersForCloseMultiple]

  datatype Book = Book(openPositions: nat, pendingOrders: nat)

  // The number of items in some of the arrays.
  function TotalLength(portfolio: map<ArrayName, nat>, names: seq<ArrayName>): nat
    requires forall name :: name in names ==> name in portfolio
  {
    if names == [] then 0 else portfolio[names[0]] + TotalLength(portfolio, names[1..])
  }

  lemma TotalOfAll(portfolio: map<ArrayName, nat>)
    requires forall name: ArrayName :: name in portfolio
    ensures TotalLength(portfolio, ARRAYS) ==
            portfolio[Positions] + portfolio[Mirrors]
            + portfolio[Orders] + portfolio[StockOrders] + portfolio[EntryOrders] + portfolio[ExitOrders]
            + portfolio[OrdersForOpen] + portfolio[OrdersForClose] + portfolio[OrdersForCloseMultiple]
  {
    hide TotalLength;
    TotalOfFirst(portfolio, Positions, ARRAYS[1..]);
    TotalOfFirst(portfolio, Mirrors, ARRAYS[2..]);
    TotalOfFirst(portfolio, Orders, ARRAYS[3..]);
    TotalOfFirst(portfolio, StockOrders, ARRAYS[4..]);
    TotalOfFirst(portfolio, EntryOrders, ARRAYS[5..]);
    TotalOfFirst(portfolio, ExitOrders, ARRAYS[6..]);
    TotalOfFirst(portfolio, OrdersForOpen, ARRAYS[7..]);
    TotalOfFirst(portfolio, OrdersForClose, ARRAYS[8..]);
    TotalOfFirst(portfolio, OrdersForCloseMultiple, []);
    TotalOfNone(portfolio);
    assert ARRAYS[8..] == [OrdersForCloseMultiple] + [];
    assert forall k :: 0 <= k < 8 ==> ARRAYS[k..] == [ARRAYS[k]] + ARRAYS[k + 1..];
    assert ARRAYS[0..] == ARRAYS;
  }

  lemma TotalOfNone(portfolio: map<ArrayName, nat>)
    ensures TotalLength(portfolio, []) == 0
  {
  }

  lemma TotalOfFirst(portfolio: map<ArrayName, nat>, name: ArrayName, others: seq<ArrayName>)
    requires forall other: ArrayName :: other in portfolio
    ensures TotalLength(portfolio, [name] + others) == portfolio[name] + TotalLength(portfolio, others)
  {
    assert ([name] + others)[1..] == others;
  }

  // `portfolio` maps each field that holds an array to its length; other fields are absent.
  method ReadBook(portfolio: map<ArrayName, nat>) returns (r: Result<Book, SchemaError>)
    ensures r.Ok? <==> forall name: ArrayName :: name in portfolio
    ensures r.Ok? ==>
      && r.value.openPositions == portfolio[Positions] + portfolio[Mirrors]
      && r.value.openPositions + r.value.pendingOrders == TotalLength(portfolio, ARRAYS)
    ensures r.Ok? ==> (r.value == Book(0, 0) <==> forall name: ArrayName :: portfolio[name] == 0)
  {
    var counts: map<ArrayName, nat> := map[];
    for i := 0 to |ARRAYS|
      invariant forall k :: 0 <= k < i ==>
        ARRAYS[k] in portfolio && ARRAYS[k] in counts && counts[ARRAYS[k]] == portfolio[ARRAYS[k]]
    {
      if ARRAYS[i] !in portfolio {
        return Err(SchemaError);
      }
      counts := counts[ARRAYS[i] := portfolio[ARRAYS[i]]];
    }
    forall name: ArrayName ensures name in portfolio && name in counts && counts[name] == portfolio[name] {
      EveryArrayIsListed(name);
    }
    TotalOfAll(portfolio);
    var open := counts[Positions] + counts[Mirrors];
    var pending := counts[Orders] + counts[StockOrders] + counts[EntryOrders] + counts[ExitOrders]
                   + counts[OrdersForOpen] + counts[OrdersForClose] + counts[OrdersForCloseMultiple];
    if open == 0 && pending == 0 {
      forall name: ArrayName ensures portfolio[name] == 0 {
        match name
        case Positions => case Mirrors => case Orders => case StockOrders => case EntryOrders => case ExitOrders =>
        case OrdersForOpen => case OrdersForClose => case OrdersForCloseMultiple =>
      }
    }
    return Ok(Book(open, pending));
  }

  lemma EveryArrayIsListed(name: ArrayName)
    ensures exists k :: 0 <= k < |ARRAYS| && ARRAYS[k] == name
  {
    match name
    case Positions => assert ARRAYS[0] == name;
    case Mirrors => assert ARRAYS[1] == name;
    case Orders => assert ARRAYS[2] == name;
    case StockOrders => assert ARRAYS[3] == name;
    case EntryOrders => assert ARRAYS[4] == name;
    case ExitOrders => assert ARRAYS[5] == name;
    case OrdersForOpen => assert ARRAYS[6] == name;
    case OrdersForClose => assert ARRAYS[7] == name;
    case OrdersForCloseMultiple => assert ARRAYS[8] == name;
  }

  // ---------- Order receipts and lookups ----------

  // A response with its HTTP status; `body` is None when the body did not decode.
  datatype Response<T> = NoResponse | Response(status: int, body: Option<T>)

  datatype ReceiptBody = ReceiptBody(orderId: int, reference: nat)

  datatype LookupBody = LookupBody(orderId: int, statusId: int, executions: seq<int>)

  datatype OrderLookup = OrderLookup(orderId: int, statusId: int, positionIds: seq<int>)

  predicate Successful(status: int) {
    200 <= status < 300
  }

  // The order ID of an accepted submission: a successful response whose body names a positive order ID
  // and repeats the reference that was sent.
  function ReadReceipt(request: nat, response: Response<ReceiptBody>): (orderId: Option<int>)
    ensures orderId.Some? ==>
      && response.Response? && 200 <= response.status < 300 && orderId.value > 0
      && response.body == Some(ReceiptBody(orderId.value, request))
    ensures orderId.None? ==> forall status, id :: 200 <= status < 300 && id > 0 ==>
      response != Response.Response(status, Some(ReceiptBody(id, request)))
  {
    if response.Response? && Successful(response.status) && response.body.Some?
       && response.body.value.orderId > 0 && response.body.value.reference == request
    then Some(response.body.value.orderId)
    else None
  }

  function Positive(ids: seq<int>): seq<int> {
    if ids == [] then []
    else Positive(ids[..|ids| - 1]) + if ids[|ids| - 1] > 0 then [ids[|ids| - 1]] else []
  }

  predicate AllPositive(ids: seq<int>) {
    forall id :: id in ids ==> id > 0
  }

  // The positive IDs are kept as often as they occur, and no other.
  lemma {:induction false} PositiveKeepsExactly(ids: seq<int>)
    ensures AllPositive(Positive(ids))
    ensures forall id :: multiset(Positive(ids))[id] == if id > 0 then multiset(ids)[id] else 0
  {
    if ids != [] {
      PositiveKeepsExactly(ids[..|ids| - 1]);
      assert ids == ids[..|ids| - 1] + [ids[|ids| - 1]];
    }
  }

  // They are kept in order: filtering a list is filtering its parts.
  lemma {:induction false} PositiveKeepsOrder(a: seq<int>, b: seq<int>)
    ensures Positive(a + b) == Positive(a) + Positive(b)
  {
    if b == [] {
      assert a + b == a;
    } else {
      var init := b[..|b| - 1];
      PositiveKeepsOrder(a, init);
      assert (a + b)[..|a + b| - 1] == a + init;
      assert Positive(b) == Positive(init) + if b[|b| - 1] > 0 then [b[|b| - 1]] else [];
    }
  }

  ghost predicate SoundLookup(l: OrderLookup) {
    l.orderId > 0 && l.statusId > 0 && AllPositive(l.positionIds)
  }

  method ReadLookup(body: LookupBody) returns (r: Result<OrderLookup, SchemaError>)
    ensures r.Ok? <==> body.orderId > 0 && body.statusId > 0
    ensures r.Ok? ==>
      SoundLookup(r.value) && r.value == OrderLookup(body.orderId, body.statusId, Positive(body.executions))
  {
    if body.orderId <= 0 || body.statusId <= 0 {
      return Err(SchemaError);
    }
    var ids := [];
    for i := 0 to |body.executions|
      invariant ids == Positive(body.executions[..i])
    {
      assert body.executions[..i + 1][..i] == body.executions[..i];
      if body.executions[i] > 0 {
        ids := ids + [body.executions[i]];
      }
    }
    assert body.executions[..|body.executions|] == body.executions;
    PositiveKeepsExactly(body.executions);
    return Ok(OrderLookup(body.orderId, body.statusId, ids));
  }
}
