/**
 The preview, execute and reconcile calls as programs over the store, run one at a time with faults at any
 transaction and the order delivered or lost.  Each program
 keeps a trace of the worlds it passes through, and the trace is always a run of the order protocol:
 the programs take exactly the steps of the state machine, in its order.
 */
module DemoService {
  import opened Base
  import opened Faults
  import opened Trading
  import opened Gate
  import opened OrderStore
  import opened OrderProtocol
  import Binding

  datatype ExecuteOutcome = Refused | Withheld | Blocked | Submitted(status: Status) | Unrecorded | Errored

  class Service {
    const store: DemoStore
    const broker: Binding.BrokerService
    var now: int
    var posts: seq<Post>
    ghost var world: World
    ghost var trace: seq<World>

    // The trace is a run that ends in the service's state, with the given calls under way.
    ghost predicate Running(calls: map<nat, Call>)
      reads this, store
    {
      && IsRun(trace) && trace[|trace| - 1] == world
      && world.now == now && world.db == store.Contents() && world.posts == posts && world.calls == calls
    }

    ghost predicate Valid()
      reads this, store
    {
      Running(map[])
    }

    constructor (broker: Binding.BrokerService)
      ensures Valid() && fresh(store) && this.broker == broker
    {
      this.broker := broker;
      store := new DemoStore();
      now, posts := 0, [];
      world := World(0, Db(map[], [], []), map[], [], {});
      trace := [World(0, Db(map[], [], []), map[], [], {})];
    }

    // One step of the state machine.
    ghost method Take(s: Step)
      requires IsRun(trace) && trace[|trace| - 1] == world && Enabled(world, s)
      modifies this`world, this`trace
      ensures world == Apply(old(world), s) && trace == old(trace) + [world] && IsRun(trace)
    {
      ghost var next := Apply(world, s);
      assert StepTo(world, next);
      trace := trace + [next];
      world := next;
    }

    method Wait(until: int)
      requires Valid() && now <= until
      modifies this
      ensures Valid() && old(trace) <= trace && now == until && posts == old(posts)
        && world == old(world).(now := until)
    {
      Take(Tick(until));
      now := until;
    }

    // Ends the call under way without another effect.
    ghost method GiveUp()
      requires 0 in world.calls && world.calls.Keys == {0} && Running(world.calls)
      modifies this`world, this`trace
      ensures Valid() && old(trace) <= trace && world.received == old(world).received
    {
      Take(Drop(0));
      assert world.calls == map[];
    }

    // What an evaluation sees: whether a Demo key is connected is the broker's state.
    function Seen(o: Observation): Observation
      reads broker
    {
      o.(connected := Binding.Demo in broker.bound)
    }

    method DemoPreview(key: string, id: Id, o: Observation, commit: Fault) returns (ok: bool)
      requires Valid() && id !in store.rows
      modifies this, store
      ensures Valid() && old(trace) <= trace && now == old(now) && posts == old(posts)
      ensures ok <==> KeyTaken(old(store.rows), key) || commit == Fine
      ensures
        var db := old(store.Contents());
        if KeyTaken(db.rows, key) then store.Contents() == db
        else exists v ::
          && Evaluates(old(Seen(o)), v)
          && store.Contents() == Effect(commit, db, InsertPreview(db, id, key, now, v))
    {
      hide Evaluates;
      if KeyTaken(store.rows, key) {
        return true;
      }
      Take(BeginPreview(0, key));
      var seen := Seen(o);
      var evaluation := EvaluateDemo(seen);
      var v := evaluation.Contents();
      Take(Evaluate(0, seen, v));
      assert world.calls == map[0 := Previewed(key, v)];
      if commit == Before {
        GiveUp();
      } else {
        var inserted := store.Preview(id, key, now, v);
        Take(Insert(0, id, now));
        assert world.calls == map[];
      }
      ok := commit == Fine;
    }

    // Repeats the evaluation for a ready decision.
    method Reevaluate(id: Id, plan: Plan, o: Observation) returns (v: Evaluation)
      requires Valid() && id in store.rows && Executable(store.rows[id], now) && store.rows[id].plan.value == plan
      modifies this`world, this`trace
      ensures Running(map[0 := if Confirms(plan, v) then Intending(id, plan, v) else OrderProtocol.Holding(id, v)])
      ensures old(trace) <= trace && Evaluates(Seen(o), v) && world.db == old(world).db
    {
      hide Confirms, Evaluates;
      Take(BeginExecute(0, id));
      var seen := Seen(o);
      var evaluation := EvaluateDemo(seen);
      v := evaluation.Contents();
      Take(Recheck(0, seen, v));
      assert world.calls ==
             map[0 := if Confirms(plan, v) then Intending(id, plan, v) else OrderProtocol.Holding(id, v)];
    }

    method Withdraw(id: Id, v: Evaluation, commit: Fault)
      requires Running(map[0 := OrderProtocol.Holding(id, v)]) && HasStatus(store.Contents(), id, Ready)
      modifies this`world, this`trace, store
      ensures Valid() && old(trace) <= trace && id in old(store.rows)
      ensures store.Contents() == Effect(commit, old(store.Contents()), HoldRun(old(store.Contents()), id, now, v))
    {
      if commit == Before {
        GiveUp();
      } else {
        store.HoldDemo(id, now, v);
        Take(Withhold(0, now));
        assert world.calls == map[];
      }
    }

    // Commits the intent at a later time, or abandons the call; an unreported commit is abandoned too.
    method Commit(id: Id, plan: Plan, v: Evaluation, start: int, commit: Fault) returns (intent: IntentOutcome)
      requires Running(map[0 := Intending(id, plan, v)]) && now <= start && HasStatus(store.Contents(), id, Ready)
      modifies this`now, this`world, this`trace, store
      ensures Running(if intent == Committed && commit == Fine then map[0 := Cleared(id, plan, v, start)] else map[])
      ensures now == start && old(trace) <= trace && id in old(store.rows)
      ensures intent == if commit == Before || !IntentMatches(old(store.Contents()), id, start) then NotReady
                        else if OtherActive(old(store.rows), id) then ActiveIntent
                        else Committed
      ensures store.Contents() == if intent == Committed then CommitIntent(old(store.Contents()), id, start, v)
                                  else old(store.Contents())
      ensures intent == Committed ==> HasStatus(store.Contents(), id, Submitting)
    {
      Take(Tick(start));
      now := start;
      intent := NotReady;
      if commit != Before {
        intent := store.Intent(id, start, v);
      }
      if intent == Committed {
        Take(Intend(0, start, commit == Fine));
        assert world.calls == if commit == Fine then map[0 := Cleared(id, plan, v, start)] else map[];
      } else {
        GiveUp();
      }
    }

    // The order goes out, and reaches the broker or not.
    method Ship(id: Id, plan: Plan, v: Evaluation, start: int, delivered: bool)
      requires Running(map[0 := Cleared(id, plan, v, start)])
      modifies this`posts, this`world, this`trace
      ensures Running(map[0 := OrderProtocol.Sent(id, start)]) && old(trace) <= trace
      ensures posts == old(posts) + [Post(id, plan, v)] && (delivered ==> id in world.received)
    {
      posts := posts + [Post(id, plan, v)];
      Take(Send(0));
      assert world.calls == map[0 := OrderProtocol.Sent(id, start)];
      if delivered {
        assert posts[|posts| - 1].id == id;
        Take(Deliver(id));
      }
    }

    // The POST of a committed intent: delivered or lost, and answered at a later time.
    method PostOrder(id: Id, plan: Plan, v: Evaluation, start: int, delivered: bool,
                     response: Response<ReceiptBody>, raw: string, at: int)
      requires Running(map[0 := Cleared(id, plan, v, start)]) && now <= at
      requires ReadReceipt(id, response).Some? ==> delivered
      modifies this
      ensures Running(map[0 := Replied(id, start, response, raw)]) && now == at
      ensures old(trace) <= trace && posts == old(posts) + [Post(id, plan, v)] && (delivered ==> id in world.received)
    {
      Ship(id, plan, v, start, delivered);
      Take(Tick(at));
      now := at;
      Take(Reply(0, response, raw));
      assert world.calls == map[0 := Replied(id, start, response, raw)];
    }

    method RecordOutcome(id: Id, start: int, response: Response<ReceiptBody>, raw: string, commit: Fault)
      requires Running(map[0 := Replied(id, start, response, raw)]) && HasStatus(store.Contents(), id, Submitting)
      modifies this`world, this`trace, store
      ensures Valid() && old(trace) <= trace && world.received == old(world).received && id in old(store.rows)
      ensures store.Contents() ==
              Effect(commit, old(store.Contents()), RecordSubmit(old(store.Contents()), id, now, response, raw))
    {
      if commit == Before {
        GiveUp();
      } else {
        store.RecordDemoSubmit(id, now, response, raw);
        Take(Record(0, now));
        assert world.calls == map[];
      }
    }

    // `response` answers the POST, `answer` the lookup that follows an accepted order, and `portfolio` the read
    // that follows a fill.  The faults are those of the hold or intent, of the recorded outcome, and of the
    // lookup's update.
    method DemoExecute(id: Id, o: Observation, start: int, delivered: bool, response: Response<ReceiptBody>,
                       raw: string, at: int, answer: Answer, lookup: Wire,
                       preparing: Fault, recording: Fault, resolving: Fault, portfolio: Binding.Oracle)
      returns (outcome: ExecuteOutcome, ghost v: Evaluation)
      requires Valid() && now <= start <= at && (answer.Found? ==> SoundLookup(answer.order))
      requires (answer.Found? && !answer.byOrderId ==> delivered) && (ReadReceipt(id, response).Some? ==> delivered)
      modifies this, store, broker
      ensures Valid() && old(trace) <= trace
      ensures
        var (db, known) := (old(store.Contents()), old(broker.Abs()));
        if id !in db.rows || !Executable(db.rows[id], old(now)) then
          outcome == Refused && store.Contents() == db && posts == old(posts) && broker.Abs() == known
        else
          var plan := db.rows[id].plan.value;
          && Evaluates(old(Seen(o)), v)
          && outcome == Outcome(db, id, plan, v, start, response, preparing, recording)
          && store.Contents() == Executed(db, id, plan, v, old(now), start, at, response, raw, answer, lookup,
                                          preparing, recording, resolving, Binding.Demo in known.bound)
          && broker.Abs() == (if outcome == Submitted(Accepted)
            then ReadAfterSend(known, CommitIntent(db, id, start, v), id, at, response, raw, answer, resolving,
                               portfolio)
            else known)
          && posts == if outcome.Submitted? || outcome == Unrecorded
            then old(posts) + [Post(id, plan, v)] else old(posts)
      ensures outcome.Submitted? ==>
        && (outcome.status == Accepted <==>
          && response.Response? && 200 <= response.status < 300
          && exists o :: o > 0 && response.body == Some(ReceiptBody(o, id)))
        && (outcome.status == Rejected <==>
          response.Response? && 400 <= response.status < 500 && response.status != 429)
        && outcome.status in {Accepted, Rejected, Unknown}
      ensures outcome.Submitted? && outcome.status != Accepted ==>
        && id in store.rows && store.rows[id].status == outcome.status
        && store.rows[id].orderId == None && store.rows[id].updatedAt == at
      ensures outcome.Submitted? ==> o.enabled && Binding.Demo in old(broker.bound)
      ensures var rows := old(store.rows);
              var ready := id in rows && rows[id].status == Ready && rows[id].version == "btc-market-entry-probe-v2"
                           && rows[id].expiresAt.Some? && old(now) <= rows[id].expiresAt.value
                           && rows[id].plan.Some? && rows[id].plan.value.orderType == "mkt"
                           && rows[id].plan.value.maxRecheckAsk.Some? && rows[id].plan.value.maxRecheckAsk.value > 0.0;
              if ready then Evaluates(old(Seen(o)), v) else outcome == Refused
    {
      hide ReadReceipt, Outcome, Executed, IntentMatches, OtherActive, SoundLookup, ReadAfterSend;
      v := Evaluation([], [], None, NoneYet);
      if id !in store.rows || !Executable(store.rows[id], now) {
        outcome := Refused;
        return;
      }
      var plan := store.rows[id].plan.value;
      var evaluation := Reevaluate(id, plan, o);
      v := evaluation;
      UnconfirmedOutcome(store.Contents(), id, plan, v, now, start, at, response, raw, answer, lookup, preparing,
                         recording, resolving, Binding.Demo in broker.bound);
      ExecutedIsRecorded(store.Contents(), id, plan, v, now, start, at, response, raw, answer, lookup, preparing,
                         recording, resolving, Binding.Demo in broker.bound);
      if !Confirms(plan, evaluation) {
        Withdraw(id, evaluation, preparing);
        outcome := if preparing == Fine then Withheld else Errored;
        return;
      }
      PlannedIsConnected(Seen(o), evaluation);
      outcome := Proceed(id, plan, evaluation, start, delivered, response, raw, at, answer, lookup,
                         preparing, recording, resolving, portfolio);
    }

    // What follows a recheck that confirms the reviewed plan.
    method Proceed(id: Id, plan: Plan, v: Evaluation, start: int, delivered: bool, response: Response<ReceiptBody>,
                   raw: string, at: int, answer: Answer, lookup: Wire,
                   preparing: Fault, recording: Fault, resolving: Fault, portfolio: Binding.Oracle)
      returns (outcome: ExecuteOutcome)
      requires Running(map[0 := Intending(id, plan, v)]) && Confirms(plan, v)
      requires now <= start <= at && HasStatus(store.Contents(), id, Ready)
      requires answer.Found? ==> SoundLookup(answer.order) && (!answer.byOrderId ==> delivered)
      requires ReadReceipt(id, response).Some? ==> delivered
      modifies this, store, broker
      ensures Valid() && old(trace) <= trace && id in old(store.rows)
      ensures outcome == Outcome(old(store.Contents()), id, plan, v, start, response, preparing, recording)
      ensures store.Contents() == Executed(old(store.Contents()), id, plan, v, old(now), start, at, response, raw,
                                           answer, lookup, preparing, recording, resolving,
                                           Binding.Demo in old(broker.bound))
      ensures broker.Abs() == if outcome == Submitted(Accepted)
        then ReadAfterSend(old(broker.Abs()), CommitIntent(old(store.Contents()), id, start, v), id, at, response, raw,
                           answer, resolving, portfolio)
        else old(broker.Abs())
      ensures posts == if outcome.Submitted? || outcome == Unrecorded
        then old(posts) + [Post(id, plan, v)] else old(posts)
    {
      hide IsRun, Running, SoundLookup, OtherActive, Confirms, IntentMatches, Executed, Outcome, AfterSend,
           ReadAfterSend, CommitIntent, SubmitStatus, ReadReceipt;
      ConfirmedOutcome(store.Contents(), id, plan, v, start, response, preparing, recording);
      ConfirmedStore(store.Contents(), id, plan, v, now, start, at, response, raw, answer, lookup, preparing,
                     recording, resolving, Binding.Demo in broker.bound);
      var intent := Commit(id, plan, v, start, preparing);
      if intent != Committed || preparing != Fine {
        outcome := if preparing == Before || intent == Committed then Errored
                   else if intent == ActiveIntent then Blocked else Refused;
        return;
      }
      Submit(id, plan, v, start, delivered, response, raw, at, answer, lookup, recording, resolving, portfolio);
      outcome := if recording == Fine then Submitted(SubmitStatus(id, response)) else Unrecorded;
    }

    // Sends a committed intent, records its outcome, and looks an accepted order up at once.
    method Submit(id: Id, plan: Plan, v: Evaluation, start: int, delivered: bool, response: Response<ReceiptBody>,
                  raw: string, at: int, answer: Answer, lookup: Wire, recording: Fault, resolving: Fault,
                  portfolio: Binding.Oracle)
      requires Running(map[0 := Cleared(id, plan, v, start)]) && now <= at
        && HasStatus(store.Contents(), id, Submitting)
      requires answer.Found? ==> SoundLookup(answer.order) && (!answer.byOrderId ==> delivered)
      requires ReadReceipt(id, response).Some? ==> delivered
      modifies this, store, broker
      ensures Valid() && old(trace) <= trace && posts == old(posts) + [Post(id, plan, v)]
      ensures store.Contents() ==
              AfterSend(old(store.Contents()), id, at, response, raw, answer, lookup, recording, resolving,
                        Binding.Demo in old(broker.bound))
      ensures broker.Abs() == if recording == Fine && SubmitStatus(id, response) == Accepted
        then ReadAfterSend(old(broker.Abs()), old(store.Contents()), id, at, response, raw, answer, resolving,
                           portfolio)
        else old(broker.Abs())
    {
      PostOrder(id, plan, v, start, delivered, response, raw, at);
      RecordOutcome(id, start, response, raw, recording);
      if recording == Fine && SubmitStatus(id, response) == Accepted {
        var _ := DemoReconcile(id, answer, lookup, resolving, portfolio);
      }
    }

    // An answer the broker can give: a sound order, found by a reference it has received or by an order
    // ID that the row holds.
    ghost predicate Possible(id: Id, answer: Answer)
      reads this, store
    {
      answer.Found? ==>
        && SoundLookup(answer.order)
        && (if answer.byOrderId then id in store.rows && store.rows[id].orderId.Some? else id in world.received)
    }

    // Reads an unresolved decision and asks the broker about it; false when it is not due yet, or no Demo key is
    // connected.
    method Inquire(id: Id, answer: Answer, wire: Wire) returns (asked: bool)
      requires Valid() && HasActive(store.Contents(), id) && Possible(id, answer)
      modifies this`world, this`trace
      ensures old(trace) <= trace && world.db == old(world).db
      ensures asked <==> Due(store.rows[id], now) && Binding.Demo in broker.bound
      ensures Running(if asked then LeftToWrite(id, store.rows[id], answer, wire) else map[])
    {
      var row := store.rows[id];
      Take(BeginReconcile(0, id));
      if row.status == Submitting && now - row.updatedAt < SUBMIT_WINDOW {
        GiveUp();
        return false;
      }
      if Binding.Demo !in broker.bound {
        GiveUp();
        return false;
      }
      LookUp(id, row, answer, wire);
      return true;
    }

    ghost method LookUp(id: Id, row: Row, answer: Answer, wire: Wire)
      requires Running(map[0 := Reading(id, row)]) && Due(row, now)
      requires answer.Found? ==>
        SoundLookup(answer.order) && if answer.byOrderId then row.orderId.Some? else id in world.received
      modifies this`world, this`trace
      ensures old(trace) <= trace && world.db == old(world).db && Running(LeftToWrite(id, row, answer, wire))
    {
      Take(CheckAge(0));
      assert world.calls == map[0 := Asking(id, row)];
      Take(Ask(0, answer, wire));
      assert world.calls == LeftToWrite(id, row, answer, wire);
    }

    // `portfolio` answers the read that follows a fill, with the key that was connected when the call looked.
    method DemoReconcile(id: Id, answer: Answer, wire: Wire, commit: Fault, portfolio: Binding.Oracle)
      returns (ok: bool)
      requires Valid() && Possible(id, answer)
      modifies this, store, broker
      ensures Valid() && old(trace) <= trace && now == old(now) && posts == old(posts)
      ensures var (db, known) := (old(store.Contents()), old(broker.Abs()));
              && store.Contents() == Reconciled(db, id, now, answer, wire, commit, Binding.Demo in known.bound)
              && broker.Abs() == ReadAfter(known, db, id, now, answer, commit, portfolio)
              && (ok <==> commit == Fine || !Writes(db, id, now, answer, Binding.Demo in known.bound))
              && (ok ==> Explained(db, store.Contents(), id, now, answer, Binding.Demo in known.bound))
              && ReadsAfterFill(known, broker.Abs(), db, store.Contents(), id, ok)
    {
      ReconcileIsExplained(store.Contents(), id, now, answer, wire, commit, broker.Abs(), portfolio);
      ok := true;
      if id !in store.rows || !Active(store.rows[id].status) {
        return;
      }
      var asked := Inquire(id, answer, wire);
      if !asked {
        return;
      }
      var row := store.rows[id];
      if answer.NotFound? && row.status == Submitting {
        WriteUnknown(id, row, wire, commit);
        ok := commit == Fine;
      } else if answer.Found? && !Unchanged(row, answer.order) {
        WriteLookup(id, row, answer.order, wire, commit);
        ok := commit == Fine;
        var status := ResolvedStatus(row, answer.order);
        if ok && (status == Filled || status == PartiallyFilled) {
          broker.SyncDemoAfterOrder(broker.bound[Binding.Demo], portfolio);
        }
      }
    }

    method WriteUnknown(id: Id, row: Row, wire: Wire, commit: Fault)
      requires Running(map[0 := Unanswered(id, wire)]) && id in store.rows
      modifies this`world, this`trace, store
      ensures Valid() && old(trace) <= trace && id in old(store.rows)
      ensures store.Contents() ==
              Effect(commit, old(store.Contents()), MarkUnknown(old(store.Contents()), id, now, wire))
    {
      if commit == Before {
        GiveUp();
      } else {
        store.MarkDemoUnknown(id, now, wire);
        Take(Mark(0, now));
        assert world.calls == map[];
      }
    }

    method WriteLookup(id: Id, row: Row, order: OrderLookup, wire: Wire, commit: Fault)
      requires Running(map[0 := Answered(id, row, order, wire)]) && id in store.rows
      modifies this`world, this`trace, store
      ensures Valid() && old(trace) <= trace && id in old(store.rows)
      ensures store.Contents() ==
              Effect(commit, old(store.Contents()),
                     ApplyLookup(old(store.Contents()), id, now, ResolvedStatus(row, order), order, wire))
    {
      if commit == Before {
        GiveUp();
      } else {
        store.SaveLookup(id, now, ResolvedStatus(row, order), order, wire);
        Take(Resolve(0, now));
        assert world.calls == map[];
      }
    }
  }

  // A submitting decision is left to its submitter until the submission window has passed.
  predicate Due(row: Row, now: int) {
    row.status == Submitting ==> now - row.updatedAt >= SUBMIT_WINDOW
  }

  // What an answered lookup leaves to be written.
  function LeftToWrite(id: Id, row: Row, answer: Answer, wire: Wire): map<nat, Call> {
    if answer.Found? && !Unchanged(row, answer.order) then map[0 := Answered(id, row, answer.order, wire)]
    else if answer.NotFound? && row.status == Submitting then map[0 := Unanswered(id, wire)]
    else map[]
  }

  // A reconcile has something to write.
  predicate Writes(db: Db, id: Id, now: int, answer: Answer, connected: bool) {
    && HasActive(db, id) && Due(db.rows[id], now) && connected
    && match answer
       case Found(order, _) => !Unchanged(db.rows[id], order)
       case NotFound => db.rows[id].status == Submitting
  }

  // The store after one uninterrupted reconcile.
  function Reconciled(db: Db, id: Id, now: int, answer: Answer, wire: Wire, commit: Fault, connected: bool): Db {
    if !Writes(db, id, now, answer, connected) then db
    else match answer
      case Found(order, _) =>
        Effect(commit, db, ApplyLookup(db, id, now, ResolvedStatus(db.rows[id], order), order, wire))
      case NotFound => Effect(commit, db, MarkUnknown(db, id, now, wire))
  }

  // What the broker service knows after one reconcile: a reported fill is followed by a read with the Demo key.
  function ReadAfter(known: Binding.State, db: Db, id: Id, now: int, answer: Answer, commit: Fault,
                     portfolio: Binding.Oracle): Binding.State
  {
    if && Writes(db, id, now, answer, Binding.Demo in known.bound) && commit == Fine && answer.Found?
       && (|| ResolvedStatus(db.rows[id], answer.order) == Filled
           || ResolvedStatus(db.rows[id], answer.order) == PartiallyFilled)
    then Binding.OrderSynced(known, known.bound[Binding.Demo], portfolio)
    else known
  }

  // What a reported reconcile does to the store, in the broker's terms: a decision that is not unresolved, or
  // was submitted less than 30 seconds ago, or whose Demo key is not connected is left alone; otherwise the
  // row follows the answer, and a submission without an answer becomes unknown.
  ghost predicate Explained(db: Db, db': Db, id: Id, now: int, answer: Answer, connected: bool) {
    if !(&& id in db.rows && db.rows[id].status in {Submitting, Accepted, PartiallyFilled, Unknown} && connected
         && (db.rows[id].status == Submitting ==> db.rows[id].updatedAt + 30_000_000_000 <= now))
    then db' == db
    else
      && id in db'.rows && db'.rows == db.rows[id := db'.rows[id]]
      && var (row, row') := (db.rows[id], db'.rows[id]);
      match answer
      case Found(l, _) =>
        && Follows(row'.status, row, l) && row'.orderId == Some(l.orderId) && row'.brokerStatus == Some(l.statusId)
        && (row' == row || (row'.positions == l.positionIds && row'.updatedAt == now))
      case NotFound => row' == if row.status == Submitting then row.(status := Unknown, updatedAt := now) else row
  }

  // A reported change to filled or partly filled is followed by one read for Demo with the bound key; nothing
  // else is read.
  ghost predicate ReadsAfterFill(known: Binding.State, known': Binding.State, db: Db, db': Db, id: Id, ok: bool) {
    if ok && db' != db && id in db'.rows && db'.rows[id].status in {Filled, PartiallyFilled} then
      && Binding.Demo in known.bound
      && known'.requests == known.requests + [Binding.Read(known.bound[Binding.Demo], Binding.Demo, None)]
    else known' == known
  }

  lemma ReconcileIsExplained(db: Db, id: Id, now: int, answer: Answer, wire: Wire, commit: Fault,
                             known: Binding.State, portfolio: Binding.Oracle)
    ensures var connected := Binding.Demo in known.bound;
            var (db', ok) := (Reconciled(db, id, now, answer, wire, commit, connected),
                              commit == Fine || !Writes(db, id, now, answer, connected));
            && (ok ==> Explained(db, db', id, now, answer, connected))
            && ReadsAfterFill(known, ReadAfter(known, db, id, now, answer, commit, portfolio), db, db', id, ok)
  {
    var connected := Binding.Demo in known.bound;
    var db' := Reconciled(db, id, now, answer, wire, commit, connected);
    if id in db.rows && answer.Found? { ResolvedStatusFollows(db.rows[id], answer.order); }
    if Writes(db, id, now, answer, connected) && commit == Fine {
      assert |db'.events| == |db.events| + 1;
    }
  }

  // The store after an order was sent at a committed intent.
  function AfterSend(db: Db, id: Id, at: int, response: Response<ReceiptBody>, raw: string,
                     answer: Answer, lookup: Wire, recording: Fault, resolving: Fault, connected: bool): Db
    requires id in db.rows
  {
    var recorded := Effect(recording, db, RecordSubmit(db, id, at, response, raw));
    if recording == Fine && SubmitStatus(id, response) == Accepted
    then Reconciled(recorded, id, at, answer, lookup, resolving, connected)
    else recorded
  }

  // What the broker service knows after an accepted order was recorded and looked up.
  function ReadAfterSend(known: Binding.State, db: Db, id: Id, at: int, response: Response<ReceiptBody>, raw: string,
                         answer: Answer, resolving: Fault, portfolio: Binding.Oracle): Binding.State
    requires id in db.rows
  {
    ReadAfter(known, RecordSubmit(db, id, at, response, raw), id, at, answer, resolving, portfolio)
  }

  // What an execution of a ready decision reports.
  function Outcome(db: Db, id: Id, plan: Plan, v: Evaluation, start: int, response: Response<ReceiptBody>,
                   preparing: Fault, recording: Fault): ExecuteOutcome {
    if !Confirms(plan, v) then if preparing == Fine then Withheld else Errored
    else if preparing == Before then Errored
    else if !IntentMatches(db, id, start) then Refused
    else if OtherActive(db.rows, id) then Blocked
    else if preparing == After then Errored
    else if recording == Fine then Submitted(SubmitStatus(id, response))
    else Unrecorded
  }

  // What it leaves in the store: a hold, nothing, an intent nobody answers for, or an order's outcome.
  function Executed(db: Db, id: Id, plan: Plan, v: Evaluation, now: int, start: int, at: int,
                    response: Response<ReceiptBody>, raw: string, answer: Answer, lookup: Wire,
                    preparing: Fault, recording: Fault, resolving: Fault, connected: bool): Db
    requires id in db.rows
  {
    if !Confirms(plan, v) then Effect(preparing, db, HoldRun(db, id, now, v))
    else if preparing == Before || !IntentMatches(db, id, start) || OtherActive(db.rows, id) then db
    else if preparing == After then CommitIntent(db, id, start, v)
    else AfterSend(CommitIntent(db, id, start, v), id, at, response, raw, answer, lookup, recording, resolving,
                   connected)
  }

  lemma ConfirmedOutcome(db: Db, id: Id, plan: Plan, v: Evaluation, start: int, response: Response<ReceiptBody>,
                         preparing: Fault, recording: Fault)
    requires Confirms(plan, v)
    ensures Outcome(db, id, plan, v, start, response, preparing, recording) ==
            if preparing == Before then Errored
            else if !IntentMatches(db, id, start) then Refused
            else if OtherActive(db.rows, id) then Blocked
            else if preparing == After then Errored
            else if recording == Fine then Submitted(SubmitStatus(id, response))
            else Unrecorded
  {
  }

  lemma ConfirmedStore(db: Db, id: Id, plan: Plan, v: Evaluation, now: int, start: int, at: int,
                       response: Response<ReceiptBody>, raw: string, answer: Answer, lookup: Wire,
                       preparing: Fault, recording: Fault, resolving: Fault, connected: bool)
    requires id in db.rows && Confirms(plan, v)
    ensures Executed(db, id, plan, v, now, start, at, response, raw, answer, lookup, preparing, recording, resolving,
                     connected) ==
            if preparing == Before || !IntentMatches(db, id, start) || OtherActive(db.rows, id) then db
            else if preparing == After then CommitIntent(db, id, start, v)
            else AfterSend(CommitIntent(db, id, start, v), id, at, response, raw, answer, lookup, recording,
                           resolving, connected)
  {
  }

  lemma UnconfirmedOutcome(db: Db, id: Id, plan: Plan, v: Evaluation, now: int, start: int, at: int,
                           response: Response<ReceiptBody>, raw: string, answer: Answer, lookup: Wire,
                           preparing: Fault, recording: Fault, resolving: Fault, connected: bool)
    requires id in db.rows
    ensures !Confirms(plan, v) ==>
      && Outcome(db, id, plan, v, start, response, preparing, recording) ==
         (if preparing == Fine then Withheld else Errored)
      && Executed(db, id, plan, v, now, start, at, response, raw, answer, lookup, preparing, recording, resolving,
                  connected) == Effect(preparing, db, HoldRun(db, id, now, v))
  {
  }

  // What an execution reports of a sent order follows the reply, and what it stores agrees with it.
  lemma ExecutedIsRecorded(db: Db, id: Id, plan: Plan, v: Evaluation, now: int, start: int, at: int,
                           response: Response<ReceiptBody>, raw: string, answer: Answer, lookup: Wire,
                           preparing: Fault, recording: Fault, resolving: Fault, connected: bool)
    requires id in db.rows
    ensures
      var outcome := Outcome(db, id, plan, v, start, response, preparing, recording);
      var db' := Executed(db, id, plan, v, now, start, at, response, raw, answer, lookup, preparing, recording,
                          resolving, connected);
      && (outcome.Submitted? ==>
        && (outcome.status == Accepted <==>
          && response.Response? && 200 <= response.status < 300
          && exists o :: o > 0 && response.body == Some(ReceiptBody(o, id)))
        && (outcome.status == Rejected <==>
          response.Response? && 400 <= response.status < 500 && response.status != 429)
        && outcome.status in {Accepted, Rejected, Unknown})
      && (outcome.Submitted? && outcome.status != Accepted ==>
        && id in db'.rows && db'.rows[id].status == outcome.status
        && db'.rows[id].orderId == None && db'.rows[id].updatedAt == at)
  {
    SubmitStatusIsTheOutcome(id, response);
  }
}
