/**
 What the order protocol guarantees over every run: serialized submissions, at most one submission per
 decision, statuses backed by evidence, the status graph, and the timed hand-off.
 */
module OrderSafety {
  import opened Base
  import opened Trading
  import opened Gate
  import opened GateLaws
  import opened OrderStore
  import opened OrderProtocol
  import opened OrderInvariant

  // ---------- Submissions ----------

  ghost predicate Settled(db: Db, id: Id) {
    id in db.rows && (db.rows[id].status == Filled || db.rows[id].status == Rejected)
  }

  // An order sent earlier is settled when another decision is the unresolved one.
  lemma EarlierIsSettled(w: World, id: Id, i: nat)
    requires StoreOk(w.db) && RowsOk(w) && PostsOk(w) && i < |w.posts| && HasActive(w.db, id) && !Posted(w.posts, id)
    ensures w.posts[i].id != id && Settled(w.db, w.posts[i].id)
  {
    assert PostOk(w.db, w.posts[i]) && Posted(w.posts, w.posts[i].id);
    assert RowOk(w.posts, w.posts[i].id, w.db.rows[w.posts[i].id]);
  }

  lemma OnlyOneIsOpen(w: World, id: Id)
    requires StoreOk(w.db) && RowsOk(w) && PostsOk(w) && HasActive(w.db, id) && !Posted(w.posts, id)
    ensures !OtherActive(w.db.rows, id)
    ensures forall p :: p in w.posts ==> p.id != id && Settled(w.db, p.id)
  {
    forall p | p in w.posts ensures p.id != id && Settled(w.db, p.id) {
      var i :| 0 <= i < |w.posts| && w.posts[i] == p;
      EarlierIsSettled(w, id, i);
    }
  }

  // Whenever an order is about to be sent, its decision is the only unresolved one, it was never sent
  // before, and every order sent earlier is already durably filled or rejected.
  lemma OrdersAreSerialized(run: seq<World>, n: nat, c: nat)
    requires IsRun(run) && n < |run| && Enabled(run[n], Send(c))
    ensures var (w, id) := (run[n], run[n].calls[c].id);
            && HasActive(w.db, id) && !OtherActive(w.db.rows, id)
            && forall p :: p in w.posts ==> p.id != id && Settled(w.db, p.id)
  {
    RunKeepsInv(run, n);
    assert CallOk(run[n], run[n].calls[c]);
    OnlyOneIsOpen(run[n], run[n].calls[c].id);
  }

  // An order is sent only after its intent and the evidence of its recheck are committed.
  lemma IntentPrecedesOrder(run: seq<World>, n: nat, c: nat)
    requires IsRun(run) && n < |run| && Enabled(run[n], Send(c))
    ensures var (w, call) := (run[n], run[n].calls[c]);
            && Event(call.id, SubmitIntent, 0) in w.db.events
            && EvidenceKept(w.db, call.id, call.v)
            && call.id in w.db.rows && w.db.rows[call.id].plan == Some(call.plan) && Confirms(call.plan, call.v)
  {
    RunKeepsInv(run, n);
    assert CallOk(run[n], run[n].calls[c]);
    assert IsStarted(run[n].db, run[n].calls[c].id);
  }

  // Over the whole history every decision is sent at most once and has at most one submission outcome.
  lemma OneOrderPerDecision(run: seq<World>, n: nat)
    requires IsRun(run) && n < |run|
    ensures var (posts, log) := (run[n].posts, run[n].db.events);
            && (forall i, j :: 0 <= i < j < |posts| ==> posts[i].id != posts[j].id)
            && (forall i, j :: 0 <= i < j < |log| && SubmissionEvent(log[i].kind) && SubmissionEvent(log[j].kind) ==>
              log[i].run != log[j].run)
            && (forall i, j :: 0 <= i < j < |log| && log[i].kind == SubmitIntent && log[j].kind == SubmitIntent ==>
              log[i].run != log[j].run)
  {
    RunKeepsInv(run, n);
  }

  // Every order sent is the reviewed one: same account and instrument, 100 USD unlevered, and a
  // rechecked ask below 1.002 times the reviewed ask plus one cent.
  lemma OrdersFollowTheReviewedPlan(run: seq<World>, n: nat, i: nat)
    requires IsRun(run) && n < |run| && i < |run[n].posts|
    ensures var p := run[n].posts[i];
            && SoundPlan(p.plan) && p.recheck.plan.Some?
            && p.recheck.plan.value.fingerprint == p.plan.fingerprint
            && p.recheck.plan.value.instrumentId == p.plan.instrumentId
            && p.recheck.plan.value.ask < 1.002 * p.plan.ask + 0.01
  {
    RunKeepsInv(run, n);
    var w := run[n];
    assert PostOk(w.db, w.posts[i]);
    assert RowOk(w.posts, w.posts[i].id, w.db.rows[w.posts[i].id]);
  }

  // ---------- Statuses ----------

  // A filled decision has broker status 3, a positive order ID and positive position IDs; a rejected one
  // has no positions and no broker status but 4; an accepted or partially filled one has an order ID.
  lemma StatusesAreBacked(run: seq<World>, n: nat, id: Id)
    requires IsRun(run) && n < |run| && id in run[n].db.rows
    ensures var row := run[n].db.rows[id];
            && (row.status == Filled ==> row.brokerStatus == Some(3) && row.positions != [])
            && (row.status == Rejected ==> row.positions == [] && row.brokerStatus in {None, Some(4)})
            && (row.status == Filled || row.status == Accepted || row.status == PartiallyFilled ==>
              row.orderId.Some? && row.orderId.value > 0)
            && AllPositive(row.positions)
  {
    RunKeepsInv(run, n);
    assert RowOk(run[n].posts, id, run[n].db.rows[id]);
  }

  // The status changes one step may make.
  predicate Edge(s: Status, s': Status) {
    || s == s'
    || (s == Ready && (s' == Hold || s' == Submitting))
    || (Active(s) && Started(s') && s' != Submitting)
  }

  // A step moves a status along an edge, and leaves a terminal row exactly as it is.
  lemma StepFollowsEdge(w: World, s: Step, id: Id)
    requires Enabled(w, s) && id in w.db.rows
    ensures id in Apply(w, s).db.rows
    ensures Edge(w.db.rows[id].status, Apply(w, s).db.rows[id].status)
    ensures Terminal(w.db.rows[id].status) ==> Apply(w, s).db.rows[id] == w.db.rows[id]
  {
  }

  // What a row may become: nothing returns to ready, and a terminal row stays as it is.
  ghost predicate Advanced(before: Db, after: Db, id: Id)
    requires id in before.rows
  {
    && id in after.rows
    && (before.rows[id].status != Ready ==> after.rows[id].status != Ready)
    && (Terminal(before.rows[id].status) ==> after.rows[id] == before.rows[id])
  }

  lemma StepAdvances(w: World, w': World, id: Id)
    requires StepTo(w, w') && id in w.db.rows
    ensures Advanced(w.db, w'.db, id)
  {
    var s: Step :| Enabled(w, s) && w' == Apply(w, s);
    StepFollowsEdge(w, s, id);
  }

  // Over a run nothing returns to ready, and a filled, rejected or held decision never changes again.
  lemma {:induction false} StatusesAdvance(run: seq<World>, i: nat, j: nat, id: Id)
    requires IsRun(run) && i <= j < |run| && id in run[i].db.rows
    ensures Advanced(run[i].db, run[j].db, id)
    decreases j - i
  {
    hide IsRun, StepTo;
    if i < j {
      StatusesAdvance(run, i, j - 1, id);
      RunStep(run, j - 1);
      StepAdvances(run[j - 1], run[j], id);
    }
  }

  // ---------- The one-active index ----------

  // Of all the transactions only the intent can collide with the index, and it does so exactly when some
  // other decision is unresolved.
  lemma OnlyIntentCollides(db: Db, id: Id, key: string, at: int, v: Evaluation, row: Row, found: OrderLookup,
                           response: Response<ReceiptBody>, raw: string, wire: Wire)
    requires OneActive(db.rows)
    ensures id !in db.rows ==> OneActive(InsertPreview(db, id, key, at, v).rows)
    ensures id in db.rows ==>
      && OneActive(HoldRun(db, id, at, v).rows)
      && OneActive(RecordSubmit(db, id, at, response, raw).rows)
      && OneActive(ApplyLookup(db, id, at, ResolvedStatus(row, found), found, wire).rows)
      && OneActive(MarkUnknown(db, id, at, wire).rows)
    ensures IntentMatches(db, id, at) ==> (OneActive(CommitIntent(db, id, at, v).rows) <==> !OtherActive(db.rows, id))
  {
    if IntentMatches(db, id, at) {
      IntentCollision(db, id, at, v);
    }
  }

  lemma IntentCollision(db: Db, id: Id, at: int, v: Evaluation)
    requires OneActive(db.rows) && IntentMatches(db, id, at)
    ensures OneActive(CommitIntent(db, id, at, v).rows) <==> !OtherActive(db.rows, id)
  {
    var rows := CommitIntent(db, id, at, v).rows;
    if OtherActive(db.rows, id) {
      var other :| other in db.rows && other != id && Active(db.rows[other].status);
      assert Active(rows[other].status) && Active(rows[id].status);
    }
  }

  function Unresolved(rows: map<Id, Row>): set<Id> {
    set id | id in rows && Active(rows[id].status)
  }

  // The reconcile loop's query for unresolved decisions never returns more than one ID, so its limit of
  // ten never hides one; and a key never owns two decisions.
  lemma AtMostOnePending(run: seq<World>, n: nat)
    requires IsRun(run) && n < |run|
    ensures |Unresolved(run[n].db.rows)| <= 1
    ensures var rows := run[n].db.rows; forall a, b :: a in rows && b in rows && rows[a].key == rows[b].key ==> a == b
  {
    RunKeepsInv(run, n);
    var pending := Unresolved(run[n].db.rows);
    if pending != {} {
      var a :| a in pending;
      assert pending == {a};
    }
  }

  // ---------- A call that vanishes before its POST ----------

  // An unresolved decision that was not sent, and that no call is about to send.
  ghost predicate Stranded(w: World, id: Id) {
    HasActive(w.db, id) && !Posted(w.posts, id) && NoSubmitter(w.calls, id)
  }

  // An intent whose commit is not reported, or whose call is dropped before the POST, strands its decision.
  lemma LostIntentStrands(run: seq<World>, n: nat, s: Step)
    requires IsRun(run) && n < |run| && Enabled(run[n], s)
    requires (s.Intend? && !s.reported) || (s.Drop? && run[n].calls[s.c].Cleared?)
    ensures Stranded(Apply(run[n], s), run[n].calls[s.c].id)
  {
    RunKeepsInv(run, n);
    var w := run[n];
    assert CallOk(w, w.calls[s.c]);
    if s.Intend? {
      IntendedIsFresh(w, s.c, s.start, s.reported);
    } else {
      assert Submits(w.calls[s.c], w.calls[s.c].id);
    }
  }

  // Another decision can neither be intended nor sent, and this one has nobody left to send it.
  lemma NothingIsSent(w: World, s: Step, id: Id)
    requires StoreOk(w.db) && CallsOk(w) && Enabled(w, s) && Stranded(w, id)
    ensures !s.Intend? && !s.Send?
  {
  }

  // Only an unanswered lookup may still write to it, and leaves it unresolved.
  lemma StrandedStaysActive(w: World, s: Step, id: Id)
    requires StoreOk(w.db) && CallsOk(w) && Enabled(w, s) && Stranded(w, id)
    ensures HasActive(Apply(w, s).db, id)
  {
    hide StoreOk, NoSubmitter;
    if s.Record? || s.Resolve? || s.Intend? {
      assert CallOk(w, w.calls[s.c]);
    }
  }

  lemma StepKeepsStranded(w: World, s: Step, id: Id)
    requires Inv(w) && Enabled(w, s) && Stranded(w, id)
    ensures Stranded(Apply(w, s), id) && Apply(w, s).posts == w.posts
  {
    hide StoreOk, RowsOk, CallsOk, PostsOk, SubmittersOk, IntentsOk, OutcomesOk, HandOff, HasActive, Submits;
    NothingIsSent(w, s, id);
    StrandedStaysActive(w, s, id);
    var w' := Apply(w, s);
    forall c | c in w'.calls ensures !Submits(w'.calls[c], id) {
      if Submits(w'.calls[c], id) { SubmittersStay(w, s, c, id); }
    }
  }

  lemma NextKeepsStranded(w: World, w': World, id: Id)
    requires Inv(w) && StepTo(w, w') && Stranded(w, id)
    ensures Stranded(w', id) && w'.posts == w.posts
  {
    hide Inv, Stranded;
    var s: Step :| Enabled(w, s) && w' == Apply(w, s);
    StepKeepsStranded(w, s, id);
  }

  // A stranded decision stays so, and no order is sent any more: the strategy has stopped for good.
  lemma {:induction false} StrandedForGood(run: seq<World>, i: nat, j: nat, id: Id)
    requires IsRun(run) && i <= j < |run| && Stranded(run[i], id)
    ensures Stranded(run[j], id) && run[j].posts == run[i].posts
    decreases j - i
  {
    hide IsRun, StepTo, Inv, Stranded;
    if i < j {
      StrandedForGood(run, i, j - 1, id);
      RunKeepsInv(run, j - 1);
      RunStep(run, j - 1);
      NextKeepsStranded(run[j - 1], run[j], id);
    }
  }

  // ---------- The timed hand-off ----------

  // If the submitter records its outcome less than 30 seconds after its intent began, no reconcile has
  // touched the row: the guarded update hits it, and an accepted order ID becomes durable.
  lemma OutcomeIsRecordedInTime(run: seq<World>, n: nat, c: nat, at: int)
    requires IsRun(run) && n < |run| && Enabled(run[n], Record(c, at))
    requires run[n].now < run[n].calls[c].start + 30_000_000_000
    ensures var (w, call, w') := (run[n], run[n].calls[c], Apply(run[n], Record(c, at)));
            && HasStatus(w.db, call.id, Submitting)
            && w'.db.rows[call.id] == w.db.rows[call.id].(status := SubmitStatus(call.id, call.response),
                                                          orderId := ReadReceipt(call.id, call.response),
                                                          updatedAt := at)
            && (ReadReceipt(call.id, call.response).Some? ==> w'.db.rows[call.id].status == Accepted)
  {
    RunKeepsInv(run, n);
    assert Waiting(run[n], run[n].calls[c].id, run[n].calls[c].start);
  }
}
