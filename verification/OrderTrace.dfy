/**
 What the stored statuses and events say of the broker's replies in every reachable state: which HTTP status
 stands behind a recorded submission, which broker status behind a resolved one, and how long a reviewed
 plan may wait for its intent.
 */
module OrderTrace {
  import opened Base
  import opened Trading
  import opened Gate
  import opened OrderStore
  import opened OrderProtocol
  import opened OrderInvariant

  // ---------- Events ----------

  // Only a 4xx other than 429 is logged as a rejection, and only a 2xx as an acceptance.
  ghost predicate EventTraced(e: Event) {
    && (e.kind == SubmissionAccepted ==> 200 <= e.http < 300)
    && (e.kind == SubmissionRejected ==> 400 <= e.http < 500 && e.http != 429)
    && (e.kind == SubmissionUnknown ==> !(400 <= e.http < 500 && e.http != 429))
  }

  ghost predicate LogTraced(log: seq<Event>) {
    forall e :: e in log ==> EventTraced(e)
  }

  // ---------- Rows ----------

  ghost predicate Logged(log: seq<Event>, id: Id, kind: EventKind) {
    exists http: int :: Event(id, kind, http) in log
  }

  // A status without a broker status was recorded from the reply to the submission.
  ghost predicate SubmissionTraced(log: seq<Event>, id: Id, row: Row) {
    row.brokerStatus == None ==>
      && (row.status == Accepted ==> Logged(log, id, SubmissionAccepted))
      && (row.status == Rejected ==> Logged(log, id, SubmissionRejected))
      && row.status != Filled && row.status != PartiallyFilled
  }

  // A status with a broker status is the one this broker status and the positions stand for, or unknown.
  ghost predicate LookupTraced(row: Row) {
    row.brokerStatus.Some? ==>
      && row.status in {Accepted, PartiallyFilled, Unknown, Filled, Rejected}
      && (row.status == Filled ==> row.brokerStatus == Some(3) && row.positions != [])
      && (row.status == Rejected ==> row.brokerStatus == Some(4) && row.positions == [])
      && (row.status == PartiallyFilled ==> row.brokerStatus == Some(5) || row.brokerStatus == Some(10))
      && (row.status == Accepted ==> row.brokerStatus.value in {1, 2, 11, 12})
  }

  // A ready row has a plan that expires 60 seconds after the row was stored.
  ghost predicate ReadyTraced(row: Row) {
    row.status == Ready ==>
      row.brokerStatus == None && row.plan.Some? && row.expiresAt == Some(row.updatedAt + 60_000_000_000)
  }

  ghost predicate RowTraced(log: seq<Event>, id: Id, row: Row) {
    SubmissionTraced(log, id, row) && LookupTraced(row) && ReadyTraced(row)
  }

  ghost predicate RowsTraced(db: Db) {
    forall id :: id in db.rows ==> RowTraced(db.events, id, db.rows[id])
  }

  ghost predicate Traced(db: Db) {
    LogTraced(db.events) && RowsTraced(db)
  }

  // ---------- Every transaction keeps the trace ----------

  lemma RowStays(log: seq<Event>, more: seq<Event>, id: Id, row: Row)
    requires RowTraced(log, id, row) && forall e :: e in log ==> e in more
    ensures RowTraced(more, id, row)
  {
  }

  // One event is appended and at most one row is replaced.
  lemma UpdateKeepsTrace(db: Db, db': Db, id: Id, e: Event)
    requires Traced(db) && EventTraced(e) && db'.events == db.events + [e]
    requires forall other :: other in db'.rows && other != id ==> other in db.rows && db'.rows[other] == db.rows[other]
    requires id in db'.rows
    requires (id in db.rows && db'.rows[id] == db.rows[id]) || RowTraced(db'.events, id, db'.rows[id])
    ensures Traced(db')
  {
    hide RowTraced, EventTraced;
    forall other | other in db'.rows ensures RowTraced(db'.events, other, db'.rows[other]) {
      if other in db.rows && db'.rows[other] == db.rows[other] {
        RowStays(db.events, db'.events, other, db.rows[other]);
      }
    }
  }

  lemma InsertKeepsTrace(db: Db, id: Id, key: string, at: int, v: Evaluation)
    requires Traced(db) && id !in db.rows
    ensures Traced(InsertPreview(db, id, key, at, v))
  {
    if !KeyTaken(db.rows, key) {
      UpdateKeepsTrace(db, InsertPreview(db, id, key, at, v), id, Event(id, Decision, 0));
    }
  }

  lemma HoldKeepsTrace(db: Db, id: Id, at: int, v: Evaluation)
    requires Traced(db) && id in db.rows
    ensures Traced(HoldRun(db, id, at, v))
  {
    UpdateKeepsTrace(db, HoldRun(db, id, at, v), id, Event(id, HoldDecision, 0));
  }

  lemma IntentKeepsTrace(db: Db, id: Id, start: int, v: Evaluation)
    requires Traced(db) && IntentMatches(db, id, start)
    ensures Traced(CommitIntent(db, id, start, v))
  {
    UpdateKeepsTrace(db, CommitIntent(db, id, start, v), id, Event(id, SubmitIntent, 0));
  }

  lemma SubmissionIsTraced(id: Id, response: Response<ReceiptBody>, e: Event)
    requires SubmissionLogged(id, response, e)
    ensures EventTraced(e)
  {
  }

  lemma RecordKeepsTrace(db: Db, id: Id, at: int, response: Response<ReceiptBody>, raw: string)
    requires Traced(db) && id in db.rows
    ensures Traced(RecordSubmit(db, id, at, response, raw))
  {
    SubmitStatusIsTheOutcome(id, response);
    var s, db' := SubmitStatus(id, response), RecordSubmit(db, id, at, response, raw);
    var e := Event(id, SubmitEvent(s), HttpStatus(response));
    SubmissionIsTraced(id, response, e);
    assert db'.events[|db.events|] == e;
    UpdateKeepsTrace(db, db', id, e);
  }

  lemma LookupKeepsTrace(db: Db, id: Id, at: int, read: Row, l: OrderLookup, wire: Wire)
    requires Traced(db) && id in db.rows
    ensures Traced(ApplyLookup(db, id, at, ResolvedStatus(read, l), l, wire))
  {
    ResolvedStatusFollows(read, l);
    UpdateKeepsTrace(db, ApplyLookup(db, id, at, ResolvedStatus(read, l), l, wire), id,
                     Event(id, BrokerLookup, wire.http));
  }

  lemma MarkKeepsTrace(db: Db, id: Id, at: int, wire: Wire)
    requires Traced(db) && id in db.rows
    ensures Traced(MarkUnknown(db, id, at, wire))
  {
    UpdateKeepsTrace(db, MarkUnknown(db, id, at, wire), id, Event(id, BrokerLookupUnknown, wire.http));
  }

  lemma StepKeepsTrace(w: World, s: Step)
    requires Traced(w.db) && Enabled(w, s)
    ensures Traced(Apply(w, s).db)
  {
    hide Traced, RecordSubmit, ApplyLookup, MarkUnknown, CommitIntent, HoldRun, InsertPreview, Confirms;
    match s
    case Insert(c, id, at) => InsertKeepsTrace(w.db, id, w.calls[c].key, at, w.calls[c].v);
    case Withhold(c, at) => HoldKeepsTrace(w.db, w.calls[c].id, at, w.calls[c].v);
    case Intend(c, start, _) => IntentKeepsTrace(w.db, w.calls[c].id, start, w.calls[c].v);
    case Record(c, at) => RecordKeepsTrace(w.db, w.calls[c].id, at, w.calls[c].response, w.calls[c].raw);
    case Resolve(c, at) =>
      LookupKeepsTrace(w.db, w.calls[c].id, at, w.calls[c].row, w.calls[c].found, w.calls[c].wire);
    case Mark(c, at) => MarkKeepsTrace(w.db, w.calls[c].id, at, w.calls[c].wire);
    case _ =>
  }

  lemma NextKeepsTrace(w: World, w': World)
    requires Traced(w.db) && StepTo(w, w')
    ensures Traced(w'.db)
  {
    hide Traced;
    var s: Step :| Enabled(w, s) && w' == Apply(w, s);
    StepKeepsTrace(w, s);
  }

  lemma {:induction false} RunKeepsTrace(run: seq<World>, n: nat)
    requires IsRun(run) && n < |run|
    ensures Traced(run[n].db)
  {
    if n > 0 {
      hide IsRun, StepTo, Traced;
      RunKeepsTrace(run, n - 1);
      RunStep(run, n - 1);
      NextKeepsTrace(run[n - 1], run[n]);
    }
  }

  // ---------- Over every run ----------

  // A decision that is rejected without a broker status was refused with an HTTP status in 400..499 other
  // than 429, and one that is accepted without a broker status was answered with a 2xx; both are logged.
  lemma SubmissionsAreTraced(run: seq<World>, n: nat, id: Id)
    requires IsRun(run) && n < |run| && id in run[n].db.rows && run[n].db.rows[id].brokerStatus == None
    ensures var (row, log) := (run[n].db.rows[id], run[n].db.events);
            && (row.status == Rejected ==>
              exists http :: 400 <= http < 500 && http != 429 && Event(id, SubmissionRejected, http) in log)
            && (row.status == Accepted ==>
              exists http :: 200 <= http < 300 && Event(id, SubmissionAccepted, http) in log)
            && row.status != Filled && row.status != PartiallyFilled
  {
    RunKeepsTrace(run, n);
    var (row, log) := (run[n].db.rows[id], run[n].db.events);
    assert RowTraced(log, id, row);
    if row.status == Rejected {
      var http: int :| Event(id, SubmissionRejected, http) in log;
      assert EventTraced(Event(id, SubmissionRejected, http));
    }
    if row.status == Accepted {
      var http: int :| Event(id, SubmissionAccepted, http) in log;
      assert EventTraced(Event(id, SubmissionAccepted, http));
    }
  }

  // No reply in 400..499 other than 429 is ever logged as an unknown outcome, and no other as a rejection.
  lemma EventsAreTraced(run: seq<World>, n: nat, e: Event)
    requires IsRun(run) && n < |run| && e in run[n].db.events
    ensures e.kind == SubmissionAccepted ==> 200 <= e.http < 300
    ensures e.kind == SubmissionRejected ==> 400 <= e.http < 500 && e.http != 429
    ensures e.kind == SubmissionUnknown ==> !(400 <= e.http < 500 && e.http != 429)
  {
    RunKeepsTrace(run, n);
  }

  // The recorded outcome of any submission, whatever runs beside it.
  lemma RepliesDecideTheStatus(run: seq<World>, n: nat, c: nat, at: int)
    requires IsRun(run) && n < |run| && Enabled(run[n], Record(c, at))
    requires HasStatus(run[n].db, run[n].calls[c].id, Submitting)
    ensures var (call, row') := (run[n].calls[c], Apply(run[n], Record(c, at)).db.rows[run[n].calls[c].id]);
            var r := call.response;
            && (row'.status == Accepted <==>
              && r.Response? && 200 <= r.status < 300
              && exists o :: o > 0 && r.body == Some(ReceiptBody(o, call.id)) && row'.orderId == Some(o))
            && (row'.status == Rejected <==> r.Response? && 400 <= r.status < 500 && r.status != 429)
            && row'.status in {Accepted, Rejected, Unknown} && row'.brokerStatus == None && row'.positions == []
  {
    RunKeepsInv(run, n);
    var (w, call) := (run[n], run[n].calls[c]);
    assert RowOk(w.posts, call.id, w.db.rows[call.id]);
    SubmitStatusIsTheOutcome(call.id, call.response);
  }

  // The status any lookup writes, whatever runs beside it: the broker status and positions decide it, unless
  // the answer is about another order than the row that was read.
  lemma LookupsDecideTheStatus(run: seq<World>, n: nat, c: nat, at: int)
    requires IsRun(run) && n < |run| && Enabled(run[n], Resolve(c, at))
    requires HasActive(run[n].db, run[n].calls[c].id)
    ensures var (call, row') := (run[n].calls[c], Apply(run[n], Resolve(c, at)).db.rows[run[n].calls[c].id]);
            var (l, same) := (call.found, call.row.orderId == None || call.row.orderId == Some(call.found.orderId));
            && (row'.status == Filled <==> same && l.statusId == 3 && l.positionIds != [])
            && (row'.status == Rejected <==> same && l.statusId == 4 && l.positionIds == [])
            && (row'.status == PartiallyFilled <==> same && l.statusId in {5, 10})
            && (row'.status == Accepted <==> same && l.statusId in {1, 2, 11, 12})
            && row'.status in {Filled, Rejected, PartiallyFilled, Accepted, Unknown}
            && row'.orderId == Some(l.orderId) && row'.brokerStatus == Some(l.statusId)
            && row'.positions == l.positionIds
  {
    ResolvedStatusFollows(run[n].calls[c].row, run[n].calls[c].found);
  }

  // In every reachable state a row with a broker status has the status that it and the positions stand for,
  // or is unknown.
  lemma BrokerStatusesAreTraced(run: seq<World>, n: nat, id: Id)
    requires IsRun(run) && n < |run| && id in run[n].db.rows && run[n].db.rows[id].brokerStatus.Some?
    ensures var row := run[n].db.rows[id];
            row.status == Unknown
            || match row.brokerStatus.value
               case 3 => row.status == Filled && row.positions != []
               case 4 => row.status == Rejected && row.positions == []
               case 5 => row.status == PartiallyFilled
               case 10 => row.status == PartiallyFilled
               case b => b in {1, 2, 11, 12} && row.status == Accepted
  {
    RunKeepsTrace(run, n);
    assert RowTraced(run[n].db.events, id, run[n].db.rows[id]);
  }

  // An intent commits less than 60 seconds after its decision was stored, and is 30 seconds old before any
  // reconcile asks about it.
  lemma IntentsAreFresh(run: seq<World>, n: nat, s: Step)
    requires IsRun(run) && n < |run| && Enabled(run[n], s)
    ensures s.Intend? ==> s.start < run[n].db.rows[run[n].calls[s.c].id].updatedAt + 60_000_000_000
    ensures s.CheckAge? && run[n].calls[s.c].row.status == Submitting ==>
      run[n].calls[s.c].row.updatedAt + 30_000_000_000 <= run[n].now
  {
    RunKeepsTrace(run, n);
    if s.Intend? {
      var id := run[n].calls[s.c].id;
      assert RowTraced(run[n].db.events, id, run[n].db.rows[id]);
    }
  }
}
