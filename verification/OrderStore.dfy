/**
 The durable side of the Demo order protocol: the table of decisions, its event and evidence logs, and
 every transaction that changes them.  Each transaction is a function on the stored value, and a method
 of the store that carries it out statement by statement.
 */
module OrderStore {
  import opened Base
  import opened Trading
  import opened Gate

  // A decision ID; it is also the request ID sent to the broker.
  type Id = nat

  datatype Status = Hold | Ready | Submitting | Accepted | PartiallyFilled | Unknown | Filled | Rejected

  // The statuses covered by the one-active unique index.
  predicate Active(s: Status) {
    s == Submitting || s == Accepted || s == Unknown || s == PartiallyFilled
  }

  // The statuses a decision can only reach through a durable intent.
  predicate Started(s: Status) {
    Active(s) || s == Filled || s == Rejected
  }

  predicate Terminal(s: Status) {
    s == Hold || s == Filled || s == Rejected
  }

  datatype Row = Row(key: string, version: string, status: Status, updatedAt: int, expiresAt: Option<int>,
                     plan: Option<Plan>, orderId: Option<int>, brokerStatus: Option<int>, positions: seq<int>)

  datatype EventKind =
    | Decision | HoldDecision | SubmitIntent
    | SubmissionAccepted | SubmissionRejected | SubmissionUnknown
    | BrokerLookup | BrokerLookupUnknown

  // A reply with its HTTP status, which is 0 when there was no reply.
  datatype Wire = Wire(http: int, raw: string)

  datatype Event = Event(run: Id, kind: EventKind, http: int)

  datatype Phase = PreviewPhase | RecheckPhase | SubmitPhase | LookupPhase

  datatype Evidence = Evidence(run: Id, phase: Phase, artifact: Artifact)

  datatype Db = Db(rows: map<Id, Row>, events: seq<Event>, evidence: seq<Evidence>)

  const PROBE_VERSION := "btc-market-entry-probe-v2"
  const PREVIEW_LIFE: int := 60 * SECOND
  const SUBMIT_WINDOW: int := 30 * SECOND

  // ---------- Pieces of a transaction ----------

  predicate KeyTaken(rows: map<Id, Row>, key: string) {
    exists id :: id in rows && rows[id].key == key
  }

  predicate OtherActive(rows: map<Id, Row>, id: Id) {
    exists other :: other in rows && other != id && Active(rows[other].status)
  }

  // The evidence rows written for a batch of artifacts; empty responses are not stored.
  function Filed(run: Id, phase: Phase, items: seq<Artifact>): seq<Evidence> {
    if items == [] then []
    else Filed(run, phase, items[..|items| - 1])
         + if items[|items| - 1].raw == "" then [] else [Evidence(run, phase, items[|items| - 1])]
  }

  function Note(db: Db, run: Id, phase: Phase, items: seq<Artifact>, kind: EventKind, http: int): Db {
    db.(evidence := db.evidence + Filed(run, phase, items), events := db.events + [Event(run, kind, http)])
  }

  // ---------- Transactions ----------

  function PreviewRow(key: string, at: int, v: Evaluation): Row {
    Row(key, PROBE_VERSION, if v.plan.Some? then Ready else Hold, at,
        if v.plan.Some? then Some(at + PREVIEW_LIFE) else None, v.plan, None, None, [])
  }

  function InsertPreview(db: Db, id: Id, key: string, at: int, v: Evaluation): Db {
    if KeyTaken(db.rows, key) then db
    else Note(db.(rows := db.rows[id := PreviewRow(key, at, v)]), id, PreviewPhase, v.artifacts, Decision, 0)
  }

  // The guarded update of a row: nothing changes when the guard does not match.
  function Guarded(db: Db, id: Id, guard: bool, row: Row): Db {
    if guard then db.(rows := db.rows[id := row]) else db
  }

  predicate HasStatus(db: Db, id: Id, s: Status) {
    id in db.rows && db.rows[id].status == s
  }

  predicate HasActive(db: Db, id: Id) {
    id in db.rows && Active(db.rows[id].status)
  }

  function HoldRun(db: Db, id: Id, at: int, v: Evaluation): Db
    requires id in db.rows
  {
    Note(Guarded(db, id, HasStatus(db, id, Ready), db.rows[id].(status := Hold, updatedAt := at)),
         id, RecheckPhase, v.artifacts, HoldDecision, 0)
  }

  predicate IntentMatches(db: Db, id: Id, start: int) {
    HasStatus(db, id, Ready) && db.rows[id].expiresAt.Some? && db.rows[id].expiresAt.value > start
  }

  function CommitIntent(db: Db, id: Id, start: int, v: Evaluation): Db
    requires id in db.rows
  {
    Note(db.(rows := db.rows[id := db.rows[id].(status := Submitting, updatedAt := start)]),
         id, RecheckPhase, v.artifacts, SubmitIntent, 0)
  }

  // The status an immediate submission outcome is recorded as.
  function SubmitStatus(id: Id, response: Response<ReceiptBody>): Status {
    if ReadReceipt(id, response).Some? then Accepted
    else if response.Response? && 400 <= response.status < 500 && response.status != 429 then Rejected
    else Unknown
  }

  function SubmitEvent(s: Status): EventKind {
    match s
    case Accepted => SubmissionAccepted
    case Rejected => SubmissionRejected
    case _ => SubmissionUnknown
  }

  function HttpStatus(response: Response<ReceiptBody>): int {
    if response.Response? then response.status else 0
  }

  function RecordSubmit(db: Db, id: Id, at: int, response: Response<ReceiptBody>, raw: string): Db
    requires id in db.rows
  {
    var s := SubmitStatus(id, response);
    Note(Guarded(db, id, HasStatus(db, id, Submitting),
                 db.rows[id].(status := s, orderId := ReadReceipt(id, response), updatedAt := at)),
         id, SubmitPhase, [Artifact(OrderPath, raw)], SubmitEvent(s), HttpStatus(response))
  }

  // The status a broker lookup is read as.
  function LookupStatus(l: OrderLookup): Status {
    match l.statusId
    case 3 => if l.positionIds == [] then Unknown else Filled
    case 5 => PartiallyFilled
    case 10 => PartiallyFilled
    case 4 => if l.positionIds != [] then Unknown else Rejected
    case 1 => Accepted
    case 2 => Accepted
    case 11 => Accepted
    case 12 => Accepted
    case _ => Unknown
  }

  // The status written for a lookup, given the row read before it: a different order ID freezes the run.
  function ResolvedStatus(row: Row, l: OrderLookup): Status {
    if row.orderId.Some? && row.orderId.value != l.orderId then Unknown else LookupStatus(l)
  }

  function ApplyLookup(db: Db, id: Id, at: int, s: Status, l: OrderLookup, wire: Wire): Db
    requires id in db.rows
  {
    Note(Guarded(db, id, HasActive(db, id),
                 db.rows[id].(status := s, orderId := Some(l.orderId), brokerStatus := Some(l.statusId),
                              positions := l.positionIds, updatedAt := at)),
         id, LookupPhase, [Artifact(OrderLookupPath, wire.raw)], BrokerLookup, wire.http)
  }

  function MarkUnknown(db: Db, id: Id, at: int, wire: Wire): Db
    requires id in db.rows
  {
    Note(Guarded(db, id, HasStatus(db, id, Submitting), db.rows[id].(status := Unknown, updatedAt := at)),
         id, LookupPhase, [Artifact(OrderLookupPath, wire.raw)], BrokerLookupUnknown, wire.http)
  }

  // ---------- What replies mean, whatever reads them ----------

  // The broker accepted the submission of a decision and gave it an order ID.
  predicate Receipted(id: Id, response: Response<ReceiptBody>, orderId: int) {
    && response.Response? && 200 <= response.status <= 299
    && response.body == Some(ReceiptBody(orderId, id)) && orderId > 0
  }

  // The broker refused it before acceptance.
  predicate RefusedAtOnce(response: Response<ReceiptBody>) {
    response.Response? && 400 <= response.status <= 499 && response.status != 429
  }

  // The status and order ID a submission is recorded with: accepted exactly with a receipt, rejected exactly
  // when it was refused at once, and unknown otherwise.
  ghost predicate RecordedAs(id: Id, response: Response<ReceiptBody>, s: Status, orderId: Option<int>) {
    && (s == Accepted <==> exists o :: Receipted(id, response, o))
    && (s == Rejected <==> RefusedAtOnce(response))
    && (s == Accepted || s == Rejected || s == Unknown)
    && (if s == Accepted then orderId.Some? && Receipted(id, response, orderId.value) else orderId == None)
  }

  // The event of a recorded submission carries the HTTP status, and its kind follows the reply as well.
  ghost predicate SubmissionLogged(id: Id, response: Response<ReceiptBody>, e: Event) {
    && e.http == (if response.NoResponse? then 0 else response.status)
    && (e.kind == SubmissionAccepted <==> exists o :: Receipted(id, response, o))
    && (e.kind == SubmissionRejected <==> RefusedAtOnce(response))
    && (e.kind == SubmissionAccepted || e.kind == SubmissionRejected || e.kind == SubmissionUnknown)
  }

  // The status of a row follows the broker's answer to a lookup, given the row as it was read before: filled
  // exactly for status 3 with positions, rejected exactly for 4 without any, partly filled for 5 and 10, in
  // flight for 1, 2, 11 and 12, and unknown otherwise, or when the answer is about another order.
  ghost predicate Follows(s: Status, read: Row, l: OrderLookup) {
    var same := read.orderId == None || read.orderId == Some(l.orderId);
    && (s == Filled <==> same && l.statusId == 3 && l.positionIds != [])
    && (s == Rejected <==> same && l.statusId == 4 && l.positionIds == [])
    && (s == PartiallyFilled <==> same && l.statusId in {5, 10})
    && (s == Accepted <==> same && l.statusId in {1, 2, 11, 12})
    && (s == Filled || s == Rejected || s == PartiallyFilled || s == Accepted || s == Unknown)
  }

  lemma SubmitStatusIsTheOutcome(id: Id, response: Response<ReceiptBody>)
    ensures RecordedAs(id, response, SubmitStatus(id, response), ReadReceipt(id, response))
    ensures SubmissionLogged(id, response, Event(id, SubmitEvent(SubmitStatus(id, response)), HttpStatus(response)))
  {
    if ReadReceipt(id, response).Some? {
      assert Receipted(id, response, ReadReceipt(id, response).value);
    }
  }

  lemma ResolvedStatusFollows(read: Row, l: OrderLookup)
    ensures Follows(ResolvedStatus(read, l), read, l)
  {
  }

  // ---------- The evidence ----------

  // Each nonempty artifact is filed as often as it occurs, for its decision and phase, and nothing else.
  lemma {:induction false} FiledKeepsExactly(run: Id, phase: Phase, items: seq<Artifact>)
    ensures forall a: Artifact :: multiset(Filed(run, phase, items))[Evidence(run, phase, a)] ==
                                  if a.raw == "" then 0 else multiset(items)[a]
    ensures forall e :: e in Filed(run, phase, items) ==> e.run == run && e.phase == phase
  {
    if items != [] {
      FiledKeepsExactly(run, phase, items[..|items| - 1]);
      assert items == items[..|items| - 1] + [items[|items| - 1]];
    }
  }

  // In order: filing a batch is filing its parts.
  lemma {:induction false} FiledKeepsOrder(run: Id, phase: Phase, a: seq<Artifact>, b: seq<Artifact>)
    ensures Filed(run, phase, a + b) == Filed(run, phase, a) + Filed(run, phase, b)
  {
    if b == [] {
      assert a + b == a;
    } else {
      var init, last := b[..|b| - 1], b[|b| - 1];
      FiledKeepsOrder(run, phase, a, init);
      assert (a + b)[..|a + b| - 1] == a + init && (a + b)[|a + b| - 1] == last;
      assert Filed(run, phase, a + b) ==
             Filed(run, phase, a + init) + if last.raw == "" then [] else [Evidence(run, phase, last)];
    }
  }

  // ---------- The store ----------

  datatype IntentOutcome = Committed | NotReady | ActiveIntent

  class DemoStore {
    var rows: map<Id, Row>
    var events: seq<Event>
    var evidence: seq<Evidence>

    function Contents(): Db
      reads this
    {
      Db(rows, events, evidence)
    }

    constructor ()
      ensures Contents() == Db(map[], [], [])
    {
      rows, events, evidence := map[], [], [];
    }

    method SaveArtifacts(run: Id, phase: Phase, items: seq<Artifact>)
      modifies this`evidence
      ensures evidence == old(evidence) + Filed(run, phase, items)
    {
      for i := 0 to |items|
        invariant evidence == old(evidence) + Filed(run, phase, items[..i])
      {
        assert items[..i + 1][..i] == items[..i];
        if items[i].raw != "" {
          evidence := evidence + [Evidence(run, phase, items[i])];
        }
      }
      assert items[..|items|] == items;
    }

    method Preview(id: Id, key: string, at: int, v: Evaluation) returns (inserted: bool)
      modifies this
      ensures inserted <==> forall other :: other in old(rows) ==> old(rows)[other].key != key
      ensures inserted ==> events == old(events) + [Event(id, Decision, 0)]
      ensures inserted ==>
        && id in rows && rows == old(rows)[id := rows[id]]
        && rows[id].key == key && rows[id].plan == v.plan && rows[id].updatedAt == at
        && rows[id].status == (if v.plan.Some? then Ready else Hold)
        && rows[id].expiresAt == if v.plan.Some? then Some(at + 60_000_000_000) else None
      ensures Contents() == InsertPreview(old(Contents()), id, key, at, v)
    {
      inserted := !KeyTaken(rows, key);
      if inserted {
        rows := rows[id := PreviewRow(key, at, v)];
        SaveArtifacts(id, PreviewPhase, v.artifacts);
        events := events + [Event(id, Decision, 0)];
      }
    }

    method HoldDemo(id: Id, at: int, v: Evaluation)
      requires id in rows
      modifies this
      ensures events == old(events) + [Event(id, HoldDecision, 0)]
      ensures rows == if old(rows[id]).status == Ready
        then old(rows)[id := old(rows[id]).(status := Hold, updatedAt := at)] else old(rows)
      ensures Contents() == HoldRun(old(Contents()), id, at, v)
    {
      if rows[id].status == Ready {
        rows := rows[id := rows[id].(status := Hold, updatedAt := at)];
      }
      SaveArtifacts(id, RecheckPhase, v.artifacts);
      events := events + [Event(id, HoldDecision, 0)];
    }

    // The update is refused by its guard or by the one-active index; then nothing is written.
    method Intent(id: Id, start: int, v: Evaluation) returns (outcome: IntentOutcome)
      modifies this
      ensures outcome == if !IntentMatches(old(Contents()), id, start) then NotReady
                         else if OtherActive(old(rows), id) then ActiveIntent
                         else Committed
      ensures outcome == Committed <==>
        && id in old(rows) && old(rows)[id].status == Ready
        && old(rows)[id].expiresAt.Some? && start < old(rows)[id].expiresAt.value
        && forall other :: other in old(rows) && other != id ==>
             old(rows)[other].status !in {Submitting, Accepted, PartiallyFilled, Unknown}
      ensures outcome == Committed ==>
        && rows == old(rows)[id := old(rows)[id].(status := Submitting, updatedAt := start)]
        && events == old(events) + [Event(id, SubmitIntent, 0)]
      ensures Contents() == if outcome == Committed
        then CommitIntent(old(Contents()), id, start, v) else old(Contents())
    {
      if id !in rows || rows[id].status != Ready || rows[id].expiresAt.None? || rows[id].expiresAt.value <= start {
        return NotReady;
      }
      if OtherActive(rows, id) {
        return ActiveIntent;
      }
      rows := rows[id := rows[id].(status := Submitting, updatedAt := start)];
      SaveArtifacts(id, RecheckPhase, v.artifacts);
      events := events + [Event(id, SubmitIntent, 0)];
      return Committed;
    }

    method RecordDemoSubmit(id: Id, at: int, response: Response<ReceiptBody>, raw: string)
      requires id in rows
      modifies this
      ensures old(rows[id]).status != Submitting ==> rows == old(rows)
      ensures old(rows[id]).status == Submitting ==>
        && id in rows
        && var (s, orderId) := (rows[id].status, rows[id].orderId);
        && rows == old(rows)[id := old(rows[id]).(status := s, orderId := orderId, updatedAt := at)]
        && RecordedAs(id, response, s, orderId)
      ensures exists e: Event ::
        events == old(events) + [e] && e.run == id && SubmissionLogged(id, response, e)
      ensures Contents() == RecordSubmit(old(Contents()), id, at, response, raw)
    {
      SubmitStatusIsTheOutcome(id, response);
      var receipt := ReadReceipt(id, response);
      var state, event := Unknown, SubmissionUnknown;
      if receipt.Some? {
        state, event := Accepted, SubmissionAccepted;
      } else if response.Response? && response.status >= 400 && response.status < 500 && response.status != 429 {
        state, event := Rejected, SubmissionRejected;
      }
      if rows[id].status == Submitting {
        rows := rows[id := rows[id].(status := state, orderId := receipt, updatedAt := at)];
      }
      SaveArtifacts(id, SubmitPhase, [Artifact(OrderPath, raw)]);
      events := events + [Event(id, event, HttpStatus(response))];
    }

    method SaveLookup(id: Id, at: int, state: Status, l: OrderLookup, wire: Wire)
      requires id in rows
      modifies this
      ensures events == old(events) + [Event(id, BrokerLookup, wire.http)]
      ensures rows == if old(rows[id]).status in {Submitting, Accepted, PartiallyFilled, Unknown}
        then old(rows)[id := old(rows[id]).(status := state, orderId := Some(l.orderId),
                                            brokerStatus := Some(l.statusId), positions := l.positionIds,
                                            updatedAt := at)]
        else old(rows)
      ensures Contents() == ApplyLookup(old(Contents()), id, at, state, l, wire)
    {
      if Active(rows[id].status) {
        rows := rows[id := rows[id].(status := state, orderId := Some(l.orderId), brokerStatus := Some(l.statusId),
                                     positions := l.positionIds, updatedAt := at)];
      }
      SaveArtifacts(id, LookupPhase, [Artifact(OrderLookupPath, wire.raw)]);
      events := events + [Event(id, BrokerLookup, wire.http)];
    }

    method MarkDemoUnknown(id: Id, at: int, wire: Wire)
      requires id in rows
      modifies this
      ensures events == old(events) + [Event(id, BrokerLookupUnknown, wire.http)]
      ensures rows == if old(rows[id]).status == Submitting
        then old(rows)[id := old(rows[id]).(status := Unknown, updatedAt := at)] else old(rows)
      ensures Contents() == MarkUnknown(old(Contents()), id, at, wire)
    {
      if rows[id].status == Submitting {
        rows := rows[id := rows[id].(status := Unknown, updatedAt := at)];
      }
      SaveArtifacts(id, LookupPhase, [Artifact(OrderLookupPath, wire.raw)]);
      events := events + [Event(id, BrokerLookupUnknown, wire.http)];
    }
  }
}
