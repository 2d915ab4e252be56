/**
 The Demo order protocol as a state machine.  Any number of preview, execute and reconcile calls run at
 once; each is a continuation that takes one atomic step at a time, and any of them may be dropped at
 any point by a crash, a failed transaction or an error return.  The broker receives a submitted order
 at any later time, or never; replies may be lost or of any kind.
 */
module OrderProtocol {
  import opened Base
  import opened Trading
  import opened Gate
  import opened OrderStore

  // A submission sent to the broker, with the plan that was reviewed and the evaluation that rechecked it.
  datatype Post = Post(id: Id, plan: Plan, recheck: Evaluation)

  // The state of one running call.
  datatype Call =
    | Previewing(key: string)                                  // no decision owns the key yet
    | Previewed(key: string, v: Evaluation)                    // evaluated; the insert is next
    | Executing(id: Id, plan: Plan)                            // a ready decision was read
    | Holding(id: Id, v: Evaluation)                           // the recheck failed; the hold is next
    | Intending(id: Id, plan: Plan, v: Evaluation)             // the recheck passed; the intent is next
    | Cleared(id: Id, plan: Plan, v: Evaluation, start: int)   // the intent is committed; the POST is next
    | Sent(id: Id, start: int)                                 // the POST is on the wire
    | Replied(id: Id, start: int, response: Response<ReceiptBody>, raw: string) // the record is next
    | Reading(id: Id, row: Row)                                // an active decision was read
    | Asking(id: Id, row: Row)                                 // old enough; the lookup is next
    | Answered(id: Id, row: Row, found: OrderLookup, wire: Wire) // the lookup update is next
    | Unanswered(id: Id, wire: Wire)                           // the lookup failed; the mark is next

  datatype World = World(now: int, db: Db, calls: map<nat, Call>, posts: seq<Post>, received: set<Id>)

  // What a lookup returns: an order found by reference or by order ID, or nothing.
  datatype Answer = Found(order: OrderLookup, byOrderId: bool) | NotFound

  datatype Step =
    | Tick(to: int)
    | BeginPreview(c: nat, key: string)
    | Evaluate(c: nat, o: Observation, v: Evaluation)
    | Insert(c: nat, id: Id, at: int)
    | BeginExecute(c: nat, id: Id)
    | Recheck(c: nat, o: Observation, v: Evaluation)
    | Withhold(c: nat, at: int)
    | Intend(c: nat, start: int, reported: bool)   // reported: the commit was seen to succeed
    | Send(c: nat)
    | Deliver(id: Id)
    | Reply(c: nat, response: Response<ReceiptBody>, raw: string)
    | Record(c: nat, at: int)
    | BeginReconcile(c: nat, id: Id)
    | CheckAge(c: nat)
    | Ask(c: nat, answer: Answer, wire: Wire)
    | Resolve(c: nat, at: int)
    | Mark(c: nat, at: int)
    | Drop(c: nat)

  ghost predicate Posted(posts: seq<Post>, id: Id) {
    exists i :: 0 <= i < |posts| && posts[i].id == id
  }

  // What execution demands of a decision it has just read.
  predicate Executable(row: Row, now: int) {
    && row.status == Ready && row.version == PROBE_VERSION
    && row.expiresAt.Some? && now <= row.expiresAt.value
    && row.plan.Some? && row.plan.value.orderType == "mkt"
    && row.plan.value.maxRecheckAsk.Some? && row.plan.value.maxRecheckAsk.value > 0.0
  }

  // The recheck confirms the reviewed plan.
  predicate Confirms(plan: Plan, v: Evaluation) {
    && v.plan.Some?
    && v.plan.value.fingerprint == plan.fingerprint
    && v.plan.value.instrumentId == plan.instrumentId
    && plan.maxRecheckAsk.Some? && v.plan.value.ask <= plan.maxRecheckAsk.value
  }

  predicate Unchanged(row: Row, found: OrderLookup) {
    && row.status == ResolvedStatus(row, found)
    && row.brokerStatus == Some(found.statusId) && row.orderId == Some(found.orderId)
  }

  // When a step may be taken.  A lookup by reference finds only orders the broker has received; a lookup
  // by order ID is tried only with an ID that was read from the row.
  ghost predicate Enabled(w: World, s: Step) {
    match s
    case Tick(to) => w.now <= to
    case BeginPreview(c, key) => c !in w.calls && !KeyTaken(w.db.rows, key)
    case Evaluate(c, o, v) => c in w.calls && w.calls[c].Previewing? && Evaluates(o, v)
    case Insert(c, id, at) => c in w.calls && w.calls[c].Previewed? && id !in w.db.rows && at <= w.now
    case BeginExecute(c, id) => c !in w.calls && id in w.db.rows && Executable(w.db.rows[id], w.now)
    case Recheck(c, o, v) => c in w.calls && w.calls[c].Executing? && Evaluates(o, v)
    case Withhold(c, at) => c in w.calls && w.calls[c].Holding? && w.calls[c].id in w.db.rows && at <= w.now
    case Intend(c, start, _) =>
      && c in w.calls && w.calls[c].Intending? && start <= w.now
      && IntentMatches(w.db, w.calls[c].id, start) && !OtherActive(w.db.rows, w.calls[c].id)
    case Send(c) => c in w.calls && w.calls[c].Cleared?
    case Deliver(id) => Posted(w.posts, id)
    case Reply(c, response, _) =>
      && c in w.calls && w.calls[c].Sent?
      && (ReadReceipt(w.calls[c].id, response).Some? ==> w.calls[c].id in w.received)
    case Record(c, at) => c in w.calls && w.calls[c].Replied? && w.calls[c].id in w.db.rows && at <= w.now
    case BeginReconcile(c, id) => c !in w.calls && HasActive(w.db, id)
    case CheckAge(c) =>
      && c in w.calls && w.calls[c].Reading?
      && (w.calls[c].row.status == Submitting ==> w.now - w.calls[c].row.updatedAt >= SUBMIT_WINDOW)
    case Ask(c, answer, _) =>
      && c in w.calls && w.calls[c].Asking?
      && (answer.Found? ==> SoundLookup(answer.order))
      && (answer.Found? && !answer.byOrderId ==> w.calls[c].id in w.received)
      && (answer.Found? && answer.byOrderId ==> w.calls[c].row.orderId.Some?)
    case Resolve(c, at) => c in w.calls && w.calls[c].Answered? && w.calls[c].id in w.db.rows && at <= w.now
    case Mark(c, at) => c in w.calls && w.calls[c].Unanswered? && w.calls[c].id in w.db.rows && at <= w.now
    case Drop(c) => c in w.calls
  }

  // The end of a call.
  function Done(w: World, c: nat): World {
    w.(calls := w.calls - {c})
  }

  function Next(w: World, c: nat, call: Call): World {
    w.(calls := w.calls[c := call])
  }

  function AfterAsk(w: World, c: nat, answer: Answer, wire: Wire): World
    requires c in w.calls && w.calls[c].Asking?
  {
    var call := w.calls[c];
    match answer
    case Found(order, _) => if Unchanged(call.row, order)
      then Done(w, c) else Next(w, c, Answered(call.id, call.row, order, wire))
    case NotFound => if call.row.status == Submitting then Next(w, c, Unanswered(call.id, wire)) else Done(w, c)
  }

  ghost function Apply(w: World, s: Step): World
    requires Enabled(w, s)
  {
    match s
    case Tick(to) => w.(now := to)
    case BeginPreview(c, key) => Next(w, c, Previewing(key))
    case Evaluate(c, _, v) => Next(w, c, Previewed(w.calls[c].key, v))
    case Insert(c, id, at) => Done(w, c).(db := InsertPreview(w.db, id, w.calls[c].key, at, w.calls[c].v))
    case BeginExecute(c, id) => Next(w, c, Executing(id, w.db.rows[id].plan.value))
    case Recheck(c, _, v) =>
      var call := w.calls[c];
      Next(w, c, if Confirms(call.plan, v) then Intending(call.id, call.plan, v) else Holding(call.id, v))
    case Withhold(c, at) => Done(w, c).(db := HoldRun(w.db, w.calls[c].id, at, w.calls[c].v))
    case Intend(c, start, reported) =>
      var call := w.calls[c];
      (if reported then Next(w, c, Cleared(call.id, call.plan, call.v, start)) else Done(w, c)).(
        db := CommitIntent(w.db, call.id, start, call.v))
    case Send(c) =>
      var call := w.calls[c];
      Next(w, c, Sent(call.id, call.start)).(posts := w.posts + [Post(call.id, call.plan, call.v)])
    case Deliver(id) => w.(received := w.received + {id})
    case Reply(c, response, raw) => Next(w, c, Replied(w.calls[c].id, w.calls[c].start, response, raw))
    case Record(c, at) => Done(w, c).(db := RecordSubmit(w.db, w.calls[c].id, at, w.calls[c].response, w.calls[c].raw))
    case BeginReconcile(c, id) => Next(w, c, Reading(id, w.db.rows[id]))
    case CheckAge(c) => Next(w, c, Asking(w.calls[c].id, w.calls[c].row))
    case Ask(c, answer, wire) => AfterAsk(w, c, answer, wire)
    case Resolve(c, at) =>
      var call := w.calls[c];
      Done(w, c).(db := ApplyLookup(w.db, call.id, at, ResolvedStatus(call.row, call.found), call.found, call.wire))
    case Mark(c, at) => Done(w, c).(db := MarkUnknown(w.db, w.calls[c].id, at, w.calls[c].wire))
    case Drop(c) => Done(w, c)
  }

  // ---------- Runs ----------

  ghost predicate Initial(w: World) {
    w.db == Db(map[], [], []) && w.calls == map[] && w.posts == [] && w.received == {}
  }

  // A run is a sequence of worlds, each reached from the one before by an enabled step.
  ghost predicate StepTo(w: World, w': World) {
    exists s: Step :: Enabled(w, s) && w' == Apply(w, s)
  }

  ghost predicate IsRun(run: seq<World>) {
    && |run| > 0 && Initial(run[0])
    && forall i :: 0 <= i < |run| - 1 ==> StepTo(run[i], run[i + 1])
  }
}
