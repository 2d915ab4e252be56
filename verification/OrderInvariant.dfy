/**
 The inductive invariant of the order protocol, in independent parts, and the proof that every step
 keeps each part.
 */
module OrderInvariant {
  import opened Base
  import opened Trading
  import opened Gate
  import opened GateLaws
  import opened OrderStore
  import opened OrderProtocol

  // ---------- The store ----------

  // What the one-active index keeps: at most one decision is unresolved.
  ghost predicate OneActive(rows: map<Id, Row>) {
    forall a, b :: a in rows && b in rows && Active(rows[a].status) && Active(rows[b].status) ==> a == b
  }

  // Every key owns at most one decision, and at most one decision is unresolved.
  ghost predicate StoreOk(db: Db) {
    && (forall a, b :: a in db.rows && b in db.rows && db.rows[a].key == db.rows[b].key ==> a == b)
    && OneActive(db.rows)
  }

  // A status is backed by the broker evidence it claims.
  ghost predicate Backed(row: Row) {
    && AllPositive(row.positions)
    && (row.orderId.Some? ==> row.orderId.value > 0)
    && (row.status == Filled ==> row.brokerStatus == Some(3) && row.orderId.Some? && row.positions != [])
    && (row.status == Rejected ==> row.positions == [] && (row.brokerStatus == None || row.brokerStatus == Some(4)))
    && (row.status == Accepted || row.status == PartiallyFilled ==> row.orderId.Some?)
  }

  // No broker outcome has been recorded yet.
  ghost predicate Untouched(row: Row) {
    && row.orderId == None && row.brokerStatus == None && row.positions == []
    && (row.status == Hold || row.status == Ready || row.status == Submitting || row.status == Unknown)
  }

  ghost predicate RowOk(posts: seq<Post>, id: Id, row: Row) {
    && Backed(row)
    && (row.plan.Some? ==> SoundPlan(row.plan.value))
    && (row.status != Hold ==> row.plan.Some?)
    && (!Posted(posts, id) ==> Untouched(row))
    && (row.status == Submitting ==> Untouched(row))
    && (Posted(posts, id) ==> Started(row.status))
  }

  ghost predicate RowsOk(w: World) {
    forall id :: id in w.db.rows ==> RowOk(w.posts, id, w.db.rows[id])
  }

  // ---------- Calls and posts ----------

  ghost predicate PlanKept(db: Db, id: Id, plan: Plan) {
    id in db.rows && db.rows[id].plan == Some(plan)
  }

  ghost predicate IsStarted(db: Db, id: Id) {
    id in db.rows && Started(db.rows[id].status)
  }

  // The recheck evidence of a submission is stored.
  ghost predicate EvidenceKept(db: Db, id: Id, v: Evaluation) {
    forall e :: e in Filed(id, RecheckPhase, v.artifacts) ==> e in db.evidence
  }

  ghost predicate CallOk(w: World, call: Call) {
    match call
    case Previewing(_) => true
    case Previewed(_, v) => exists o :: Evaluates(o, v)
    case Executing(id, plan) => PlanKept(w.db, id, plan)
    case Holding(id, _) => id in w.db.rows
    case Intending(id, plan, v) => PlanKept(w.db, id, plan) && Confirms(plan, v)
    case Cleared(id, plan, v, _) =>
      && PlanKept(w.db, id, plan) && Confirms(plan, v) && EvidenceKept(w.db, id, v)
      && Active(w.db.rows[id].status) && !Posted(w.posts, id)
    case Sent(id, _) => Posted(w.posts, id)
    case Replied(id, _, _, _) => Posted(w.posts, id)
    case Reading(id, row) => IsStarted(w.db, id) && (row.orderId.Some? ==> Posted(w.posts, id))
    case Asking(id, row) => IsStarted(w.db, id) && (row.orderId.Some? ==> Posted(w.posts, id))
    case Answered(id, _, found, _) => IsStarted(w.db, id) && Posted(w.posts, id) && SoundLookup(found)
    case Unanswered(id, _) => IsStarted(w.db, id)
  }

  ghost predicate CallsOk(w: World) {
    forall c :: c in w.calls ==> CallOk(w, w.calls[c])
  }

  ghost predicate PostOk(db: Db, p: Post) {
    && IsStarted(db, p.id) && PlanKept(db, p.id, p.plan)
    && Confirms(p.plan, p.recheck) && EvidenceKept(db, p.id, p.recheck)
  }

  // Every submission is of a different decision, and the broker knows only submitted references.
  ghost predicate PostsOk(w: World) {
    && (forall i :: 0 <= i < |w.posts| ==> PostOk(w.db, w.posts[i]))
    && (forall i, j :: 0 <= i < j < |w.posts| ==> w.posts[i].id != w.posts[j].id)
    && (forall id :: id in w.received ==> Posted(w.posts, id))
  }

  // ---------- Submitters and the event log ----------

  ghost predicate Submits(call: Call, id: Id) {
    (call.Cleared? || call.Sent? || call.Replied?) && call.id == id
  }

  predicate SubmissionEvent(kind: EventKind) {
    kind == SubmissionAccepted || kind == SubmissionRejected || kind == SubmissionUnknown
  }

  // One call at a time submits a decision, and only a started one.
  ghost predicate SubmittersOk(w: World) {
    && (forall c, id :: c in w.calls && Submits(w.calls[c], id) ==> IsStarted(w.db, id))
    && (forall c, d, id :: c in w.calls && d in w.calls && Submits(w.calls[c], id) && Submits(w.calls[d], id) ==>
      c == d)
  }

  // The log holds exactly one intent for every started decision and none for any other.
  ghost predicate IntentsOk(db: Db) {
    var log := db.events;
    && (forall id :: IsStarted(db, id) ==> Event(id, SubmitIntent, 0) in log)
    && (forall i :: 0 <= i < |log| && log[i].kind == SubmitIntent ==> IsStarted(db, log[i].run))
    && (forall i, j :: 0 <= i < j < |log| && log[i].kind == SubmitIntent && log[j].kind == SubmitIntent ==>
      log[i].run != log[j].run)
  }

  ghost predicate NoSubmitter(calls: map<nat, Call>, id: Id) {
    forall c :: c in calls ==> !Submits(calls[c], id)
  }

  // At most one submission outcome is logged for a decision, and only once no call submits it any more.
  ghost predicate OutcomesOk(w: World) {
    var log := w.db.events;
    && (forall i :: 0 <= i < |log| && SubmissionEvent(log[i].kind) ==>
      IsStarted(w.db, log[i].run) && NoSubmitter(w.calls, log[i].run))
    && (forall i, j :: 0 <= i < j < |log| && SubmissionEvent(log[i].kind) && SubmissionEvent(log[j].kind) ==>
      log[i].run != log[j].run)
  }

  // ---------- The timed hand-off ----------

  ghost predicate Reconciles(call: Call, id: Id) {
    (call.Reading? || call.Asking? || call.Answered? || call.Unanswered?) && call.id == id
  }

  // Until the submission window closes, a submitter's row is as the intent left it and every concurrent
  // reconcile is still waiting with that row in hand.
  ghost predicate HandOff(w: World) {
    forall c :: c in w.calls && (w.calls[c].Cleared? || w.calls[c].Sent? || w.calls[c].Replied?)
                && w.now < w.calls[c].start + SUBMIT_WINDOW ==>
      Waiting(w, w.calls[c].id, w.calls[c].start)
  }

  ghost predicate Waiting(w: World, id: Id, start: int) {
    && HasStatus(w.db, id, Submitting) && w.db.rows[id].updatedAt == start
    && forall d :: d in w.calls && Reconciles(w.calls[d], id) ==>
         w.calls[d].Reading? && w.calls[d].row.status == Submitting && w.calls[d].row.updatedAt == start
  }

  ghost predicate Inv(w: World) {
    && StoreOk(w.db) && RowsOk(w) && CallsOk(w) && PostsOk(w)
    && SubmittersOk(w) && IntentsOk(w.db) && OutcomesOk(w) && HandOff(w)
  }

  // ---------- What only grows ----------

  ghost predicate Continues(row: Row, row': Row) {
    row'.plan == row.plan && row'.key == row.key && (Started(row.status) ==> Started(row'.status))
  }

  // Decisions, their keys, their plans and the fact that they were started are never lost; logs and
  // submissions are only extended.
  ghost predicate Grows(w: World, w': World) {
    && (forall id :: id in w.db.rows ==> id in w'.db.rows && Continues(w.db.rows[id], w'.db.rows[id]))
    && (forall e :: e in w.db.evidence ==> e in w'.db.evidence)
    && (forall id :: Posted(w.posts, id) ==> Posted(w'.posts, id))
    && w.received <= w'.received
  }

  lemma PostedExtends(posts: seq<Post>, p: Post)
    ensures forall id :: Posted(posts + [p], id) <==> Posted(posts, id) || p.id == id
  {
    forall id ensures Posted(posts + [p], id) <==> Posted(posts, id) || p.id == id {
      if Posted(posts, id) {
        var i :| 0 <= i < |posts| && posts[i].id == id;
        assert (posts + [p])[i].id == id;
      }
      if p.id == id {
        assert (posts + [p])[|posts|].id == id;
      }
    }
  }

  lemma StepGrows(w: World, s: Step)
    requires Enabled(w, s)
    ensures Grows(w, Apply(w, s))
  {
    hide Filed, Evaluates, SoundLookup, OtherActive, Confirms, KeyTaken, ReadReceipt;
    if s.Send? {
      var call := w.calls[s.c];
      PostedExtends(w.posts, Post(call.id, call.plan, call.v));
    }
  }

  // ---------- Every step keeps the rows ----------

  lemma UpdateKeepsStore(db: Db, id: Id, row: Row, db': Db)
    requires StoreOk(db) && id in db.rows && row.key == db.rows[id].key
    requires db'.rows == db.rows
             || (&& db'.rows == db.rows[id := row]
                 && (Active(row.status) && !Active(db.rows[id].status) ==> !OtherActive(db.rows, id)))
    ensures StoreOk(db')
  {
    if db'.rows != db.rows && Active(row.status) {
      forall a | a in db.rows && a != id ensures !Active(db.rows[a].status) {
      }
    }
  }

  lemma InsertKeepsStore(db: Db, id: Id, key: string, at: int, v: Evaluation)
    requires StoreOk(db) && id !in db.rows
    ensures StoreOk(InsertPreview(db, id, key, at, v))
  {
    if !KeyTaken(db.rows, key) {
      assert forall a :: a in db.rows ==> db.rows[a].key != key;
    }
  }

  lemma StepKeepsStore(w: World, s: Step)
    requires StoreOk(w.db) && Enabled(w, s)
    ensures StoreOk(Apply(w, s).db)
  {
    match s
    case Insert(c, id, at) => InsertKeepsStore(w.db, id, w.calls[c].key, at, w.calls[c].v);
    case Withhold(c, at) =>
      var id := w.calls[c].id;
      UpdateKeepsStore(w.db, id, w.db.rows[id].(status := Hold, updatedAt := at), Apply(w, s).db);
    case Intend(c, start, _) =>
      var id := w.calls[c].id;
      UpdateKeepsStore(w.db, id, w.db.rows[id].(status := Submitting, updatedAt := start), Apply(w, s).db);
    case Record(c, at) =>
      var call := w.calls[c];
      UpdateKeepsStore(w.db, call.id, w.db.rows[call.id].(status := SubmitStatus(call.id, call.response),
                       orderId := ReadReceipt(call.id, call.response), updatedAt := at), Apply(w, s).db);
    case Resolve(c, at) =>
      var call := w.calls[c];
      UpdateKeepsStore(w.db, call.id, w.db.rows[call.id].(status := ResolvedStatus(call.row, call.found),
                       orderId := Some(call.found.orderId), brokerStatus := Some(call.found.statusId),
                       positions := call.found.positionIds, updatedAt := at), Apply(w, s).db);
    case Mark(c, at) =>
      var id := w.calls[c].id;
      UpdateKeepsStore(w.db, id, w.db.rows[id].(status := Unknown, updatedAt := at), Apply(w, s).db);
    case _ =>
  }

  lemma PostedIsStarted(w: World)
    requires PostsOk(w)
    ensures forall id :: Posted(w.posts, id) ==> IsStarted(w.db, id)
  {
    forall id | Posted(w.posts, id) ensures IsStarted(w.db, id) {
      var i :| 0 <= i < |w.posts| && w.posts[i].id == id;
      assert PostOk(w.db, w.posts[i]);
    }
  }

  lemma PreviewRowOk(posts: seq<Post>, id: Id, key: string, at: int, v: Evaluation)
    requires !Posted(posts, id) && exists o :: Evaluates(o, v)
    ensures RowOk(posts, id, PreviewRow(key, at, v))
  {
    if v.plan.Some? {
      var o :| Evaluates(o, v);
      PlanIsSound(o, v);
    }
  }

  lemma ResolvedRowOk(posts: seq<Post>, id: Id, row: Row, read: Row, at: int, found: OrderLookup)
    requires RowOk(posts, id, row) && Active(row.status) && Posted(posts, id) && SoundLookup(found)
    ensures RowOk(posts, id, row.(status := ResolvedStatus(read, found), orderId := Some(found.orderId),
                                  brokerStatus := Some(found.statusId), positions := found.positionIds,
                                  updatedAt := at))
  {
  }

  lemma RecordedRowOk(posts: seq<Post>, id: Id, row: Row, at: int, response: Response<ReceiptBody>)
    requires RowOk(posts, id, row) && row.status == Submitting && Posted(posts, id)
    ensures RowOk(posts, id, row.(status := SubmitStatus(id, response), orderId := ReadReceipt(id, response),
                                  updatedAt := at))
  {
  }

  lemma InsertKeepsRows(w: World, c: nat, id: Id, at: int)
    requires RowsOk(w) && CallsOk(w) && PostsOk(w) && Enabled(w, Insert(c, id, at))
    ensures RowsOk(Apply(w, Insert(c, id, at)))
  {
    PostedIsStarted(w);
    assert CallOk(w, w.calls[c]);
    PreviewRowOk(w.posts, id, w.calls[c].key, at, w.calls[c].v);
  }

  lemma SendKeepsRows(w: World, c: nat)
    requires RowsOk(w) && CallsOk(w) && Enabled(w, Send(c))
    ensures RowsOk(Apply(w, Send(c)))
  {
    var call := w.calls[c];
    assert CallOk(w, call);
    PostedExtends(w.posts, Post(call.id, call.plan, call.v));
  }

  lemma RecordKeepsRows(w: World, c: nat, at: int)
    requires RowsOk(w) && CallsOk(w) && Enabled(w, Record(c, at))
    ensures RowsOk(Apply(w, Record(c, at)))
  {
    var call := w.calls[c];
    assert CallOk(w, call);
    if HasStatus(w.db, call.id, Submitting) {
      RecordedRowOk(w.posts, call.id, w.db.rows[call.id], at, call.response);
    }
  }

  lemma ResolveKeepsRows(w: World, c: nat, at: int)
    requires RowsOk(w) && CallsOk(w) && Enabled(w, Resolve(c, at))
    ensures RowsOk(Apply(w, Resolve(c, at)))
  {
    var call := w.calls[c];
    assert CallOk(w, call);
    if HasActive(w.db, call.id) {
      ResolvedRowOk(w.posts, call.id, w.db.rows[call.id], call.row, at, call.found);
    }
  }

  // A row that has not been posted, or not resolved, may take a waiting status.
  lemma WaitingRowOk(posts: seq<Post>, id: Id, row: Row, s: Status, at: int)
    requires RowOk(posts, id, row)
    requires || (row.status == Ready && !Posted(posts, id) && (s == Hold || s == Submitting))
             || (row.status == Submitting && s == Unknown)
    ensures RowOk(posts, id, row.(status := s, updatedAt := at))
  {
  }

  lemma WithholdKeepsRows(w: World, c: nat, at: int)
    requires RowsOk(w) && PostsOk(w) && Enabled(w, Withhold(c, at))
    ensures RowsOk(Apply(w, Withhold(c, at)))
  {
    PostedIsStarted(w);
    if HasStatus(w.db, w.calls[c].id, Ready) {
      WaitingRowOk(w.posts, w.calls[c].id, w.db.rows[w.calls[c].id], Hold, at);
    }
  }

  lemma IntendKeepsRows(w: World, c: nat, start: int, reported: bool)
    requires RowsOk(w) && PostsOk(w) && Enabled(w, Intend(c, start, reported))
    ensures RowsOk(Apply(w, Intend(c, start, reported)))
  {
    PostedIsStarted(w);
    WaitingRowOk(w.posts, w.calls[c].id, w.db.rows[w.calls[c].id], Submitting, start);
  }

  lemma MarkKeepsRows(w: World, c: nat, at: int)
    requires RowsOk(w) && Enabled(w, Mark(c, at))
    ensures RowsOk(Apply(w, Mark(c, at)))
  {
    if HasStatus(w.db, w.calls[c].id, Submitting) {
      WaitingRowOk(w.posts, w.calls[c].id, w.db.rows[w.calls[c].id], Unknown, at);
    }
  }

  predicate ChangesRows(s: Step) {
    s.Insert? || s.Withhold? || s.Intend? || s.Record? || s.Resolve? || s.Mark?
  }

  lemma OtherKeepsRows(w: World, s: Step)
    requires Enabled(w, s) && !ChangesRows(s)
    ensures Apply(w, s).db == w.db
    ensures !s.Send? ==> Apply(w, s).posts == w.posts
  {
  }

  lemma StepKeepsRows(w: World, s: Step)
    requires RowsOk(w) && CallsOk(w) && PostsOk(w) && Enabled(w, s)
    ensures RowsOk(Apply(w, s))
  {
    if s.Insert? { InsertKeepsRows(w, s.c, s.id, s.at); }
    else if s.Send? { SendKeepsRows(w, s.c); }
    else if s.Record? { RecordKeepsRows(w, s.c, s.at); }
    else if s.Resolve? { ResolveKeepsRows(w, s.c, s.at); }
    else if s.Withhold? { WithholdKeepsRows(w, s.c, s.at); }
    else if s.Intend? { IntendKeepsRows(w, s.c, s.start, s.reported); }
    else if s.Mark? { MarkKeepsRows(w, s.c, s.at); }
    else { OtherKeepsRows(w, s); }
  }

  // ---------- Every step keeps the submissions ----------

  lemma EvidenceStays(db: Db, db': Db, id: Id, v: Evaluation)
    requires EvidenceKept(db, id, v) && forall e :: e in db.evidence ==> e in db'.evidence
    ensures EvidenceKept(db', id, v)
  {
  }

  lemma PostStays(w: World, w': World, p: Post)
    requires Grows(w, w') && PostOk(w.db, p)
    ensures PostOk(w'.db, p)
  {
    assert Continues(w.db.rows[p.id], w'.db.rows[p.id]);
    EvidenceStays(w.db, w'.db, p.id, p.recheck);
  }

  lemma SendKeepsPosts(w: World, c: nat)
    requires PostsOk(w) && CallsOk(w) && Enabled(w, Send(c))
    ensures PostsOk(Apply(w, Send(c)))
  {
    var call := w.calls[c];
    var p := Post(call.id, call.plan, call.v);
    assert CallOk(w, call);
    assert PostOk(w.db, p);
    PostedExtends(w.posts, p);
    assert forall i :: 0 <= i < |w.posts| ==> w.posts[i].id != p.id;
  }

  lemma OtherKeepsPosts(w: World, s: Step)
    requires Enabled(w, s) && !s.Send?
    ensures Apply(w, s).posts == w.posts
    ensures !s.Deliver? ==> Apply(w, s).received == w.received
  {
  }

  lemma StepKeepsPosts(w: World, s: Step)
    requires Inv(w) && Enabled(w, s)
    ensures PostsOk(Apply(w, s))
  {
    if s.Send? {
      SendKeepsPosts(w, s.c);
    } else {
      var w' := Apply(w, s);
      StepGrows(w, s);
      OtherKeepsPosts(w, s);
      forall i | 0 <= i < |w'.posts| ensures PostOk(w'.db, w'.posts[i]) {
        PostStays(w, w', w.posts[i]);
      }
    }
  }

  // ---------- Every step keeps the calls ----------

  lemma CallStays(w: World, w': World, call: Call)
    requires Grows(w, w') && CallOk(w, call) && !call.Cleared?
    ensures CallOk(w', call)
  {
    if !call.Previewing? && !call.Previewed? && call.id in w.db.rows {
      assert Continues(w.db.rows[call.id], w'.db.rows[call.id]);
    }
  }

  // A cleared submission stays unresolved and unposted whatever the other calls do.
  lemma ClearedStays(w: World, s: Step, c: nat)
    requires Inv(w) && Enabled(w, s) && c in w.calls && w.calls[c].Cleared?
    requires c in Apply(w, s).calls && Apply(w, s).calls[c] == w.calls[c]
    ensures CallOk(Apply(w, s), w.calls[c])
  {
    var w', call := Apply(w, s), w.calls[c];
    StepGrows(w, s);
    assert CallOk(w, call);
    assert Continues(w.db.rows[call.id], w'.db.rows[call.id]);
    EvidenceStays(w.db, w'.db, call.id, call.v);
    assert !Posted(w'.posts, call.id) by { ClearedIsNotPosted(w, s, c); }
    assert Active(w'.db.rows[call.id].status) by { ClearedIsActive(w, s, c); }
  }

  lemma ClearedIsNotPosted(w: World, s: Step, c: nat)
    requires Inv(w) && Enabled(w, s) && c in w.calls && w.calls[c].Cleared?
    requires c in Apply(w, s).calls && Apply(w, s).calls[c] == w.calls[c]
    ensures !Posted(Apply(w, s).posts, w.calls[c].id)
  {
    assert CallOk(w, w.calls[c]);
    if s.Send? {
      var call := w.calls[s.c];
      PostedExtends(w.posts, Post(call.id, call.plan, call.v));
      assert Submits(call, call.id) && Submits(w.calls[c], w.calls[c].id);
    } else {
      OtherKeepsPosts(w, s);
    }
  }

  lemma ClearedIsActive(w: World, s: Step, c: nat)
    requires CallsOk(w) && Enabled(w, s) && c in w.calls && w.calls[c].Cleared?
    ensures HasActive(Apply(w, s).db, w.calls[c].id)
  {
    assert CallOk(w, w.calls[c]);
    if s.Record? || s.Resolve? {
      assert CallOk(w, w.calls[s.c]);
    }
  }

  // The call a step moves is in order afterwards.
  lemma MovedCallOk(w: World, s: Step, c: nat)
    requires RowsOk(w) && CallsOk(w) && PostsOk(w) && Enabled(w, s) && c in Apply(w, s).calls
    requires c !in w.calls || Apply(w, s).calls[c] != w.calls[c]
    ensures CallOk(Apply(w, s), Apply(w, s).calls[c])
  {
    if c in w.calls {
      assert CallOk(w, w.calls[c]);
    }
    match s
    case Intend(_, start, reported) => IntendedCallOk(w, c, start, reported);
    case Send(_) =>
      var call := w.calls[c];
      PostedExtends(w.posts, Post(call.id, call.plan, call.v));
    case BeginReconcile(_, id) =>
      assert RowOk(w.posts, id, w.db.rows[id]);
    case _ =>
  }

  lemma IntendedCallOk(w: World, c: nat, start: int, reported: bool)
    requires CallsOk(w) && PostsOk(w) && Enabled(w, Intend(c, start, reported)) && reported
    ensures CallOk(Apply(w, Intend(c, start, reported)), Apply(w, Intend(c, start, reported)).calls[c])
  {
    var call := w.calls[c];
    assert CallOk(w, call);
    PostedIsStarted(w);
    var evidence := Apply(w, Intend(c, start, reported)).db.evidence;
    assert evidence == w.db.evidence + Filed(call.id, RecheckPhase, call.v.artifacts);
  }

  lemma StepKeepsCalls(w: World, s: Step)
    requires Inv(w) && Enabled(w, s)
    ensures CallsOk(Apply(w, s))
  {
    var w' := Apply(w, s);
    StepGrows(w, s);
    forall c | c in w'.calls ensures CallOk(w', w'.calls[c]) {
      if c !in w.calls || w'.calls[c] != w.calls[c] {
        MovedCallOk(w, s, c);
      } else if w.calls[c].Cleared? {
        ClearedStays(w, s, c);
      } else {
        CallStays(w, w', w.calls[c]);
      }
    }
  }

  // ---------- Every step keeps submitters and the log ----------

  lemma IntendedIsFresh(w: World, c: nat, start: int, reported: bool)
    requires SubmittersOk(w) && Enabled(w, Intend(c, start, reported))
    ensures !IsStarted(w.db, w.calls[c].id) && NoSubmitter(w.calls, w.calls[c].id)
  {
  }

  // No step but a reported intent makes a call a submitter.
  lemma SubmittersStay(w: World, s: Step, c: nat, id: Id)
    requires Enabled(w, s) && c in Apply(w, s).calls && Submits(Apply(w, s).calls[c], id)
    ensures (c in w.calls && Submits(w.calls[c], id)) || (s.Intend? && s.c == c && s.reported && w.calls[c].id == id)
  {
  }

  // Started decisions stay started, and no step but an intent starts one.
  lemma StartedStays(w: World, s: Step)
    requires Enabled(w, s)
    ensures forall id :: IsStarted(w.db, id) ==> IsStarted(Apply(w, s).db, id)
    ensures forall id :: IsStarted(Apply(w, s).db, id) ==> IsStarted(w.db, id) || (s.Intend? && w.calls[s.c].id == id)
    ensures s.Intend? ==> IsStarted(Apply(w, s).db, w.calls[s.c].id)
  {
  }

  lemma StepKeepsSubmitters(w: World, s: Step)
    requires SubmittersOk(w) && Enabled(w, s)
    ensures SubmittersOk(Apply(w, s))
  {
    var w' := Apply(w, s);
    StartedStays(w, s);
    forall c, id | c in w'.calls && Submits(w'.calls[c], id) ensures IsStarted(w'.db, id) {
      SubmittersStay(w, s, c, id);
    }
    forall c, d, id | c in w'.calls && d in w'.calls && Submits(w'.calls[c], id) && Submits(w'.calls[d], id)
      ensures c == d {
      SubmittersStay(w, s, c, id);
      SubmittersStay(w, s, d, id);
      if s.Intend? { IntendedIsFresh(w, s.c, s.start, s.reported); }
    }
  }

  // The events a step appends.
  ghost predicate Appends(log: seq<Event>, log': seq<Event>, e: Event) {
    log' == log + [e]
  }

  lemma IntendAppends(w: World, s: Step)
    requires Enabled(w, s) && s.Intend?
    ensures Appends(w.db.events, Apply(w, s).db.events, Event(w.calls[s.c].id, SubmitIntent, 0))
  {
    hide Filed, OtherActive, Confirms;
  }

  lemma RecordAppends(w: World, s: Step) returns (e: Event)
    requires Enabled(w, s) && s.Record?
    ensures e.run == w.calls[s.c].id && SubmissionEvent(e.kind) && Appends(w.db.events, Apply(w, s).db.events, e)
  {
    hide Filed, ReadReceipt;
    var (id, response) := (w.calls[s.c].id, w.calls[s.c].response);
    e := Event(id, SubmitEvent(SubmitStatus(id, response)), HttpStatus(response));
  }

  lemma OtherAppends(w: World, s: Step)
    requires Enabled(w, s) && !s.Intend? && !s.Record?
    ensures
      || Apply(w, s).db.events == w.db.events
      || exists e: Event ::
           e.kind != SubmitIntent && !SubmissionEvent(e.kind) && Appends(w.db.events, Apply(w, s).db.events, e)
  {
    hide Filed, Evaluates, SoundLookup, ReadReceipt, OtherActive, Confirms;
    var log := w.db.events;
    match s
    case Insert(c, id, _) =>
      if !KeyTaken(w.db.rows, w.calls[c].key) { assert Appends(log, Apply(w, s).db.events, Event(id, Decision, 0)); }
    case Withhold(c, _) => assert Appends(log, Apply(w, s).db.events, Event(w.calls[c].id, HoldDecision, 0));
    case Resolve(c, _) =>
      assert Appends(log, Apply(w, s).db.events, Event(w.calls[c].id, BrokerLookup, w.calls[c].wire.http));
    case Mark(c, _) =>
      assert Appends(log, Apply(w, s).db.events, Event(w.calls[c].id, BrokerLookupUnknown, w.calls[c].wire.http));
    case _ =>
  }

  lemma LogExtends(w: World, s: Step)
    requires Enabled(w, s)
    ensures s.Intend? ==> Appends(w.db.events, Apply(w, s).db.events, Event(w.calls[s.c].id, SubmitIntent, 0))
    ensures s.Record? ==>
      exists e: Event ::
        e.run == w.calls[s.c].id && SubmissionEvent(e.kind) && Appends(w.db.events, Apply(w, s).db.events, e)
    ensures !s.Intend? && !s.Record? ==>
      || Apply(w, s).db.events == w.db.events
      || exists e: Event ::
           e.kind != SubmitIntent && !SubmissionEvent(e.kind) && Appends(w.db.events, Apply(w, s).db.events, e)
  {
    hide Apply, Appends, SubmissionEvent;
    if s.Intend? {
      IntendAppends(w, s);
    } else if s.Record? {
      var e := RecordAppends(w, s);
    } else {
      OtherAppends(w, s);
    }
  }

  lemma StepKeepsIntents(w: World, s: Step)
    requires IntentsOk(w.db) && SubmittersOk(w) && Enabled(w, s)
    ensures IntentsOk(Apply(w, s).db)
  {
    hide SubmittersOk, Apply, Executable, Evaluates, Confirms, IntentMatches, OtherActive, SoundLookup, KeyTaken;
    var log, log' := w.db.events, Apply(w, s).db.events;
    StartedStays(w, s);
    LogExtends(w, s);
    if s.Intend? {
      IntendedIsFresh(w, s.c, s.start, s.reported);
      assert log'[|log|] == Event(w.calls[s.c].id, SubmitIntent, 0);
    }
    assert |log| <= |log'| && forall i :: 0 <= i < |log| ==> log'[i] == log[i];
    forall id | IsStarted(Apply(w, s).db, id) ensures Event(id, SubmitIntent, 0) in log' {
      if IsStarted(w.db, id) {
        var i :| 0 <= i < |log| && log[i] == Event(id, SubmitIntent, 0);
        assert log'[i] == Event(id, SubmitIntent, 0);
      }
    }
  }

  lemma SubmittersOnlyShrink(w: World, s: Step, id: Id)
    requires Enabled(w, s) && NoSubmitter(w.calls, id) && !(s.Intend? && w.calls[s.c].id == id)
    ensures NoSubmitter(Apply(w, s).calls, id)
  {
  }

  lemma RecordEndsSubmitter(w: World, c: nat, at: int)
    requires SubmittersOk(w) && OutcomesOk(w) && Enabled(w, Record(c, at))
    ensures NoSubmitter(Apply(w, Record(c, at)).calls, w.calls[c].id)
    ensures forall i :: 0 <= i < |w.db.events| && SubmissionEvent(w.db.events[i].kind) ==>
      w.db.events[i].run != w.calls[c].id
  {
    assert Submits(w.calls[c], w.calls[c].id);
  }

  lemma StepKeepsOutcomes(w: World, s: Step)
    requires OutcomesOk(w) && SubmittersOk(w) && Enabled(w, s)
    ensures OutcomesOk(Apply(w, s))
  {
    var w', log, log' := Apply(w, s), w.db.events, Apply(w, s).db.events;
    StartedStays(w, s);
    LogExtends(w, s);
    if s.Intend? { IntendedIsFresh(w, s.c, s.start, s.reported); }
    if s.Record? {
      RecordEndsSubmitter(w, s.c, s.at);
      assert Submits(w.calls[s.c], w.calls[s.c].id);
    }
    assert |log| <= |log'| && forall i :: 0 <= i < |log| ==> log'[i] == log[i];
    forall i | 0 <= i < |log'| && SubmissionEvent(log'[i].kind)
      ensures IsStarted(w'.db, log'[i].run) && NoSubmitter(w'.calls, log'[i].run)
    {
      if i < |log| {
        SubmittersOnlyShrink(w, s, log[i].run);
      }
    }
  }

  // ---------- Every step keeps the hand-off ----------

  // While a submitter's window is open, the step leaves its row and the waiting reconciles alone.
  lemma WindowStays(w: World, s: Step, c: nat, id: Id)
    requires SubmittersOk(w) && HandOff(w) && Enabled(w, s) && c in w.calls && Submits(w.calls[c], id)
    requires c in Apply(w, s).calls && Submits(Apply(w, s).calls[c], id)
    requires w.now < w.calls[c].start + SUBMIT_WINDOW
    ensures Waiting(Apply(w, s), id, w.calls[c].start)
  {
    var start := w.calls[c].start;
    assert Waiting(w, id, start);
    RowWaits(w, s, c, id, start);
    ReconcilesWait(w, s, id, start);
  }

  lemma RowWaits(w: World, s: Step, c: nat, id: Id, start: int)
    requires SubmittersOk(w) && Enabled(w, s) && c in w.calls && Submits(w.calls[c], id)
    requires c in Apply(w, s).calls && Submits(Apply(w, s).calls[c], id)
    requires Waiting(w, id, start)
    ensures HasStatus(Apply(w, s).db, id, Submitting) && Apply(w, s).db.rows[id].updatedAt == start
  {
    if s.Record? {
      assert Submits(w.calls[s.c], w.calls[s.c].id);
    } else if s.Resolve? || s.Mark? {
      assert Reconciles(w.calls[s.c], w.calls[s.c].id);
    }
  }

  lemma ReconcilesWait(w: World, s: Step, id: Id, start: int)
    requires Enabled(w, s) && Waiting(w, id, start) && w.now < start + SUBMIT_WINDOW
    ensures forall d :: d in Apply(w, s).calls && Reconciles(Apply(w, s).calls[d], id) ==>
              && Apply(w, s).calls[d].Reading? && Apply(w, s).calls[d].row.status == Submitting
              && Apply(w, s).calls[d].row.updatedAt == start
  {
    var w' := Apply(w, s);
    forall d | d in w'.calls && Reconciles(w'.calls[d], id)
      ensures w'.calls[d].Reading? && w'.calls[d].row.status == Submitting && w'.calls[d].row.updatedAt == start
    {
      assert d in w.calls && Reconciles(w.calls[d], id) ==> w.calls[d].Reading?;
    }
  }

  lemma IntentOpensWindow(w: World, c: nat, start: int, id: Id)
    requires CallsOk(w) && Enabled(w, Intend(c, start, true)) && w.calls[c].id == id
    ensures Waiting(Apply(w, Intend(c, start, true)), id, start)
  {
    forall d | d in w.calls ensures !Reconciles(w.calls[d], id) {
      assert CallOk(w, w.calls[d]);
    }
  }

  lemma ClockAdvances(w: World, s: Step)
    requires Enabled(w, s)
    ensures w.now <= Apply(w, s).now
  {
  }

  lemma SubmitterStart(w: World, s: Step, c: nat, id: Id)
    requires Enabled(w, s) && c in Apply(w, s).calls && Submits(Apply(w, s).calls[c], id)
    ensures c in w.calls && Submits(w.calls[c], id) ==> w.calls[c].start == Apply(w, s).calls[c].start
    ensures !(c in w.calls && Submits(w.calls[c], id)) ==>
              s.Intend? && s.c == c && s.reported && w.calls[c].id == id && Apply(w, s).calls[c].start == s.start
  {
  }

  lemma StepKeepsHandOff(w: World, s: Step)
    requires Inv(w) && Enabled(w, s)
    ensures HandOff(Apply(w, s))
  {
    var w' := Apply(w, s);
    ClockAdvances(w, s);
    forall c | c in w'.calls && (w'.calls[c].Cleared? || w'.calls[c].Sent? || w'.calls[c].Replied?)
               && w'.now < w'.calls[c].start + SUBMIT_WINDOW
      ensures Waiting(w', w'.calls[c].id, w'.calls[c].start)
    {
      var id := w'.calls[c].id;
      assert Submits(w'.calls[c], id);
      SubmitterStart(w, s, c, id);
      if c in w.calls && Submits(w.calls[c], id) {
        WindowStays(w, s, c, id);
      } else {
        IntentOpensWindow(w, c, s.start, id);
      }
    }
  }

  // ---------- The whole invariant ----------

  lemma StepKeepsInv(w: World, s: Step)
    requires Inv(w) && Enabled(w, s)
    ensures Inv(Apply(w, s))
  {
    StepKeepsStore(w, s);
    StepKeepsRows(w, s);
    StepKeepsPosts(w, s);
    StepKeepsCalls(w, s);
    StepKeepsSubmitters(w, s);
    StepKeepsIntents(w, s);
    StepKeepsOutcomes(w, s);
    StepKeepsHandOff(w, s);
  }

  lemma RunStep(run: seq<World>, i: nat)
    requires IsRun(run) && i + 1 < |run|
    ensures StepTo(run[i], run[i + 1])
  {
    hide StepTo;
  }

  lemma NextKeepsInv(w: World, w': World)
    requires Inv(w) && StepTo(w, w')
    ensures Inv(w')
  {
    hide Inv;
    var s: Step :| Enabled(w, s) && w' == Apply(w, s);
    StepKeepsInv(w, s);
  }

  lemma {:induction false} RunKeepsInv(run: seq<World>, n: nat)
    requires IsRun(run) && n < |run|
    ensures Inv(run[n])
  {
    if n > 0 {
      hide IsRun, StepTo, Inv;
      RunKeepsInv(run, n - 1);
      RunStep(run, n - 1);
      NextKeepsInv(run[n - 1], run[n]);
    }
  }
}
