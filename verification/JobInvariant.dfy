/**
 The inductive invariant of the replay pipeline and the proof that every step keeps it.
 */
module JobInvariant {
  import opened Base
  import opened Experiments
  import opened Replay
  import opened JobStore
  import opened JobProtocol

  // ---------- The store ----------

  ghost predicate Unpublished(outbox: seq<Entry>, id: Id) {
    exists i :: 0 <= i < |outbox| && outbox[i] == Entry(id, false)
  }

  ghost predicate HasEntry(outbox: seq<Entry>, id: Id) {
    exists i :: 0 <= i < |outbox| && outbox[i].run == id
  }

  // Every run has exactly one outbox entry, and every key owns at most one run.
  ghost predicate StoreOk(db: Db) {
    && (forall i :: 0 <= i < |db.outbox| ==> db.outbox[i].run in db.runs)
    && (forall i, j :: 0 <= i < j < |db.outbox| ==> db.outbox[i].run != db.outbox[j].run)
    && (forall id :: id in db.runs ==> HasEntry(db.outbox, id))
    && (forall a, b :: a in db.runs && b in db.runs && db.runs[a].key == db.runs[b].key ==> a == b)
  }

  // What a run's status says about its result.
  ghost predicate RunOk(versions: set<Dataset>, run: Run) {
    && IsNormal(run.experiment)
    && match run.status
       case Queued => run.result == None && run.failure == None
       case Completed =>
         && run.failure == None && run.result.Some?
         && exists d :: d in versions && d.hash == run.hash && IsReplay(d, run.experiment, run.result.value)
       case Failed =>
         && run.result == None && run.failure.Some?
         && exists d :: d in versions && if run.failure.value.HashMismatch? then d.hash != run.hash
                                         else d.hash == run.hash && !Replays(d, run.experiment)
  }

  ghost predicate RunsOk(w: World) {
    forall id :: id in w.db.runs ==> RunOk(w.versions, w.db.runs[id])
  }

  // ---------- Nothing is lost ----------

  ghost predicate InQueue(queue: map<nat, Msg>, id: Id) {
    exists m :: m in queue && queue[m].id == id
  }

  ghost predicate Decided(db: Db, id: Id) {
    id in db.runs && db.runs[id].status != Queued
  }

  // The job is on its way, or no longer needed.
  ghost predicate Safe(w: World, id: Id) {
    InQueue(w.queue, id) || Decided(w.db, id)
  }

  ghost predicate QueueOk(w: World) {
    && (forall m :: m in w.queue ==> m < w.next && w.queue[m].id in w.db.runs)
    && (forall id :: id in w.recent ==> Safe(w, id))
  }

  ghost predicate WorkersOk(w: World) {
    forall k :: k in w.workers ==> WorkerOk(w, w.workers[k])
  }

  // A worker acknowledges only the message of a decided run.
  ghost predicate WorkerOk(w: World, worker: Worker) {
    && worker.m < w.next
    && (worker.m in w.queue ==> w.queue[worker.m].id == worker.id)
    && (worker.handled ==> Decided(w.db, worker.id))
  }

  ghost predicate RelaysOk(w: World) {
    forall r :: r in w.relays ==>
      w.relays[r].batch != [] && (w.relays[r].sent ==> Safe(w, w.relays[r].batch[0]))
  }

  // A relay's batch holds only runs of the store.
  ghost predicate BatchesOk(w: World) {
    forall r, i :: r in w.relays && 0 <= i < |w.relays[r].batch| ==> w.relays[r].batch[i] in w.db.runs
  }

  ghost predicate NothingLost(w: World) {
    forall id :: id in w.db.runs ==> Unpublished(w.db.outbox, id) || Safe(w, id)
  }

  // ---------- Enqueue answers ----------

  ghost predicate AnswerOk(db: Db, a: Answer) {
    match a.reply
    case Invalid => !Normalizable(a.experiment)
    case Queue(id) =>
      && Normalizable(a.experiment) && Owns(db.runs, id, a.key)
      && db.runs[id].experiment == Normal(a.experiment)
    case Conflict =>
      && Normalizable(a.experiment)
      && exists id :: Owns(db.runs, id, a.key) && db.runs[id].experiment != Normal(a.experiment)
  }

  ghost predicate AnswersOk(w: World) {
    forall a :: a in w.answers ==> AnswerOk(w.db, a)
  }

  ghost predicate Inv(w: World) {
    && StoreOk(w.db) && RunsOk(w) && QueueOk(w) && WorkersOk(w) && RelaysOk(w) && BatchesOk(w)
    && NothingLost(w) && AnswersOk(w)
  }

  // ---------- What a step does to one run ----------

  // A run keeps its identity, and once decided it never changes.
  ghost predicate Continues(run: Run, run': Run) {
    && run'.key == run.key && run'.hash == run.hash && run'.experiment == run.experiment
    && (run.status != Queued ==> run' == run)
  }

  ghost predicate Grows(db: Db, db': Db) {
    forall id :: id in db.runs ==> id in db'.runs && Continues(db.runs[id], db'.runs[id])
  }

  lemma StepGrows(w: World, s: Step)
    requires Enabled(w, s)
    ensures Grows(w.db, Apply(w, s).db)
  {
  }

  // ---------- Every step keeps the store ----------

  lemma EntriesExtend(outbox: seq<Entry>, e: Entry)
    ensures HasEntry(outbox + [e], e.run)
    ensures forall id :: HasEntry(outbox, id) ==> HasEntry(outbox + [e], id)
  {
    assert (outbox + [e])[|outbox|] == e;
    forall id | HasEntry(outbox, id) ensures HasEntry(outbox + [e], id) {
      var i :| 0 <= i < |outbox| && outbox[i].run == id;
      assert (outbox + [e])[i].run == id;
    }
  }

  lemma InsertKeepsStore(db: Db, id: Id, key: string, hash: string, e: Experiment)
    requires StoreOk(db) && id !in db.runs && !KeyTaken(db.runs, key)
    ensures StoreOk(Insert(db, id, key, hash, e))
  {
    EntriesExtend(db.outbox, Entry(id, false));
    assert forall other :: other in db.runs ==> !Owns(db.runs, other, key);
  }

  lemma MarkKeepsStore(db: Db, id: Id)
    requires StoreOk(db)
    ensures StoreOk(db.(outbox := Marked(db.outbox, id)))
  {
    var outbox := Marked(db.outbox, id);
    assert forall i :: 0 <= i < |db.outbox| ==> outbox[i].run == db.outbox[i].run;
    forall other | other in db.runs ensures HasEntry(outbox, other) {
      var i :| 0 <= i < |db.outbox| && db.outbox[i].run == other;
      assert outbox[i].run == other;
    }
  }

  lemma StepKeepsStore(w: World, s: Step)
    requires StoreOk(w.db) && Enabled(w, s)
    ensures StoreOk(Apply(w, s).db)
  {
    match s
    case Submit(newId, key, e, d, _, _, _) =>
      if Normalizable(e) && !KeyTaken(w.db.runs, key) {
        InsertKeepsStore(w.db, newId, key, d.hash, Normal(e));
      }
    case Mark(r) => MarkKeepsStore(w.db, w.relays[r].batch[0]);
    case _ =>
  }

  lemma FinishedRunOk(versions: set<Dataset>, d: Dataset, run: Run, run': Run)
    requires RunOk(versions, run) && d in versions && Finishes(d, run, run')
    ensures RunOk(versions, run')
  {
  }

  lemma NewRunOk(versions: set<Dataset>, key: string, hash: string, e: Experiment)
    requires Normalizable(e)
    ensures RunOk(versions, NewRun(key, hash, Normal(e)))
  {
    NormalIsIdempotent(e);
  }

  lemma StepKeepsRuns(w: World, s: Step)
    requires RunsOk(w) && Enabled(w, s)
    ensures RunsOk(Apply(w, s))
  {
    hide RunOk, IsNormal, Normal;
    match s
    case Submit(_, _, e, _, _, _, _) =>
      if Normalizable(e) { NewRunOk(w.versions, s.key, s.d.hash, e); }
    case Process(k, d, run, _) =>
      FinishedRunOk(w.versions, d, w.db.runs[w.workers[k].id], run);
    case _ =>
  }

  // ---------- No step loses a job ----------

  lemma DecidedStays(w: World, s: Step, id: Id)
    requires Enabled(w, s) && Decided(w.db, id)
    ensures Decided(Apply(w, s).db, id)
  {
    StepGrows(w, s);
    assert Continues(w.db.runs[id], Apply(w, s).db.runs[id]);
  }

  // Only the acknowledgement of a decided run removes a message.
  lemma MessageStays(w: World, s: Step, m: nat)
    requires QueueOk(w) && WorkersOk(w) && Enabled(w, s) && m in w.queue && !Decided(w.db, w.queue[m].id)
    ensures m in Apply(w, s).queue && Apply(w, s).queue[m].id == w.queue[m].id
  {
    if s.Ack? {
      assert WorkerOk(w, w.workers[s.k]);
    }
  }

  // A job that is safe stays safe.
  lemma SafeStays(w: World, s: Step, id: Id)
    requires QueueOk(w) && WorkersOk(w) && Enabled(w, s) && Safe(w, id)
    ensures Safe(Apply(w, s), id)
  {
    if Decided(w.db, id) {
      DecidedStays(w, s, id);
    } else {
      var m :| m in w.queue && w.queue[m].id == id;
      MessageStays(w, s, m);
    }
  }

  lemma PublishIsSafe(w: World, id: Id)
    requires QueueOk(w) && id in w.db.runs
    ensures InQueue(AfterPublish(w, id).queue, id) || Decided(w.db, id)
    ensures forall other :: InQueue(w.queue, other) ==> InQueue(AfterPublish(w, id).queue, other)
  {
    var queue := AfterPublish(w, id).queue;
    if id !in w.recent {
      assert w.next in queue && queue[w.next].id == id;
    } else {
      assert Safe(w, id);
    }
    forall other | InQueue(w.queue, other) ensures InQueue(queue, other) {
      var m :| m in w.queue && w.queue[m].id == other;
      assert m in queue && queue[m].id == other;
    }
  }

  // Messages carry the IDs of stored runs; only a publish adds one.
  lemma MessagesStay(w: World, s: Step, m: nat)
    requires QueueOk(w) && Enabled(w, s) && m in Apply(w, s).queue
    ensures w.next <= Apply(w, s).next
    ensures m in w.queue ==> Apply(w, s).queue[m].id == w.queue[m].id
    ensures m !in w.queue ==>
      s.Publish? && m == w.next < Apply(w, s).next && Apply(w, s).queue[m].id == w.relays[s.r].batch[0]
  {
    if s.Publish? {
      var w' := AfterPublish(w, w.relays[s.r].batch[0]);
      assert Apply(w, s).queue == w'.queue && Apply(w, s).next == w'.next;
    }
  }

  lemma NewlyRecent(w: World, s: Step, id: Id)
    requires Enabled(w, s) && id in Apply(w, s).recent && id !in w.recent
    ensures s.Publish? && w.relays[s.r].batch[0] == id
  {
  }

  lemma PublishedIsSafe(w: World, s: Step)
    requires QueueOk(w) && BatchesOk(w) && Enabled(w, s) && s.Publish?
    ensures Safe(Apply(w, s), w.relays[s.r].batch[0])
  {
    var id := w.relays[s.r].batch[0];
    assert id in w.db.runs;
    PublishIsSafe(w, id);
    assert Apply(w, s).queue == AfterPublish(w, id).queue && Apply(w, s).db == w.db;
  }

  lemma StepKeepsQueue(w: World, s: Step)
    requires QueueOk(w) && WorkersOk(w) && BatchesOk(w) && Enabled(w, s)
    ensures QueueOk(Apply(w, s))
  {
    var w' := Apply(w, s);
    StepGrows(w, s);
    forall m | m in w'.queue ensures m < w'.next && w'.queue[m].id in w'.db.runs {
      MessagesStay(w, s, m);
    }
    forall id | id in w'.recent ensures Safe(w', id) {
      if id in w.recent {
        SafeStays(w, s, id);
      } else {
        NewlyRecent(w, s, id);
        PublishedIsSafe(w, s);
      }
    }
  }

  lemma WorkerMoves(w: World, s: Step, k: nat)
    requires Enabled(w, s) && k in Apply(w, s).workers && !(k in w.workers && w.workers[k] == Apply(w, s).workers[k])
    ensures s.Fetch? || s.Process? || s.Skip?
    ensures s.Fetch? ==> s.k == k && Apply(w, s).workers[k] == Worker(s.m, w.queue[s.m].id, false)
    ensures s.Process? || s.Skip? ==>
      s.k == k && k in w.workers && Apply(w, s).workers[k] == w.workers[k].(handled := true)
                                      && Decided(Apply(w, s).db, w.workers[k].id)
  {
  }

  lemma StepKeepsWorkers(w: World, s: Step)
    requires QueueOk(w) && WorkersOk(w) && Enabled(w, s)
    ensures WorkersOk(Apply(w, s))
  {
    var w' := Apply(w, s);
    StepGrows(w, s);
    forall k | k in w'.workers ensures WorkerOk(w', w'.workers[k]) {
      var worker := w'.workers[k];
      if !(k in w.workers && w.workers[k] == worker) {
        WorkerMoves(w, s, k);
      }
      assert worker.m < w.next && (worker.m in w.queue ==> w.queue[worker.m].id == worker.id);
      if worker.m in w'.queue {
        MessagesStay(w, s, worker.m);
      }
      if worker.handled && k in w.workers && w.workers[k] == worker {
        assert Decided(w.db, worker.id);
        assert Continues(w.db.runs[worker.id], w'.db.runs[worker.id]);
      }
      NextStays(w, s);
    }
  }

  lemma NextStays(w: World, s: Step)
    requires Enabled(w, s)
    ensures w.next <= Apply(w, s).next
  {
  }

  lemma RelayMoves(w: World, s: Step, r: nat)
    requires Enabled(w, s) && r in Apply(w, s).relays && !(r in w.relays && w.relays[r] == Apply(w, s).relays[r])
    ensures Apply(w, s).relays[r].batch != []
    ensures Apply(w, s).relays[r].sent ==> s.Publish? && s.r == r && Apply(w, s).relays[r].batch == w.relays[r].batch
    ensures (s.Select? && Apply(w, s).relays[r].batch == First(Pending(w.db.outbox), BATCH))
            || (r in w.relays && (Apply(w, s).relays[r].batch == w.relays[r].batch
                                  || (w.relays[r].batch != []
                                    && Apply(w, s).relays[r].batch == w.relays[r].batch[1..])))
  {
  }

  lemma StepKeepsRelays(w: World, s: Step)
    requires QueueOk(w) && WorkersOk(w) && RelaysOk(w) && BatchesOk(w) && Enabled(w, s)
    ensures RelaysOk(Apply(w, s))
  {
    var w' := Apply(w, s);
    forall r | r in w'.relays
      ensures w'.relays[r].batch != [] && (w'.relays[r].sent ==> Safe(w', w'.relays[r].batch[0]))
    {
      if r in w.relays && w.relays[r] == w'.relays[r] {
        if w.relays[r].sent { SafeStays(w, s, w.relays[r].batch[0]); }
      } else {
        RelayMoves(w, s, r);
        if w'.relays[r].sent { PublishedIsSafe(w, s); }
      }
    }
  }

  lemma {:induction false} PendingIsUnpublished(outbox: seq<Entry>)
    ensures forall id :: id in Pending(outbox) <==> Unpublished(outbox, id)
  {
    if outbox != [] {
      var init, last := outbox[..|outbox| - 1], outbox[|outbox| - 1];
      PendingIsUnpublished(init);
      forall id ensures id in Pending(outbox) <==> Unpublished(outbox, id) {
        if Unpublished(init, id) {
          var i :| 0 <= i < |init| && init[i] == Entry(id, false);
          assert outbox[i] == Entry(id, false);
        }
        if Unpublished(outbox, id) {
          var i :| 0 <= i < |outbox| && outbox[i] == Entry(id, false);
          assert i < |init| ==> init[i] == Entry(id, false);
        }
        if last == Entry(id, false) {
          assert outbox[|outbox| - 1] == Entry(id, false);
        }
      }
    }
  }

  lemma SelectedAreRuns(db: Db)
    requires StoreOk(db)
    ensures forall i :: 0 <= i < |First(Pending(db.outbox), BATCH)| ==> First(Pending(db.outbox), BATCH)[i] in db.runs
  {
    PendingIsUnpublished(db.outbox);
    forall i | 0 <= i < |First(Pending(db.outbox), BATCH)| ensures First(Pending(db.outbox), BATCH)[i] in db.runs {
      assert First(Pending(db.outbox), BATCH)[i] in Pending(db.outbox);
    }
  }

  lemma StepKeepsBatches(w: World, s: Step)
    requires StoreOk(w.db) && BatchesOk(w) && Enabled(w, s)
    ensures BatchesOk(Apply(w, s))
  {
    var w' := Apply(w, s);
    StepGrows(w, s);
    SelectedAreRuns(w.db);
    forall r, i | r in w'.relays && 0 <= i < |w'.relays[r].batch| ensures w'.relays[r].batch[i] in w'.db.runs {
      if !(r in w.relays && w.relays[r] == w'.relays[r]) {
        RelayMoves(w, s, r);
      }
    }
  }

  lemma NewRunIsUnpublished(w: World, s: Step, id: Id)
    requires Enabled(w, s) && id in Apply(w, s).db.runs && id !in w.db.runs
    ensures Unpublished(Apply(w, s).db.outbox, id)
  {
    var outbox := Apply(w, s).db.outbox;
    assert outbox == w.db.outbox + [Entry(id, false)];
    assert outbox[|w.db.outbox|] == Entry(id, false);
  }

  // Only the mark of a published job takes its entry out of the unpublished ones.
  lemma UnpublishedStays(w: World, s: Step, id: Id)
    requires Enabled(w, s) && Unpublished(w.db.outbox, id)
    ensures Unpublished(Apply(w, s).db.outbox, id) || (s.Mark? && w.relays[s.r].batch[0] == id)
  {
    var i :| 0 <= i < |w.db.outbox| && w.db.outbox[i] == Entry(id, false);
    if !(s.Mark? && w.relays[s.r].batch[0] == id) {
      assert Apply(w, s).db.outbox[i] == Entry(id, false);
    }
  }

  lemma StepKeepsJobs(w: World, s: Step)
    requires QueueOk(w) && WorkersOk(w) && RelaysOk(w) && NothingLost(w) && Enabled(w, s)
    ensures NothingLost(Apply(w, s))
  {
    var w' := Apply(w, s);
    forall id | id in w'.db.runs ensures Unpublished(w'.db.outbox, id) || Safe(w', id) {
      if id !in w.db.runs {
        NewRunIsUnpublished(w, s, id);
      } else if Safe(w, id) {
        SafeStays(w, s, id);
      } else {
        UnpublishedStays(w, s, id);
      }
    }
  }

  lemma AnswerStays(db: Db, db': Db, a: Answer)
    requires Grows(db, db') && AnswerOk(db, a)
    ensures AnswerOk(db', a)
  {
    match a.reply
    case Conflict =>
      var id :| Owns(db.runs, id, a.key) && db.runs[id].experiment != Normal(a.experiment);
      assert Owns(db'.runs, id, a.key);
    case _ =>
  }

  lemma NewAnswerOk(db: Db, newId: Id, key: string, hash: string, e: Experiment, db': Db, reply: EnqueueReply)
    requires newId !in db.runs && Enqueues(db, newId, key, hash, e, db', reply)
    ensures AnswerOk(db', Answer(key, e, reply))
  {
  }

  lemma StepKeepsAnswers(w: World, s: Step)
    requires AnswersOk(w) && Enabled(w, s)
    ensures AnswersOk(Apply(w, s))
  {
    var w' := Apply(w, s);
    StepGrows(w, s);
    forall a | a in w'.answers ensures AnswerOk(w'.db, a) {
      if a in w.answers {
        AnswerStays(w.db, w'.db, a);
      } else {
        NewAnswerOk(w.db, s.newId, s.key, s.d.hash, s.e, s.db, s.reply);
      }
    }
  }

  lemma StepKeepsInv(w: World, s: Step)
    requires Inv(w) && Enabled(w, s)
    ensures Inv(Apply(w, s))
  {
    StepKeepsStore(w, s);
    StepKeepsRuns(w, s);
    StepKeepsQueue(w, s);
    StepKeepsWorkers(w, s);
    StepKeepsRelays(w, s);
    StepKeepsBatches(w, s);
    StepKeepsJobs(w, s);
    StepKeepsAnswers(w, s);
  }

  lemma RunStep(run: seq<World>, i: nat)
    requires IsRun(run) && i + 1 < |run|
    ensures StepTo(run[i], run[i + 1])
  {
    hide StepTo;
  }

  lemma NextKeepsInv(w: World, w': World)
    requires Inv(w) && StepTo(w, w')
    ensures Inv(w') && Grows(w.db, w'.db) && w'.versions == w.versions
  {
    hide Inv, Grows;
    var s: Step :| Enabled(w, s) && w' == Apply(w, s);
    StepKeepsInv(w, s);
    StepGrows(w, s);
  }

  lemma {:induction false} RunKeepsInv(run: seq<World>, n: nat)
    requires IsRun(run) && n < |run|
    ensures Inv(run[n])
  {
    if n > 0 {
      hide IsRun, StepTo, Inv;
      RunKeepsInv(run, n - 1);
      RunStep(run, n - 1);
      NextKeepsInv(run[n - 1], run[n]);
    }
  }
}
