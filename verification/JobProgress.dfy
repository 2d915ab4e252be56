/**
 Progress without faults: every publish, mark, fetch, process and acknowledge step decreases a measure,
 and some step is always possible until all runs are decided and the queue is empty.
 */
module JobProgress {
  import opened Base
  import opened Experiments
  import opened Replay
  import opened JobStore
  import opened JobProtocol
  import opened JobInvariant
  import opened JobDrain

  // The steps of one relay and any workers when nothing fails and no new work arrives.
  predicate Healthy(s: Step) {
    match s
    case Select(r) => r == 0
    case Publish(r, confirmed) => r == 0 && confirmed
    case Mark(r) => r == 0
    case Fetch(_, _) => true
    case Process(_, _, _, confirmed) => confirmed
    case Skip(_) => true
    case Ack(_) => true
    case _ => false
  }

  ghost predicate RelayCalm(relays: map<nat, Relay>, outbox: seq<Entry>) {
    && (forall r :: r in relays ==> r == 0)
    && (0 in relays ==>
          && (forall i, j :: 0 <= i < j < |relays[0].batch| ==> relays[0].batch[i] != relays[0].batch[j])
          && (forall i :: 0 <= i < |relays[0].batch| ==> Unpublished(outbox, relays[0].batch[i])))
  }

  ghost predicate Attended(workers: map<nat, Worker>, m: nat) {
    exists k :: k in workers && workers[k].m == m
  }

  // Every held message has exactly one worker.
  ghost predicate WorkersCalm(queue: map<nat, Msg>, workers: map<nat, Worker>) {
    && (forall k :: k in workers ==> workers[k].m in queue && queue[workers[k].m].held)
    && (forall k, l :: k in workers && l in workers && workers[k].m == workers[l].m ==> k == l)
    && (forall m :: m in queue && queue[m].held ==> Attended(workers, m))
  }

  // No leftovers of a fault: one relay at most, on unpublished jobs, and no message without its worker.
  ghost predicate Calm(w: World) {
    RelayCalm(w.relays, w.db.outbox) && WorkersCalm(w.queue, w.workers)
  }

  ghost function Waiting(db: Db): set<Id> {
    set id | id in db.runs && Unpublished(db.outbox, id)
  }

  function Handled(workers: map<nat, Worker>): set<nat> {
    set k | k in workers && workers[k].handled
  }

  predicate Sent(relays: map<nat, Relay>) {
    0 in relays && relays[0].sent
  }

  // A waiting job still needs its publish (1), its mark (1) and its fetch, processing and acknowledgement
  // (3); a publish that has not been marked has spent four of these, three of them on the queue.
  ghost function Cost(w: World): int {
    5 * |Waiting(w.db)| - (if Sent(w.relays) then 4 else 0)
    + 3 * |w.queue.Keys| - |w.workers.Keys| - |Handled(w.workers)|
  }

  ghost predicate Finished(w: World) {
    w.queue == map[] && forall id :: id in w.db.runs ==> w.db.runs[id].status != Queued && !Unpublished(w.db.outbox, id)
  }

  // ---------- The measure ----------

  lemma {:induction false} Injection(workers: map<nat, Worker>, keys: set<nat>, queue: set<nat>)
    requires keys <= workers.Keys
    requires forall k :: k in keys ==> workers[k].m in queue
    requires forall k, l :: k in keys && l in keys && workers[k].m == workers[l].m ==> k == l
    ensures |keys| <= |queue|
    decreases |keys|
  {
    if keys != {} {
      var k :| k in keys;
      Injection(workers, keys - {k}, queue - {workers[k].m});
    }
  }

  lemma {:induction false} SubsetSize(a: set<nat>, b: set<nat>)
    requires a <= b
    ensures |a| <= |b|
  {
    if a != {} {
      var x :| x in a;
      SubsetSize(a - {x}, b - {x});
    }
  }

  lemma CostIsNatural(w: World)
    requires RelaysOk(w) && BatchesOk(w) && Calm(w)
    ensures Cost(w) >= 0
  {
    Injection(w.workers, w.workers.Keys, w.queue.Keys);
    SubsetSize(Handled(w.workers), w.workers.Keys);
    if Sent(w.relays) {
      assert w.relays[0].batch[0] in w.db.runs;
      assert w.relays[0].batch[0] in Waiting(w.db);
    }
  }

  // ---------- Publishing and marking ----------

  lemma MarkedUnpublished(outbox: seq<Entry>, id: Id)
    ensures forall other :: Unpublished(Marked(outbox, id), other) <==> Unpublished(outbox, other) && other != id
  {
    var marked := Marked(outbox, id);
    forall other ensures Unpublished(marked, other) <==> Unpublished(outbox, other) && other != id {
      if Unpublished(marked, other) {
        var i :| 0 <= i < |marked| && marked[i] == Entry(other, false);
        assert outbox[i] == Entry(other, false);
      }
      if Unpublished(outbox, other) && other != id {
        var i :| 0 <= i < |outbox| && outbox[i] == Entry(other, false);
        assert marked[i] == Entry(other, false);
      }
    }
  }

  lemma AddedMessageKeepsCalm(queue: map<nat, Msg>, workers: map<nat, Worker>, m: nat, id: Id)
    requires WorkersCalm(queue, workers) && m !in queue
    ensures WorkersCalm(queue[m := Msg(id, false)], workers)
    ensures |queue[m := Msg(id, false)].Keys| == |queue.Keys| + 1
  {
    assert queue[m := Msg(id, false)].Keys == queue.Keys + {m};
  }

  lemma PublishEffect(w: World)
    requires Enabled(w, Publish(0, true))
    ensures var w', id := Apply(w, Publish(0, true)), w.relays[0].batch[0];
            && w'.db == w.db && w'.workers == w.workers && w'.relays == w.relays[0 := w.relays[0].(sent := true)]
            && w'.queue == if id in w.recent then w.queue else w.queue[w.next := Msg(id, false)]
  {
  }

  lemma PublishDecreases(w: World)
    requires QueueOk(w) && Calm(w) && Enabled(w, Publish(0, true))
    ensures Calm(Apply(w, Publish(0, true))) && Cost(Apply(w, Publish(0, true))) < Cost(w)
  {
    PublishEffect(w);
    assert w.next !in w.queue;
    AddedMessageKeepsCalm(w.queue, w.workers, w.next, w.relays[0].batch[0]);
  }

  lemma MarkKeepsCalm(relays: map<nat, Relay>, outbox: seq<Entry>)
    requires RelayCalm(relays, outbox) && 0 in relays && relays[0].batch != []
    ensures RelayCalm(Advance(relays, 0), Marked(outbox, relays[0].batch[0])) && !Sent(Advance(relays, 0))
  {
    MarkedUnpublished(outbox, relays[0].batch[0]);
  }

  lemma MarkServes(db: Db, id: Id)
    requires id in Waiting(db)
    ensures |Waiting(db.(outbox := Marked(db.outbox, id)))| == |Waiting(db)| - 1
  {
    MarkedUnpublished(db.outbox, id);
    assert Waiting(db.(outbox := Marked(db.outbox, id))) == Waiting(db) - {id};
  }

  lemma MarkDecreases(w: World)
    requires BatchesOk(w) && Calm(w) && Enabled(w, Mark(0))
    ensures Calm(Apply(w, Mark(0))) && Cost(Apply(w, Mark(0))) < Cost(w)
  {
    assert w.relays[0].batch[0] in w.db.runs;
    MarkKeepsCalm(w.relays, w.db.outbox);
    MarkServes(w.db, w.relays[0].batch[0]);
  }

  // ---------- Fetching, processing and acknowledging ----------

  lemma NewWorkerCounts(workers: map<nat, Worker>, k: nat, worker: Worker)
    requires k !in workers && !worker.handled
    ensures |workers[k := worker].Keys| == |workers.Keys| + 1 && Handled(workers[k := worker]) == Handled(workers)
  {
    assert workers[k := worker].Keys == workers.Keys + {k};
  }

  lemma FetchKeepsCalm(queue: map<nat, Msg>, workers: map<nat, Worker>, k: nat, worker: Worker)
    requires WorkersCalm(queue, workers) && k !in workers && worker.m in queue && !queue[worker.m].held
    ensures WorkersCalm(queue[worker.m := queue[worker.m].(held := true)], workers[k := worker])
  {
    var queue', workers' := queue[worker.m := queue[worker.m].(held := true)], workers[k := worker];
    forall n | n in queue' && queue'[n].held ensures Attended(workers', n) {
      if n == worker.m {
        assert workers'[k].m == n;
      } else {
        var l :| l in workers && workers[l].m == n;
        assert workers'[l].m == n;
      }
    }
  }

  lemma FetchDecreases(w: World, k: nat, m: nat)
    requires Calm(w) && Enabled(w, Fetch(k, m))
    ensures Calm(Apply(w, Fetch(k, m))) && Cost(Apply(w, Fetch(k, m))) < Cost(w)
  {
    var worker := Worker(m, w.queue[m].id, false);
    FetchKeepsCalm(w.queue, w.workers, k, worker);
    NewWorkerCounts(w.workers, k, worker);
    assert w.queue[m := w.queue[m].(held := true)].Keys == w.queue.Keys;
  }

  lemma HandlingKeepsCalm(queue: map<nat, Msg>, workers: map<nat, Worker>, k: nat)
    requires WorkersCalm(queue, workers) && k in workers && !workers[k].handled
    ensures var workers' := workers[k := workers[k].(handled := true)];
            && WorkersCalm(queue, workers') && workers'.Keys == workers.Keys
            && |Handled(workers')| == |Handled(workers)| + 1
  {
    var workers' := workers[k := workers[k].(handled := true)];
    assert Handled(workers') == Handled(workers) + {k};
    forall m | m in queue && queue[m].held ensures Attended(workers', m) {
      var l :| l in workers && workers[l].m == m;
      assert workers'[l].m == m;
    }
  }

  // Processing decides a run but moves neither outbox nor queue.
  lemma HandleEffect(w: World, s: Step)
    requires Enabled(w, s) && Healthy(s) && (s.Process? || s.Skip?)
    ensures var w' := Apply(w, s);
            && w'.db.runs.Keys == w.db.runs.Keys && w'.db.outbox == w.db.outbox && w'.relays == w.relays
            && w'.queue == w.queue
            && s.k in w.workers && !w.workers[s.k].handled
            && w'.workers == w.workers[s.k := w.workers[s.k].(handled := true)]
  {
  }

  lemma HandleDecreases(w: World, s: Step)
    requires Calm(w) && Enabled(w, s) && Healthy(s) && (s.Process? || s.Skip?)
    ensures Calm(Apply(w, s)) && Cost(Apply(w, s)) < Cost(w)
  {
    HandleEffect(w, s);
    HandlingKeepsCalm(w.queue, w.workers, s.k);
    assert Waiting(Apply(w, s).db) == Waiting(w.db);
  }

  lemma AckKeepsCalm(queue: map<nat, Msg>, workers: map<nat, Worker>, k: nat)
    requires WorkersCalm(queue, workers) && k in workers && workers[k].handled
    ensures var queue', workers' := queue - {workers[k].m}, workers - {k};
            && WorkersCalm(queue', workers') && |queue'.Keys| == |queue.Keys| - 1
            && |workers'.Keys| == |workers.Keys| - 1 && |Handled(workers')| == |Handled(workers)| - 1
  {
    var m, queue', workers' := workers[k].m, queue - {workers[k].m}, workers - {k};
    assert queue'.Keys == queue.Keys - {m} && workers'.Keys == workers.Keys - {k};
    assert Handled(workers') == Handled(workers) - {k};
    forall n | n in queue' && queue'[n].held ensures Attended(workers', n) {
      var l :| l in workers && workers[l].m == n;
      assert workers'[l].m == n;
    }
  }

  lemma AckDecreases(w: World, k: nat)
    requires Calm(w) && Enabled(w, Ack(k))
    ensures Calm(Apply(w, Ack(k))) && Cost(Apply(w, Ack(k))) < Cost(w)
  {
    AckKeepsCalm(w.queue, w.workers, k);
  }

  // Every fault-free step but the relay's query decreases the measure.
  lemma HealthyStepsDecrease(w: World, s: Step)
    requires QueueOk(w) && BatchesOk(w) && Calm(w) && Enabled(w, s) && Healthy(s) && !s.Select?
    ensures Calm(Apply(w, s)) && Cost(Apply(w, s)) < Cost(w)
  {
    match s
    case Publish(_, _) => PublishDecreases(w);
    case Mark(_) => MarkDecreases(w);
    case Fetch(k, m) => FetchDecreases(w, k, m);
    case Process(_, _, _, _) => HandleDecreases(w, s);
    case Skip(_) => HandleDecreases(w, s);
    case Ack(k) => AckDecreases(w, k);
  }

  lemma FirstIsCalm(outbox: seq<Entry>)
    requires DistinctRuns(outbox)
    ensures RelayCalm(Begin(map[], 0, First(Pending(outbox), BATCH)), outbox)
  {
    PendingIsUnpublished(outbox);
    PendingDistinct(outbox);
    var ids, batch := Pending(outbox), First(Pending(outbox), BATCH);
    forall i | 0 <= i < |batch| ensures Unpublished(outbox, batch[i]) {
      assert batch[i] == ids[i] && ids[i] in ids;
    }
  }

  // The query costs nothing.
  lemma SelectKeepsCalm(w: World)
    requires StoreOk(w.db) && Calm(w) && w.relays == map[]
    ensures var w' := Apply(w, Select(0)); Calm(w') && Cost(w') == Cost(w)
  {
    hide WorkersCalm;
    SelectEffect(w);
    FirstIsCalm(w.db.outbox);
  }

  lemma SelectEffect(w: World)
    requires w.relays == map[]
    ensures var w' := Apply(w, Select(0));
            && w'.relays == Begin(map[], 0, First(Pending(w.db.outbox), BATCH)) && !Sent(w'.relays)
            && w'.db == w.db && w'.queue == w.queue && w'.workers == w.workers && w'.versions == w.versions
  {
  }

  // It makes a publish possible when a job is waiting.
  lemma SelectEnables(w: World)
    requires w.relays == map[] && Waiting(w.db) != {}
    ensures Enabled(Apply(w, Select(0)), Publish(0, true))
  {
    PendingIsUnpublished(w.db.outbox);
    var id :| id in Waiting(w.db);
    assert id in Pending(w.db.outbox);
  }

  // ---------- A step is always possible ----------

  // Some replay result exists for every queued run.
  lemma SomeResult(d: Dataset, run: Run) returns (run': Run)
    ensures Finishes(d, run, run')
  {
    var e := Normal(run.experiment);
    if run.hash != d.hash {
      run' := run.(status := Failed, failure := Some(HashMismatch), result := None);
    } else if Normalizable(run.experiment) && Replays(d, e) {
      var r := SomeReplay(d, e);
      run' := run.(status := Completed, failure := None, result := Some(r));
    } else {
      run' := run.(status := Failed, failure := Some(ReplayFailed(InvalidExperiment(BadName))), result := None);
    }
  }

  // The replay built entry by entry.
  lemma {:induction false} SomeReplay(d: Dataset, e: Experiment) returns (r: ReplayResult)
    ensures IsReplay(d, e, r)
  {
    var snapshots, decisions := [], [];
    var i := 0;
    while i < |d.observations|
      invariant 0 <= i <= |d.observations| && |snapshots| == i * |d.sleeves| && Records(d, e, snapshots, decisions)
    {
      ghost var start := |snapshots|;
      for j := 0 to |d.sleeves|
        invariant |snapshots| == start + j && Records(d, e, snapshots, decisions)
      {
        var snap := CellSnapshot(d, e, i, j);
        var decision := Decide(d.sleeves[j], snap, e, d.observations[i].at, i, |snapshots|);
        RecordsExtends(d, e, snapshots, decisions, i, j, snap, decision);
        snapshots, decisions := snapshots + [snap], decisions + [decision];
      }
      i := i + 1;
    }
    r := ReplayResult(d.hash, e, snapshots, decisions);
  }

  lemma NextStep(w: World) returns (s: Step)
    requires Inv(w) && Calm(w) && w.versions != {}
    requires 0 in w.relays || w.queue != map[]
    ensures Healthy(s) && Enabled(w, s) && !s.Select?
  {
    if 0 in w.relays {
      s := if w.relays[0].sent then Mark(0) else Publish(0, true);
    } else if w.workers != map[] {
      var k :| k in w.workers;
      s := WorkerStep(w, k);
    } else {
      var m :| m in w.queue;
      s := Fetch(0, m);
    }
  }

  lemma WorkerStep(w: World, k: nat) returns (s: Step)
    requires QueueOk(w) && WorkersOk(w) && Calm(w) && w.versions != {} && k in w.workers
    ensures Healthy(s) && Enabled(w, s) && !s.Select?
  {
    var worker := w.workers[k];
    assert WorkerOk(w, worker);
    if worker.handled {
      s := Ack(k);
    } else if w.db.runs[worker.id].status == Queued {
      var d :| d in w.versions;
      var run := SomeResult(d, w.db.runs[worker.id]);
      s := Process(k, d, run, true);
    } else {
      s := Skip(k);
    }
  }

  lemma EmptyIsFinished(w: World)
    requires Inv(w) && w.queue == map[] && Waiting(w.db) == {}
    ensures Finished(w)
  {
    forall id | id in w.db.runs ensures w.db.runs[id].status != Queued && !Unpublished(w.db.outbox, id) {
      assert id !in Waiting(w.db);
      assert Unpublished(w.db.outbox, id) || Safe(w, id);
    }
  }

  ghost predicate HealthyRun(run: seq<World>) {
    forall i :: 0 <= i < |run| - 1 ==> HealthyStep(run[i], run[i + 1])
  }

  ghost predicate HealthyStep(w: World, w': World) {
    exists s: Step :: Healthy(s) && Enabled(w, s) && w' == Apply(w, s)
  }

  lemma IdleWithoutRelay(w: World)
    requires Calm(w) && 0 !in w.relays
    ensures w.relays == map[]
  {
    assert forall r :: r !in w.relays;
  }

  lemma CheaperStep(w: World, s: Step)
    requires Inv(w) && Calm(w) && Enabled(w, s) && Healthy(s) && !s.Select?
    ensures var w' := Apply(w, s);
            HealthyStep(w, w') && Inv(w') && Calm(w') && w'.versions == w.versions && Cost(w') < Cost(w)
  {
    HealthyStepsDecrease(w, s);
    StepKeepsInv(w, s);
    VersionsStay(w, s);
  }

  lemma SelectStep(w: World)
    requires Inv(w) && Calm(w) && w.relays == map[] && Waiting(w.db) != {}
    ensures var w' := Apply(w, Select(0));
            && HealthyStep(w, w') && Inv(w') && Calm(w') && w'.versions == w.versions && Cost(w') == Cost(w)
            && Enabled(w', Publish(0, true))
  {
    SelectEnables(w);
    SelectKeeps(w);
  }

  lemma SelectKeeps(w: World)
    requires Inv(w) && Calm(w) && w.relays == map[]
    ensures var w' := Apply(w, Select(0));
            HealthyStep(w, w') && Inv(w') && Calm(w') && w'.versions == w.versions && Cost(w') == Cost(w)
  {
    hide Calm, Cost;
    assert StoreOk(w.db);
    hide Inv;
    SelectKeepsCalm(w);
    StepKeepsInv(w, Select(0));
    VersionsStay(w, Select(0));
  }

  lemma VersionsStay(w: World, s: Step)
    requires Enabled(w, s)
    ensures Apply(w, s).versions == w.versions
  {
  }

  lemma Prepend(w: World, run: seq<World>)
    requires |run| > 0 && HealthyStep(w, run[0]) && HealthyRun(run)
    ensures HealthyRun([w] + run)
  {
    forall i | 0 <= i < |[w] + run| - 1 ensures HealthyStep(([w] + run)[i], ([w] + run)[i + 1]) {
      if i > 0 {
        assert HealthyStep(run[i - 1], run[i - 1 + 1]);
      }
    }
  }

  lemma ActiveStep(w: World) returns (w': World)
    requires Inv(w) && Calm(w) && w.versions != {} && (w.queue != map[] || 0 in w.relays)
    ensures HealthyStep(w, w') && Inv(w') && Calm(w') && w'.versions == w.versions && Cost(w') < Cost(w)
  {
    var s := NextStep(w);
    CheaperStep(w, s);
    w' := Apply(w, s);
  }

  lemma IdleSteps(w: World) returns (w1: World, w2: World)
    requires Inv(w) && Calm(w) && 0 !in w.relays && Waiting(w.db) != {}
    ensures HealthyStep(w, w1) && HealthyStep(w1, w2) && Inv(w2) && Calm(w2) && w2.versions == w.versions
      && Cost(w2) < Cost(w)
  {
    IdleWithoutRelay(w);
    SelectStep(w);
    w1 := Apply(w, Select(0));
    CheaperStep(w1, Publish(0, true));
    w2 := Apply(w1, Publish(0, true));
  }

  // Without faults and new work, the pipeline decides every run and empties outbox and queue, in at most
  // twice as many steps as the measure counts.
  lemma {:induction false} PipelineDrains(w: World) returns (run: seq<World>)
    requires Inv(w) && Calm(w) && w.versions != {}
    ensures |run| > 0 && run[0] == w && HealthyRun(run) && Finished(run[|run| - 1])
    ensures |run| - 1 <= 2 * Cost(w)
    decreases Cost(w)
  {
    CostIsNatural(w);
    if w.queue != map[] || 0 in w.relays {
      var w' := ActiveStep(w);
      CostIsNatural(w');
      run := PipelineDrains(w');
      Prepend(w, run);
      run := [w] + run;
    } else if Waiting(w.db) != {} {
      var w1, w2 := IdleSteps(w);
      CostIsNatural(w2);
      run := PipelineDrains(w2);
      Prepend(w1, run);
      Prepend(w, [w1] + run);
      run := [w] + ([w1] + run);
    } else {
      EmptyIsFinished(w);
      run := [w];
    }
  }
}
