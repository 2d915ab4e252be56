/**
 What the replay pipeline guarantees over every run: no job is lost, every job takes effect exactly
 once, and enqueueing is idempotent.
 */
module JobSafety {
  import opened Base
  import opened Experiments
  import opened Replay
  import opened ReplayLaws
  import opened JobStore
  import opened JobProtocol
  import opened JobInvariant

  // A queued run always has an unpublished outbox entry or a message in the queue.
  lemma NoJobIsLost(run: seq<World>, n: nat, id: Id)
    requires IsRun(run) && n < |run| && id in run[n].db.runs && run[n].db.runs[id].status == Queued
    ensures Unpublished(run[n].db.outbox, id) || InQueue(run[n].queue, id)
  {
    RunKeepsInv(run, n);
    assert Unpublished(run[n].db.outbox, id) || Safe(run[n], id);
  }

  lemma RunGrows(run: seq<World>, j: nat)
    requires IsRun(run) && j + 1 < |run|
    ensures Grows(run[j].db, run[j + 1].db)
  {
    hide Inv, Grows, IsRun, StepTo;
    RunKeepsInv(run, j);
    RunStep(run, j);
    NextKeepsInv(run[j], run[j + 1]);
  }

  lemma {:induction false} GrowthIsTransitive(run: seq<World>, i: nat, j: nat, id: Id)
    requires forall k :: 0 <= k < |run| - 1 ==> Grows(run[k].db, run[k + 1].db)
    requires i <= j < |run| && id in run[i].db.runs
    ensures id in run[j].db.runs && Continues(run[i].db.runs[id], run[j].db.runs[id])
    decreases j - i
  {
    if i < j {
      GrowthIsTransitive(run, i, j - 1, id);
      assert Grows(run[j - 1].db, run[j - 1 + 1].db);
    }
  }

  // However often its message is delivered, a run leaves `queued` at most once and never changes again.
  lemma EffectsHappenOnce(run: seq<World>, i: nat, j: nat, id: Id)
    requires IsRun(run) && i <= j < |run| && id in run[i].db.runs
    ensures id in run[j].db.runs && Continues(run[i].db.runs[id], run[j].db.runs[id])
  {
    forall k | 0 <= k < |run| - 1 ensures Grows(run[k].db, run[k + 1].db) {
      RunGrows(run, k);
    }
    GrowthIsTransitive(run, i, j, id);
  }

  // A completed run holds the replay of its stored experiment on a dataset of its version.
  lemma CompletedHoldsTheReplay(run: seq<World>, n: nat, id: Id) returns (d: Dataset)
    requires IsRun(run) && n < |run| && id in run[n].db.runs && run[n].db.runs[id].status == Completed
    ensures var r := run[n].db.runs[id];
            && d in run[n].versions && d.hash == r.hash && r.result.Some?
            && IsReplay(d, r.experiment, r.result.value) && r.result.value.experiment == r.experiment
            && forall other :: IsReplay(d, r.experiment, other) ==> other == r.result.value
  {
    RunKeepsInv(run, n);
    var r := run[n].db.runs[id];
    assert RunOk(run[n].versions, r);
    d :| d in run[n].versions && d.hash == r.hash && IsReplay(d, r.experiment, r.result.value);
    forall other | IsReplay(d, r.experiment, other) ensures other == r.result.value {
      ReplayIsUnique(d, r.experiment, other, r.result.value);
    }
  }

  function Baseline(): Experiment {
    Normal(Experiment("", None, 0))
  }

  lemma BaselineIsNormal()
    ensures IsNormal(Baseline())
  {
    hide Trim, ByteLength, OneLine;
    BaselineNames();
    NormalIsIdempotent(Experiment("", None, 0));
  }

  lemma BaselineNames()
    ensures Trim("") == "" && GoodName("Baseline")
  {
    BaselineIsGood();
  }

  // On datasets whose baseline replays, a run fails only because its dataset version differs from a
  // worker's.
  lemma FailsOnlyOnMismatch(run: seq<World>, n: nat, id: Id) returns (d: Dataset)
    requires IsRun(run) && n < |run| && id in run[n].db.runs && run[n].db.runs[id].status == Failed
    requires forall v :: v in run[n].versions ==> Replays(v, Baseline())
    ensures run[n].db.runs[id].failure == Some(HashMismatch)
    ensures d in run[n].versions && d.hash != run[n].db.runs[id].hash
  {
    RunKeepsInv(run, n);
    var r := run[n].db.runs[id];
    assert RunOk(run[n].versions, r);
    d :| d in run[n].versions && if r.failure.value.HashMismatch? then d.hash != r.hash
                                 else d.hash == r.hash && !Replays(d, r.experiment);
    BaselineIsNormal();
    SuccessIgnoresExperiment(d, Baseline(), r.experiment);
  }

  // ---------- One version ----------

  // Every stored run names the version of a dataset that the platform runs with.
  ghost predicate VersionsOk(w: World) {
    forall id :: id in w.db.runs ==> exists d :: d in w.versions && d.hash == w.db.runs[id].hash
  }

  // A new run names the version it was enqueued with.
  lemma NewRunsNameTheirVersion(w: World, s: Step, id: Id)
    requires Enabled(w, s) && id in Apply(w, s).db.runs
    ensures || (id in w.db.runs && Apply(w, s).db.runs[id].hash == w.db.runs[id].hash)
            || (s.Submit? && s.d in w.versions && Apply(w, s).db.runs[id].hash == s.d.hash)
  {
    hide Normalizable, Normal, Replays, IsReplay, KeyTaken, Pending, First, Marked;
  }

  lemma StepKeepsVersions(w: World, w': World)
    requires VersionsOk(w) && StepTo(w, w')
    ensures VersionsOk(w') && w'.versions == w.versions
  {
    hide Enabled, Apply;
    var s: Step :| Enabled(w, s) && w' == Apply(w, s);
    VersionsKept(w, s);
    forall id | id in w'.db.runs ensures exists d :: d in w'.versions && d.hash == w'.db.runs[id].hash {
      NewRunsNameTheirVersion(w, s, id);
    }
  }

  lemma VersionsKept(w: World, s: Step)
    requires Enabled(w, s)
    ensures Apply(w, s).versions == w.versions
  {
    hide Finishes, Enqueues, Pending, First, Marked;
  }

  lemma {:induction false} HashesAreVersions(run: seq<World>, n: nat)
    requires IsRun(run) && n < |run|
    ensures VersionsOk(run[n]) && run[n].versions == run[0].versions
  {
    hide StepTo, VersionsOk;
    if n > 0 {
      HashesAreVersions(run, n - 1);
      RunStep(run, n - 1);
      StepKeepsVersions(run[n - 1], run[n]);
    } else {
      NothingStored(run[0]);
    }
  }

  lemma NothingStored(w: World)
    requires Initial(w)
    ensures VersionsOk(w)
  {
  }

  // With a single version, and a dataset whose baseline replays, no run ever fails: every run is queued or
  // completed with its replay on that dataset, under the experiment it was enqueued with.
  lemma OneVersionNeverFails(run: seq<World>, n: nat, id: Id, d: Dataset)
    requires IsRun(run) && n < |run| && id in run[n].db.runs
    requires run[0].versions == {d} && Replays(d, Baseline())
    ensures var r := run[n].db.runs[id];
            && r.hash == d.hash && r.status != Failed
            && (r.status == Completed ==> r.result.Some? && IsReplay(d, r.experiment, r.result.value))
  {
    HashesAreVersions(run, n);
    RunKeepsInv(run, n);
    assert RunOk(run[n].versions, run[n].db.runs[id]);
    if run[n].db.runs[id].status == Failed {
      var other := FailsOnlyOnMismatch(run, n, id);
    }
  }

  lemma StoreIsOk(run: seq<World>, n: nat)
    requires IsRun(run) && n < |run|
    ensures StoreOk(run[n].db) && AnswersOk(run[n])
  {
    hide IsRun, StoreOk, AnswersOk;
    RunKeepsInv(run, n);
  }

  lemma OwnerIsUnique(db: Db, id: Id, key: string)
    requires StoreOk(db) && Owns(db.runs, id, key)
    ensures forall other :: Owns(db.runs, other, key) ==> other == id
  {
  }

  // A key that was ever answered owns one run, whether or not its creating call was answered, and every
  // answered call with the key is given that run or, exactly when the stored experiment differs, a conflict.
  lemma EnqueueIsIdempotent(run: seq<World>, n: nat, a: Answer) returns (id: Id)
    requires IsRun(run) && n < |run| && a in run[n].answers && Normalizable(a.experiment)
    ensures Owns(run[n].db.runs, id, a.key) && forall other :: Owns(run[n].db.runs, other, a.key) ==> other == id
    ensures forall b :: b in run[n].answers && b.key == a.key && Normalizable(b.experiment) ==>
              b.reply == if run[n].db.runs[id].experiment == Normal(b.experiment) then Queue(id) else Conflict
  {
    hide IsRun, StoreOk;
    StoreIsOk(run, n);
    var runs := run[n].db.runs;
    assert AnswerOk(run[n].db, a);
    id :| Owns(runs, id, a.key);
    OwnerIsUnique(run[n].db, id, a.key);
    forall b | b in run[n].answers && b.key == a.key && Normalizable(b.experiment)
      ensures b.reply == if runs[id].experiment == Normal(b.experiment) then Queue(id) else Conflict
    {
      assert AnswerOk(run[n].db, b);
    }
  }

  // A call that repeats a stored key and experiment after a lost reply is given the stored run.
  lemma RetryFindsTheRun(run: seq<World>, n: nat, s: Step, id: Id)
    requires IsRun(run) && n < |run| && s.Submit? && Enabled(run[n], s) && Normalizable(s.e)
    requires Owns(run[n].db.runs, id, s.key) && run[n].db.runs[id].experiment == Normal(s.e)
    ensures s.reply == Queue(id) && Apply(run[n], s).db == run[n].db
  {
    RunKeepsInv(run, n);
  }

  // Every key owns one run, and every run one outbox entry.
  lemma KeysAndEntriesAreUnique(run: seq<World>, n: nat, id: Id)
    requires IsRun(run) && n < |run| && id in run[n].db.runs
    ensures exists i :: 0 <= i < |run[n].db.outbox| && run[n].db.outbox[i].run == id
                        && forall j :: 0 <= j < |run[n].db.outbox| && run[n].db.outbox[j].run == id ==> j == i
    ensures forall other :: Owns(run[n].db.runs, other, run[n].db.runs[id].key) ==> other == id
  {
    RunKeepsInv(run, n);
    assert HasEntry(run[n].db.outbox, id);
    var i :| 0 <= i < |run[n].db.outbox| && run[n].db.outbox[i].run == id;
    assert forall j :: 0 <= j < |run[n].db.outbox| && run[n].db.outbox[j].run == id ==> j == i;
  }
}
