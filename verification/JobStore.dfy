/**
 The durable side of the replay pipeline: runs, the outbox, and the transactions that enqueue a run,
 publish the outbox and process a job.
 */
module JobStore {
  import opened Base
  import opened Experiments
  import opened Replay

  type Id = nat

  datatype RunStatus = Queued | Completed | Failed

  datatype Failure = HashMismatch | ReplayFailed(error: ReplayError)

  datatype Run = Run(key: string, status: RunStatus, hash: string, experiment: Experiment,
                     result: Option<ReplayResult>, failure: Option<Failure>)

  datatype Entry = Entry(run: Id, published: bool)

  // The outbox is kept in creation order.
  datatype Db = Db(runs: map<Id, Run>, outbox: seq<Entry>)

  // ---------- Enqueue ----------

  datatype EnqueueReply = Queue(id: Id) | Conflict | Invalid

  predicate Owns(runs: map<Id, Run>, id: Id, key: string) {
    id in runs && runs[id].key == key
  }

  predicate KeyTaken(runs: map<Id, Run>, key: string) {
    exists id :: id in runs && Owns(runs, id, key)
  }

  function NewRun(key: string, hash: string, e: Experiment): Run {
    Run(key, Queued, hash, e, None, None)
  }

  function Insert(db: Db, id: Id, key: string, hash: string, e: Experiment): Db {
    Db(db.runs[id := NewRun(key, hash, e)], db.outbox + [Entry(id, false)])
  }

  // One enqueue transaction: what it stores and what it answers.
  ghost predicate Enqueues(db: Db, newId: Id, key: string, hash: string, e: Experiment, db': Db, reply: EnqueueReply) {
    if !Normalizable(e) then db' == db && reply == Invalid
    else if KeyTaken(db.runs, key) then
      && db' == db
      && exists id ::
           Owns(db.runs, id, key) && reply == if db.runs[id].experiment == Normal(e) then Queue(id) else Conflict
    else db' == Insert(db, newId, key, hash, Normal(e)) && reply == Queue(newId)
  }

  // ---------- Process ----------

  // The outcome of processing a queued run with a worker's dataset.
  ghost predicate Finishes(d: Dataset, run: Run, run': Run) {
    && run'.key == run.key && run'.hash == run.hash && run'.experiment == run.experiment
    && if run.hash != d.hash then
         run'.status == Failed && run'.failure == Some(HashMismatch) && run'.result == None
       else if Normalizable(run.experiment) && Replays(d, Normal(run.experiment)) then
         && run'.status == Completed && run'.failure == None && run'.result.Some?
         && IsReplay(d, Normal(run.experiment), run'.result.value)
       else
         run'.status == Failed && run'.failure.Some? && run'.failure.value.ReplayFailed? && run'.result == None
  }

  // ---------- Dispatch ----------

  const BATCH: nat := 20

  // The unpublished runs, oldest first.
  function Pending(outbox: seq<Entry>): seq<Id> {
    if outbox == [] then []
    else Pending(outbox[..|outbox| - 1]) + if outbox[|outbox| - 1].published then [] else [outbox[|outbox| - 1].run]
  }

  function First(ids: seq<Id>, n: nat): seq<Id> {
    if |ids| <= n then ids else ids[..n]
  }

  // Marks the entry of one run as published.
  function Marked(outbox: seq<Entry>, id: Id): seq<Entry> {
    seq(|outbox|, i requires 0 <= i < |outbox| => if outbox[i].run == id then Entry(id, true) else outbox[i])
  }

  function MarkedAll(outbox: seq<Entry>, ids: seq<Id>): seq<Entry> {
    if ids == [] then outbox else Marked(MarkedAll(outbox, ids[..|ids| - 1]), ids[|ids| - 1])
  }

  // ---------- The platform ----------

  class Platform {
    var runs: map<Id, Run>
    var outbox: seq<Entry>

    function Contents(): Db
      reads this
    {
      Db(runs, outbox)
    }

    constructor ()
      ensures Contents() == Db(map[], [])
    {
      runs, outbox := map[], [];
    }

    method Enqueue(newId: Id, key: string, e: Experiment, hash: string) returns (reply: EnqueueReply)
      requires newId !in runs
      modifies this`runs, this`outbox
      ensures Enqueues(old(Contents()), newId, key, hash, e, Contents(), reply)
      ensures reply == Queue(newId) ==>
        && newId in runs && runs[newId].key == key && runs[newId].hash == hash && runs[newId].experiment == Normal(e)
        && runs[newId].status == Queued && runs[newId].result == None && runs[newId].failure == None
        && runs == old(runs)[newId := runs[newId]] && outbox == old(outbox) + [Entry(newId, false)]
    {
      var normalized := NormalizeExperiment(e);
      if normalized.Err? {
        return Invalid;
      }
      if KeyTaken(runs, key) {
        var id :| id in runs && Owns(runs, id, key);
        return if runs[id].experiment == normalized.value then Queue(id) else Conflict;
      }
      runs := runs[newId := NewRun(key, hash, normalized.value)];
      outbox := outbox + [Entry(newId, false)];
      return Queue(newId);
    }

    // Processing under a row lock; true when the job may be acknowledged.
    method Process(id: Id, d: Dataset) returns (done: bool)
      modifies this`runs
      ensures done <==> id in old(runs)
      ensures !(id in old(runs) && old(runs[id]).status == Queued) ==> runs == old(runs)
      ensures id in old(runs) && old(runs[id]).status == Queued ==>
                id in runs && Finishes(d, old(runs[id]), runs[id]) && runs == old(runs)[id := runs[id]]
    {
      if id !in runs {
        return false;
      }
      if runs[id].status != Queued {
        return true;
      }
      var run := runs[id];
      var replay := ReplayExperiment(d, run.experiment);
      if run.hash != d.hash {
        runs := runs[id := run.(status := Failed, failure := Some(HashMismatch), result := None)];
      } else if replay.Err? {
        runs := runs[id := run.(status := Failed, failure := Some(ReplayFailed(replay.error)), result := None)];
      } else {
        runs := runs[id := run.(status := Completed, result := Some(replay.value), failure := None)];
      }
      return true;
    }

    method PendingBatch() returns (ids: seq<Id>)
      ensures ids == First(Pending(outbox), BATCH)
    {
      ids := [];
      for i := 0 to |outbox|
        invariant ids == First(Pending(outbox[..i]), BATCH)
      {
        assert outbox[..i + 1][..i] == outbox[..i];
        if !outbox[i].published && |ids| < BATCH {
          ids := ids + [outbox[i].run];
        }
      }
      assert outbox[..|outbox|] == outbox;
    }

    method MarkPublished(id: Id)
      modifies this`outbox
      ensures outbox == Marked(old(outbox), id)
    {
      outbox := Marked(outbox, id);
    }
  }
}
