/**
 The replay pipeline as a state machine: enqueuers, relays and workers run at once over the durable
 store and an at-least-once queue.  A relay or worker may be dropped between any two steps, a publish or
 a commit may take effect although it reported an error, and a message may be delivered again at any
 time until it is acknowledged.
 */
module JobProtocol {
  import opened Experiments
  import opened Replay
  import opened JobStore

  // A message in the queue; a held one has been handed to a worker.
  datatype Msg = Msg(id: Id, held: bool)

  // A relay working through a batch; `sent` when the first job of the batch has been published.
  datatype Relay = Relay(batch: seq<Id>, sent: bool)

  // A worker holding message m; `handled` when processing has returned without error.
  datatype Worker = Worker(m: nat, id: Id, handled: bool)

  // An answered enqueue call.
  datatype Answer = Answer(key: string, experiment: Experiment, reply: EnqueueReply)

  // `recent` holds the message IDs the queue still recognizes as repeats; `versions` are the datasets
  // that workers run with.
  datatype World = World(db: Db, queue: map<nat, Msg>, next: nat, recent: set<Id>,
                         relays: map<nat, Relay>, workers: map<nat, Worker>,
                         answers: seq<Answer>, versions: set<Dataset>)

  datatype Step =
    | Submit(newId: Id, key: string, e: Experiment, d: Dataset, db: Db, reply: EnqueueReply, answered: bool)
    | Select(r: nat)
    | Publish(r: nat, confirmed: bool)
    | Mark(r: nat)
    | DropRelay(r: nat)
    | Forget(id: Id)
    | Fetch(k: nat, m: nat)
    | Redeliver(m: nat)
    | Process(k: nat, d: Dataset, run: Run, confirmed: bool)
    | Skip(k: nat)
    | Ack(k: nat)
    | DropWorker(k: nat)

  ghost predicate Enabled(w: World, s: Step) {
    match s
    case Submit(newId, key, e, d, db, reply, _) =>
      newId !in w.db.runs && d in w.versions && Enqueues(w.db, newId, key, d.hash, e, db, reply)
    case Select(r) => r !in w.relays
    case Publish(r, _) => r in w.relays && w.relays[r].batch != [] && !w.relays[r].sent
    case Mark(r) => r in w.relays && w.relays[r].batch != [] && w.relays[r].sent
    case DropRelay(r) => r in w.relays
    case Forget(id) => true
    case Fetch(k, m) => k !in w.workers && m in w.queue && !w.queue[m].held
    case Redeliver(m) => m in w.queue
    case Process(k, d, run, _) =>
      && k in w.workers && !w.workers[k].handled && d in w.versions
      && w.workers[k].id in w.db.runs && w.db.runs[w.workers[k].id].status == Queued
      && Finishes(d, w.db.runs[w.workers[k].id], run)
    case Skip(k) =>
      && k in w.workers && !w.workers[k].handled
      && w.workers[k].id in w.db.runs && w.db.runs[w.workers[k].id].status != Queued
    case Ack(k) => k in w.workers && w.workers[k].handled
    case DropWorker(k) => k in w.workers
  }

  // The queue after a publish: a repeat of a recent ID adds no message.
  function AfterPublish(w: World, id: Id): World {
    if id in w.recent then w
    else w.(queue := w.queue[w.next := Msg(id, false)], next := w.next + 1, recent := w.recent + {id})
  }

  // A relay that finishes its batch goes idle.
  function Advance(relays: map<nat, Relay>, r: nat): map<nat, Relay>
    requires r in relays && relays[r].batch != []
  {
    if |relays[r].batch| == 1 then relays - {r} else relays[r := Relay(relays[r].batch[1..], false)]
  }

  function Begin(relays: map<nat, Relay>, r: nat, batch: seq<Id>): map<nat, Relay> {
    if batch == [] then relays else relays[r := Relay(batch, false)]
  }

  ghost function Apply(w: World, s: Step): World
    requires Enabled(w, s)
  {
    match s
    case Submit(_, key, e, _, db, reply, answered) =>
      w.(db := db, answers := if answered then w.answers + [Answer(key, e, reply)] else w.answers)
    case Select(r) => w.(relays := Begin(w.relays, r, First(Pending(w.db.outbox), BATCH)))
    case Publish(r, confirmed) =>
      AfterPublish(w, w.relays[r].batch[0]).(
        relays := if confirmed then w.relays[r := w.relays[r].(sent := true)] else w.relays - {r})
    case Mark(r) => w.(db := w.db.(outbox := Marked(w.db.outbox, w.relays[r].batch[0])), relays := Advance(w.relays, r))
    case DropRelay(r) => w.(relays := w.relays - {r})
    case Forget(id) => w.(recent := w.recent - {id})
    case Fetch(k, m) =>
      w.(queue := w.queue[m := w.queue[m].(held := true)],
         workers := w.workers[k := Worker(m, w.queue[m].id, false)])
    case Redeliver(m) => w.(queue := w.queue[m := w.queue[m].(held := false)])
    case Process(k, _, run, confirmed) =>
      w.(db := w.db.(runs := w.db.runs[w.workers[k].id := run]),
         workers := if confirmed then w.workers[k := w.workers[k].(handled := true)] else w.workers - {k})
    case Skip(k) => w.(workers := w.workers[k := w.workers[k].(handled := true)])
    case Ack(k) => w.(queue := w.queue - {w.workers[k].m}, workers := w.workers - {k})
    case DropWorker(k) => w.(workers := w.workers - {k})
  }

  ghost predicate Initial(w: World) {
    && w.db == Db(map[], []) && w.queue == map[] && w.recent == {}
    && w.relays == map[] && w.workers == map[] && w.answers == []
  }

  ghost predicate StepTo(w: World, w': World) {
    exists s: Step :: Enabled(w, s) && w' == Apply(w, s)
  }

  ghost predicate IsRun(run: seq<World>) {
    && |run| > 0 && Initial(run[0])
    && forall i :: 0 <= i < |run| - 1 ==> StepTo(run[i], run[i + 1])
  }
}
