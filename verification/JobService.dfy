/**
 The enqueue call, the relay pass and the worker loop as programs over the store and the queue, run one
 at a time with faults at any operation.  Each program keeps a trace of the worlds it passes through, and
 the trace is always a run of the pipeline's state machine.
 */
module JobService {
  import opened Experiments
  import opened Faults
  import opened Replay
  import opened JobStore
  import opened JobProtocol

  class Service {
    const platform: Platform
    var queue: map<nat, Msg>
    var next: nat
    var recent: set<Id>
    ghost var world: World
    ghost var trace: seq<World>

    ghost predicate Running(relays: map<nat, Relay>, workers: map<nat, Worker>)
      reads this, platform
    {
      && IsRun(trace) && trace[|trace| - 1] == world
      && world.db == platform.Contents() && world.queue == queue && world.next == next && world.recent == recent
      && world.relays == relays && world.workers == workers
    }

    ghost predicate Valid()
      reads this, platform
    {
      Running(map[], map[])
    }

    constructor (ghost versions: set<Dataset>)
      ensures Valid() && fresh(platform) && world.versions == versions
    {
      platform := new Platform();
      queue, next, recent := map[], 0, {};
      world := World(Db(map[], []), map[], 0, {}, map[], map[], [], versions);
      trace := [World(Db(map[], []), map[], 0, {}, map[], map[], [], versions)];
    }

    // One step of the state machine.
    ghost method Take(s: Step)
      requires IsRun(trace) && trace[|trace| - 1] == world && Enabled(world, s)
      modifies this`world, this`trace
      ensures world == Apply(old(world), s) && trace == old(trace) + [world] && IsRun(trace)
    {
      ghost var successor := Apply(world, s);
      assert StepTo(world, successor);
      trace := trace + [successor];
      world := successor;
    }

    // `answered` when the reply of the commit reaches the caller.
    method Enqueue(newId: Id, key: string, e: Experiment, d: Dataset, answered: bool) returns (reply: EnqueueReply)
      requires Valid() && newId !in platform.runs && d in world.versions
      modifies this`world, this`trace, platform
      ensures Valid() && old(trace) <= trace && world.versions == old(world).versions
      ensures Enqueues(old(platform.Contents()), newId, key, d.hash, e, platform.Contents(), reply)
      ensures answered ==> Answer(key, e, reply) in world.answers
    {
      reply := platform.Enqueue(newId, key, e, d.hash);
      Take(Submit(newId, key, e, d, platform.Contents(), reply, answered));
    }

    method Publish(id: Id)
      modifies this`queue, this`next, this`recent
      ensures recent == old(recent) + {id}
      ensures if id in old(recent) then queue == old(queue) && next == old(next)
              else queue == old(queue)[old(next) := Msg(id, false)] && next == old(next) + 1
    {
      if id !in recent {
        queue, next := queue[next := Msg(id, false)], next + 1;
      }
      recent := recent + {id};
    }

    // Publishes the first job of a relay's batch; an error ends the pass.
    method PublishFirst(ids: seq<Id>, fault: Fault)
      requires ids != [] && Running(map[0 := JobProtocol.Relay(ids, false)], map[])
      modifies this`queue, this`next, this`recent, this`world, this`trace
      ensures Running(if fault == Fine then map[0 := JobProtocol.Relay(ids, true)] else map[], map[])
      ensures old(trace) <= trace && world.versions == old(world).versions
      ensures recent == if fault == Before then old(recent) else old(recent) + {ids[0]}
    {
      if fault == Before {
        Take(DropRelay(0));
      } else {
        Publish(ids[0]);
        Take(JobProtocol.Publish(0, fault == Fine));
      }
      assert world.relays == if fault == Fine then map[0 := JobProtocol.Relay(ids, true)] else map[];
    }

    // Marks the published first job; an error ends the pass.
    method MarkFirst(ids: seq<Id>, fault: Fault)
      requires ids != [] && Running(map[0 := JobProtocol.Relay(ids, true)], map[])
      modifies this`world, this`trace, platform
      ensures Running(if fault == Fine then Begin(map[], 0, ids[1..]) else map[], map[])
      ensures old(trace) <= trace && world.versions == old(world).versions && platform.runs == old(platform.runs)
      ensures platform.outbox == if fault == Before then old(platform.outbox) else Marked(old(platform.outbox), ids[0])
    {
      if fault != Before {
        platform.MarkPublished(ids[0]);
        Take(Mark(0));
        assert world.relays == Begin(map[], 0, ids[1..]);
      }
      if fault != Fine && 0 in world.relays {
        Take(DropRelay(0));
      }
      assert fault != Fine ==> world.relays == map[];
    }

    // Publishes and marks the first job of a relay's batch.
    method Relay(ids: seq<Id>, publish: Fault, mark: Fault) returns (ok: bool, marked: bool)
      requires ids != [] && Running(Begin(map[], 0, ids), map[])
      modifies this`queue, this`next, this`recent, this`world, this`trace, platform
      ensures Running(if ok then Begin(map[], 0, ids[1..]) else map[], map[])
      ensures old(trace) <= trace && world.versions == old(world).versions && platform.runs == old(platform.runs)
      ensures ok <==> publish == Fine && mark == Fine
      ensures marked <==> publish == Fine && mark != Before
      ensures platform.outbox == if marked then Marked(old(platform.outbox), ids[0]) else old(platform.outbox)
      ensures recent == if publish == Before then old(recent) else old(recent) + {ids[0]}
    {
      ok, marked := publish == Fine && mark == Fine, publish == Fine && mark != Before;
      PublishFirst(ids, publish);
      if publish == Fine {
        MarkFirst(ids, mark);
      }
    }

    // The part of a pass that publishes and marks `ids`; k of them end up marked.
    method RelayAll(ids: seq<Id>, faults: nat -> Fault) returns (ok: bool, ghost k: nat)
      requires Running(Begin(map[], 0, ids), map[])
      modifies this`queue, this`next, this`recent, this`world, this`trace, platform
      ensures Valid() && old(trace) <= trace && world.versions == old(world).versions
        && platform.runs == old(platform.runs)
      ensures k <= |ids| && platform.outbox == MarkedAll(old(platform.outbox), ids[..k])
      ensures if ok then k == |ids| else exists n: nat :: n < 2 * |ids| && faults(n) != Fine
      ensures old(recent) <= recent && forall id :: id in ids[..k] ==> id in recent
    {
      k := 0;
      for i := 0 to |ids|
        invariant i == k && Running(Begin(map[], 0, ids[i..]), map[])
        invariant old(trace) <= trace && world.versions == old(world).versions && platform.runs == old(platform.runs)
        invariant platform.outbox == MarkedAll(old(platform.outbox), ids[..i])
        invariant old(recent) <= recent && forall id :: id in ids[..i] ==> id in recent
      {
        var marked;
        SliceStep(ids, i);
        ok, marked := Relay(ids[i..], faults(2 * i), faults(2 * i + 1));
        if marked { k := k + 1; }
        if !ok { return; }
      }
      assert ids[|ids|..] == [];
      ok := true;
    }

    // One pass of the relay over the oldest pending entries; operation n turns out as `faults(n)` says.
    method Dispatch(faults: nat -> Fault) returns (ok: bool, ghost k: nat)
      requires Valid()
      modifies this`queue, this`next, this`recent, this`world, this`trace, platform
      ensures Valid() && old(trace) <= trace && world.versions == old(world).versions
        && platform.runs == old(platform.runs)
      ensures var batch := First(Pending(old(platform.outbox)), BATCH);
              && k <= |batch| && platform.outbox == MarkedAll(old(platform.outbox), batch[..k])
              && (if ok then k == |batch| else exists n: nat :: n < 2 * |batch| && faults(n) != Fine)
              && forall id :: id in batch[..k] ==> id in recent
      ensures old(recent) <= recent
    {
      var ids := platform.PendingBatch();
      Take(Select(0));
      ok, k := RelayAll(ids, faults);
    }

    // A worker fetches message m, processes its job with its dataset, and acknowledges it, or hands it
    // back.  A lost acknowledgement leaves the message held until the queue hands it out again.
    method Work(m: nat, d: Dataset, processing: Fault, acknowledged: bool) returns (done: bool)
      requires Valid() && m in queue && !queue[m].held && d in world.versions
      modifies this`queue, this`world, this`trace, platform
      ensures Valid() && old(trace) <= trace && world.versions == old(world).versions
        && platform.outbox == old(platform.outbox)
      ensures var (id, runs) := (old(queue)[m].id, old(platform.runs));
              if id in runs && runs[id].status == Queued && processing != Before
              then id in platform.runs && Finishes(d, runs[id], platform.runs[id])
                && platform.runs == runs[id := platform.runs[id]]
              else platform.runs == runs
      ensures done <==> processing == Fine && old(queue)[m].id in old(platform.runs)
      ensures queue == if done && acknowledged then old(queue) - {m} else old(queue)[m := Msg(old(queue)[m].id, done)]
    {
      var id := queue[m].id;
      queue := queue[m := queue[m].(held := true)];
      Take(Fetch(0, m));
      assert world.workers == map[0 := Worker(m, id, false)];
      done := Handle(m, id, d, processing);
      Finish(m, id, done, done && acknowledged);
    }

    method Handle(m: nat, id: Id, d: Dataset, processing: Fault) returns (done: bool)
      requires Running(map[], map[0 := Worker(m, id, false)]) && d in world.versions
      modifies this`world, this`trace, platform
      ensures old(trace) <= trace && world.versions == old(world).versions && platform.outbox == old(platform.outbox)
      ensures done <==> processing == Fine && id in old(platform.runs)
      ensures if id in old(platform.runs) && old(platform.runs)[id].status == Queued && processing != Before
              then id in platform.runs && Finishes(d, old(platform.runs)[id], platform.runs[id])
                   && platform.runs == old(platform.runs)[id := platform.runs[id]]
              else platform.runs == old(platform.runs)
      ensures Running(map[], world.workers)
      ensures world.workers == map[] || exists handled :: world.workers == map[0 := Worker(m, id, handled)]
      ensures done ==> world.workers == map[0 := Worker(m, id, true)]
    {
      done := id in platform.runs && processing == Fine;
      if id in platform.runs && processing != Before {
        var queued := platform.runs[id].status == Queued;
        var _ := platform.Process(id, d);
        if queued {
          Take(JobProtocol.Process(0, d, platform.runs[id], processing == Fine));
          assert world.workers == if processing == Fine then map[0 := Worker(m, id, true)] else map[];
        } else {
          Take(Skip(0));
          assert world.workers == map[0 := Worker(m, id, true)];
        }
      }
    }

    // The end of a worker's turn: acknowledge, hand back, or vanish with the message held.
    method Finish(m: nat, id: Id, done: bool, acknowledged: bool)
      requires m in queue && queue[m].held && (acknowledged ==> done)
      requires Running(map[], world.workers) && (done ==> world.workers == map[0 := Worker(m, id, true)])
      requires world.workers == map[] || exists handled :: world.workers == map[0 := Worker(m, id, handled)]
      modifies this`queue, this`world, this`trace
      ensures Valid() && old(trace) <= trace && world.versions == old(world).versions
      ensures queue == if acknowledged then old(queue) - {m} else old(queue)[m := old(queue)[m].(held := done)]
    {
      if acknowledged {
        queue := queue - {m};
        Take(Ack(0));
      } else {
        if world.workers != map[] {
          Take(DropWorker(0));
        }
        if !done {
          queue := queue[m := queue[m].(held := false)];
          Take(Redeliver(m));
        }
      }
      assert world.workers == map[];
    }

    // The queue hands a message out again, or forgets an ID it recognized as a repeat.
    method Expire(m: nat)
      requires Valid() && m in queue
      modifies this`queue, this`world, this`trace
      ensures Valid() && old(trace) <= trace && queue == old(queue)[m := old(queue)[m].(held := false)]
    {
      queue := queue[m := queue[m].(held := false)];
      Take(Redeliver(m));
    }

    method ForgetRepeat(id: Id)
      requires Valid()
      modifies this`recent, this`world, this`trace
      ensures Valid() && old(trace) <= trace && recent == old(recent) - {id}
    {
      recent := recent - {id};
      Take(Forget(id));
    }
  }

  lemma SliceStep(ids: seq<Id>, i: nat)
    requires i < |ids|
    ensures ids[i..] != [] && ids[i..][0] == ids[i] && ids[i..][1..] == ids[i + 1..]
    ensures ids[..i + 1] == ids[..i] + [ids[i]] && ids[..i + 1][..i] == ids[..i]
  {
  }
}
