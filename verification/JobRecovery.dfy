/**
 Draining from any reachable state: whatever crashes and lost acknowledgements have left behind, dropping
 the stranded relays and workers and handing out the held messages again gives a state that drains, and
 every fault-free schedule from it does a bounded amount of work.
 */
module JobRecovery {
  import opened JobProtocol
  import opened JobInvariant
  import opened JobProgress

  // What is left of a fault goes away: its relay or worker is gone, or its message is handed out again.
  predicate Recovers(s: Step) {
    s.DropRelay? || s.DropWorker? || s.Redeliver?
  }

  ghost predicate RecoveryStep(w: World, w': World) {
    exists s: Step :: Recovers(s) && Enabled(w, s) && w' == Apply(w, s)
  }

  ghost predicate RecoveryRun(run: seq<World>) {
    forall i :: 0 <= i < |run| - 1 ==> RecoveryStep(run[i], run[i + 1])
  }

  function Held(queue: map<nat, Msg>): set<nat> {
    set m | m in queue && queue[m].held
  }

  function Leftovers(w: World): nat {
    |w.relays.Keys| + |w.workers.Keys| + |Held(w.queue)|
  }

  lemma NothingLeftIsCalm(w: World)
    requires Leftovers(w) == 0
    ensures Calm(w)
  {
    assert w.relays.Keys == {} && w.workers.Keys == {} && Held(w.queue) == {};
    assert forall r :: r !in w.relays;
    assert forall k :: k !in w.workers;
    assert forall m :: m in w.queue ==> m !in Held(w.queue);
  }

  // One leftover at a time.
  ghost predicate Clears(w: World, s: Step) {
    && Recovers(s) && Enabled(w, s)
    && var w' := Apply(w, s); Leftovers(w') == Leftovers(w) - 1 && w'.db == w.db && w'.versions == w.versions
  }

  lemma DropRelayClears(w: World, r: nat)
    requires r in w.relays
    ensures Clears(w, DropRelay(r))
  {
    assert (w.relays - {r}).Keys == w.relays.Keys - {r};
  }

  lemma DropWorkerClears(w: World, k: nat)
    requires k in w.workers
    ensures Clears(w, DropWorker(k))
  {
    assert (w.workers - {k}).Keys == w.workers.Keys - {k};
  }

  lemma ReleaseCounts(queue: map<nat, Msg>, m: nat)
    requires m in queue && queue[m].held
    ensures |Held(queue[m := queue[m].(held := false)])| == |Held(queue)| - 1
  {
    assert Held(queue[m := queue[m].(held := false)]) == Held(queue) - {m};
  }

  lemma RedeliverClears(w: World, m: nat)
    requires m in w.queue && w.queue[m].held
    ensures Clears(w, Redeliver(m))
  {
    ReleaseCounts(w.queue, m);
    hide Held;
  }

  lemma RecoverOne(w: World) returns (s: Step)
    requires Leftovers(w) > 0
    ensures Clears(w, s)
  {
    hide Clears;
    if w.relays.Keys != {} {
      var r :| r in w.relays;
      s := DropRelay(r);
      DropRelayClears(w, r);
    } else if w.workers.Keys != {} {
      var k :| k in w.workers;
      s := DropWorker(k);
      DropWorkerClears(w, k);
    } else {
      var m :| m in Held(w.queue);
      s := Redeliver(m);
      RedeliverClears(w, m);
    }
  }

  lemma Prepend(w: World, run: seq<World>)
    requires |run| > 0 && RecoveryStep(w, run[0]) && RecoveryRun(run)
    ensures RecoveryRun([w] + run)
  {
    hide RecoveryStep;
    forall i | 0 <= i < |[w] + run| - 1 ensures RecoveryStep(([w] + run)[i], ([w] + run)[i + 1]) {
      if i > 0 {
        assert RecoveryStep(run[i - 1], run[i - 1 + 1]);
      }
    }
  }

  lemma RecoveryKeeps(w: World, s: Step)
    requires Inv(w) && Recovers(s) && Enabled(w, s)
    ensures Inv(Apply(w, s)) && RecoveryStep(w, Apply(w, s))
  {
    hide Inv;
    StepKeepsInv(w, s);
  }

  // Every state that keeps the invariant recovers, losing nothing.
  lemma {:induction false} EveryStateRecovers(w: World) returns (run: seq<World>)
    requires Inv(w)
    ensures |run| == Leftovers(w) + 1 && run[0] == w && RecoveryRun(run)
    ensures var w' := run[|run| - 1]; Inv(w') && Calm(w') && w'.db == w.db && w'.versions == w.versions
    decreases Leftovers(w)
  {
    hide Inv, Calm, RecoveryStep, Leftovers;
    if Leftovers(w) == 0 {
      NothingLeftIsCalm(w);
      run := [w];
    } else {
      var s := RecoverOne(w);
      RecoveryKeeps(w, s);
      var rest := EveryStateRecovers(Apply(w, s));
      Prepend(w, rest);
      run := [w] + rest;
    }
  }

  // From any state of any run, with no more faults and no new work, the pipeline recovers and then decides
  // every run, marks every outbox entry and empties the queue.
  lemma EveryRunDrains(run: seq<World>, n: nat) returns (recovery: seq<World>, drain: seq<World>)
    requires IsRun(run) && n < |run| && run[n].versions != {}
    ensures |recovery| > 0 && recovery[0] == run[n] && RecoveryRun(recovery) && recovery[|recovery| - 1].db == run[n].db
    ensures |drain| > 0 && drain[0] == recovery[|recovery| - 1] && HealthyRun(drain) && Finished(drain[|drain| - 1])
    ensures |recovery| == Leftovers(run[n]) + 1 && |drain| - 1 <= 2 * Cost(drain[0])
  {
    hide IsRun, Inv, Calm, RecoveryRun, HealthyRun, Finished, Cost, Leftovers;
    RunKeepsInv(run, n);
    recovery := EveryStateRecovers(run[n]);
    drain := PipelineDrains(recovery[|recovery| - 1]);
  }

  // ---------- Every fault-free schedule ----------

  ghost predicate HealthyPath(run: seq<World>, steps: seq<Step>) {
    && |run| == |steps| + 1
    && forall i :: 0 <= i < |steps| ==>
      Healthy(steps[i]) && Enabled(run[i], steps[i]) && run[i + 1] == Apply(run[i], steps[i])
  }

  // The steps that do something; a query alone does not.
  function Work(steps: seq<Step>): nat {
    if steps == [] then 0 else Work(steps[..|steps| - 1]) + if steps[|steps| - 1].Select? then 0 else 1
  }

  lemma HealthyKeeps(w: World, s: Step)
    requires Inv(w) && Calm(w) && Healthy(s) && Enabled(w, s)
    ensures var w' := Apply(w, s);
            Inv(w') && Calm(w') && Cost(w') + (if s.Select? then 0 else 1) <= Cost(w)
  {
    hide Inv, Calm, Cost;
    if s.Select? {
      NoRelay(w);
      SelectKeeps(w);
    } else {
      CheaperStep(w, s);
    }
  }

  lemma NoRelay(w: World)
    requires Calm(w) && Enabled(w, Select(0))
    ensures w.relays == map[]
  {
    IdleWithoutRelay(w);
  }

  // Whatever the schedule, fault-free steps do at most as much work as the measure counts.
  lemma {:induction false} EveryScheduleIsBounded(run: seq<World>, steps: seq<Step>)
    requires HealthyPath(run, steps) && Inv(run[0]) && Calm(run[0])
    ensures var w := run[|run| - 1]; Inv(w) && Calm(w) && 0 <= Cost(w) && Work(steps) + Cost(w) <= Cost(run[0])
    decreases |steps|
  {
    hide Inv, Calm, Cost;
    if steps == [] {
      CostIsBounded(run[0]);
    } else {
      var n := |steps| - 1;
      assert HealthyPath(run[..n + 1], steps[..n]);
      EveryScheduleIsBounded(run[..n + 1], steps[..n]);
      HealthyKeeps(run[n], steps[n]);
      CostIsBounded(run[n + 1]);
    }
  }

  lemma CostIsBounded(w: World)
    requires Inv(w) && Calm(w)
    ensures Cost(w) >= 0
  {
    hide Calm, Cost;
    CostIsNatural(w);
  }

  // Only a query is possible.
  ghost predicate Stuck(w: World) {
    forall s: Step :: Healthy(s) && Enabled(w, s) ==> s.Select?
  }

  // A schedule that can do nothing more, with no job waiting for the relay, has finished.
  lemma StuckIsFinished(w: World)
    requires Inv(w) && Calm(w) && w.versions != {} && Stuck(w) && Waiting(w.db) == {}
    ensures Finished(w)
  {
    hide Inv, Calm, Finished;
    if 0 in w.relays || w.queue != map[] {
      var s := NextStep(w);
      assert false;
    }
    EmptyIsFinished(w);
  }
}
