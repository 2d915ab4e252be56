/**
 Draining the outbox: which jobs one pass of the relay publishes, and how many passes empty it.
 */
module JobDrain {
  import opened JobStore
  import opened JobInvariant

  // ---------- Batches ----------

  ghost predicate DistinctRuns(outbox: seq<Entry>) {
    forall i, j :: 0 <= i < j < |outbox| ==> outbox[i].run != outbox[j].run
  }

  function Without(ids: seq<Id>, id: Id): seq<Id> {
    if ids == [] then []
    else Without(ids[..|ids| - 1], id) + if ids[|ids| - 1] == id then [] else [ids[|ids| - 1]]
  }

  lemma {:induction false} MarkingRemoves(outbox: seq<Entry>, id: Id)
    ensures Pending(Marked(outbox, id)) == Without(Pending(outbox), id)
  {
    if outbox != [] {
      var init, last := outbox[..|outbox| - 1], outbox[|outbox| - 1];
      MarkingRemoves(init, id);
      assert Marked(outbox, id)[..|outbox| - 1] == Marked(init, id);
      assert Pending(init) + [] == Pending(init);
      assert (Pending(init) + [last.run])[..|Pending(init)|] == Pending(init);
    }
  }

  lemma {:induction false} WithoutAbsent(ids: seq<Id>, id: Id)
    requires id !in ids
    ensures Without(ids, id) == ids
  {
    if ids != [] {
      WithoutAbsent(ids[..|ids| - 1], id);
      assert ids == ids[..|ids| - 1] + [ids[|ids| - 1]];
    }
  }

  lemma {:induction false} WithoutFirst(ids: seq<Id>)
    requires ids != [] && forall i :: 0 < i < |ids| ==> ids[i] != ids[0]
    ensures Without(ids, ids[0]) == ids[1..]
  {
    if |ids| > 1 {
      var init := ids[..|ids| - 1];
      WithoutFirst(init);
      assert ids[1..] == init[1..] + [ids[|ids| - 1]];
    }
  }

  lemma {:induction false} PendingDistinct(outbox: seq<Entry>)
    requires DistinctRuns(outbox)
    ensures forall i, j :: 0 <= i < j < |Pending(outbox)| ==> Pending(outbox)[i] != Pending(outbox)[j]
  {
    if outbox != [] {
      var init, last := outbox[..|outbox| - 1], outbox[|outbox| - 1];
      PendingDistinct(init);
      PendingIsUnpublished(init);
      assert Pending(init) + [] == Pending(init);
      forall id | id in Pending(init) ensures id != last.run {
        assert Unpublished(init, id);
        var i :| 0 <= i < |init| && init[i] == Entry(id, false);
        assert outbox[i].run == id;
      }
      var all := Pending(outbox);
      assert all == if last.published then Pending(init) else Pending(init) + [last.run];
      forall i, j | 0 <= i < j < |all| ensures all[i] != all[j] {
        assert Pending(init)[i] in Pending(init);
      }
    }
  }

  lemma MarkedKeepsRuns(outbox: seq<Entry>, ids: seq<Id>)
    requires DistinctRuns(outbox)
    ensures DistinctRuns(MarkedAll(outbox, ids))
    ensures |MarkedAll(outbox, ids)| == |outbox| && forall i :: 0 <= i < |outbox| ==>
      MarkedAll(outbox, ids)[i].run == outbox[i].run
  {
  }

  // Marking the n oldest pending entries leaves exactly the others pending, in order.
  lemma {:induction false} MarkingOldest(outbox: seq<Entry>, n: nat)
    requires DistinctRuns(outbox) && n <= |Pending(outbox)|
    ensures Pending(MarkedAll(outbox, Pending(outbox)[..n])) == Pending(outbox)[n..]
  {
    if n > 0 {
      var ids := Pending(outbox);
      assert ids[..n][..n - 1] == ids[..n - 1];
      MarkingOldest(outbox, n - 1);
      var before := MarkedAll(outbox, ids[..n - 1]);
      MarkingRemoves(before, ids[n - 1]);
      PendingDistinct(outbox);
      assert ids[n - 1..][0] == ids[n - 1];
      WithoutFirst(ids[n - 1..]);
      assert ids[n - 1..][1..] == ids[n..];
    }
  }

  // The outbox after one fault-free pass of the relay.
  function Dispatched(outbox: seq<Entry>): seq<Entry> {
    MarkedAll(outbox, First(Pending(outbox), BATCH))
  }

  function DispatchedTimes(outbox: seq<Entry>, k: nat): seq<Entry> {
    if k == 0 then outbox else Dispatched(DispatchedTimes(outbox, k - 1))
  }

  // k passes publish the oldest 20 k pending jobs, so n jobs are drained after ceil(n / 20) passes and
  // not before.
  lemma {:induction false} PassesDrain(outbox: seq<Entry>, k: nat)
    requires DistinctRuns(outbox)
    ensures DistinctRuns(DispatchedTimes(outbox, k))
    ensures var ids := Pending(outbox);
            Pending(DispatchedTimes(outbox, k)) == if 20 * k <= |ids| then ids[20 * k..] else []
    ensures Pending(DispatchedTimes(outbox, k)) == [] <==> |Pending(outbox)| <= 20 * k
  {
    if k > 0 {
      PassesDrain(outbox, k - 1);
      var before := DispatchedTimes(outbox, k - 1);
      var ids := Pending(before);
      var n := if |ids| <= BATCH then |ids| else BATCH;
      assert First(ids, BATCH) == ids[..n];
      MarkingOldest(before, n);
      MarkedKeepsRuns(before, First(ids, BATCH));
    }
  }
}
