/**
 What holds of the key bindings over any sequence of requested syncs, scheduled syncs and reads after
 orders in one process, whatever broker, database and clock answer.
 */
module BindingLaws {
  import opened Base
  import opened Binding

  // `captured` are the Demo keys taken by executors and reconcilers, to be used later.
  datatype World = World(s: State, clock: int, captured: set<Client>)

  datatype Step =
    | Requested(e: Environment, o: Oracle)
    | Scheduled(slot: Environment, o: Oracle)
    | Capture
    | AfterOrder(c: Client, o: Oracle)

  predicate Enabled(w: World, step: Step) {
    match step
    case Requested(_, o) => w.clock <= o.now
    case Scheduled(_, o) => w.clock <= o.now
    case Capture => Demo in w.s.bound
    case AfterOrder(c, o) => c in w.captured && w.clock <= o.now
  }

  function Apply(w: World, step: Step): World
    requires Enabled(w, step)
  {
    match step
    case Requested(e, o) => w.(s := Synced(w.s, e, o), clock := o.now)
    case Scheduled(slot, o) => w.(s := SlotSynced(w.s, slot, o), clock := o.now)
    case Capture => w.(captured := w.captured + {w.s.bound[Demo]})
    case AfterOrder(c, o) => w.(s := OrderSynced(w.s, c, o), clock := o.now)
  }

  ghost predicate Initial(w: World) {
    w.s == Fresh(w.s.clients) && DistinctKeys(w.s.clients) && w.captured == {}
  }

  ghost predicate StepTo(w: World, w': World) {
    exists step: Step :: Enabled(w, step) && w' == Apply(w, step)
  }

  ghost predicate IsRun(run: seq<World>) {
    && |run| > 0 && Initial(run[0])
    && forall i :: 0 <= i < |run| - 1 ==> StepTo(run[i], run[i + 1])
  }

  // ---------- The invariant ----------

  ghost predicate HasSlot(s: State, c: Client) {
    exists e :: e in s.clients && s.clients[e] == c
  }

  // A key is bound to at most one environment.
  ghost predicate Injective(s: State) {
    !(Demo in s.bound && Real in s.bound && s.bound[Demo] == s.bound[Real])
  }

  ghost predicate BoundOk(s: State) {
    && Injective(s)
    && forall e :: e in s.bound ==> HasSlot(s, s.bound[e]) && s.bound[e] !in s.conflicted
  }

  // A key conflicts only with another key that is bound.
  ghost predicate Rival(s: State, c: Client) {
    exists e :: e in s.bound && s.bound[e] != c
  }

  ghost predicate ConflictsOk(s: State) {
    forall c :: c in s.conflicted ==> HasSlot(s, c) && Rival(s, c)
  }

  // A snapshot whose commit was reported comes from the key bound to its environment.
  ghost predicate EventsOk(s: State) {
    forall i :: 0 <= i < |s.events| && s.events[i].source.Some? && s.events[i].reported ==>
      s.IsBound(s.events[i].environment, s.events[i].source.value)
  }

  predicate Apart(a: Read, b: Read) {
    a.client == b.client && a.attempt.Some? && b.attempt.Some? ==>
      a.attempt == b.attempt || b.attempt.value - a.attempt.value >= 30_000_000_000
  }

  predicate BeforeLast(s: State, r: Read) {
    r.attempt.Some? ==> r.client in s.lastAttempt && r.attempt.value <= s.lastAttempt[r.client]
  }

  ghost predicate AttemptsOk(s: State, clock: int) {
    && (forall c :: c in s.lastAttempt ==> s.lastAttempt[c] <= clock)
    && (forall i :: 0 <= i < |s.requests| ==> BeforeLast(s, s.requests[i]))
    && (forall i, j :: 0 <= i < j < |s.requests| ==> Apart(s.requests[i], s.requests[j]))
  }

  ghost predicate Sound(s: State) {
    BoundOk(s) && ConflictsOk(s) && EventsOk(s)
  }

  ghost predicate Inv(w: World) {
    && DistinctKeys(w.s.clients) && Sound(w.s) && AttemptsOk(w.s, w.clock)
    && forall c :: c in w.captured ==> w.s.IsBound(Demo, c)
  }

  // ---------- One read that is recorded ----------

  // How the state may grow: bindings and conflicts stay, tables and logs are appended to.
  ghost predicate Grows(s: State, s': State) {
    && s'.clients == s.clients
    && (forall e :: e in s.bound ==> s'.IsBound(e, s.bound[e]))
    && s.conflicted <= s'.conflicted
    && s.events <= s'.events && s.requests <= s'.requests
  }

  // A key that a sync may read for an environment: not conflicted, and bound to no other environment.
  ghost predicate Eligible(s: State, c: Client, e: Environment) {
    HasSlot(s, c) && c !in s.conflicted && !s.IsBound(Other(e), c)
  }

  // Reading alone changes neither bindings nor tables.
  lemma ReadKeeps(s: State, s': State)
    requires Sound(s)
    requires s'.clients == s.clients && s'.bound == s.bound && s'.conflicted == s.conflicted && s'.events == s.events
    ensures Sound(s') && forall c, e :: Eligible(s, c, e) ==> Eligible(s', c, e)
  {
    assert forall c :: HasSlot(s, c) ==> HasSlot(s', c);
    assert forall c :: Rival(s, c) ==> Rival(s', c);
  }

  lemma LogKeeps(s: State, event: Event)
    requires Sound(s)
    requires event.source.Some? && event.reported ==> s.IsBound(event.environment, event.source.value)
    ensures Sound(s.(events := s.events + [event]))
  {
    var s' := s.(events := s.events + [event]);
    assert forall c :: HasSlot(s, c) ==> HasSlot(s', c);
    assert forall c :: Rival(s, c) ==> Rival(s', c);
  }

  lemma ConflictKeeps(s: State, c: Client, e: Environment)
    requires Sound(s) && Eligible(s, c, e) && e in s.bound && s.bound[e] != c
    ensures Sound(s.(conflicted := s.conflicted + {c}))
  {
    var s' := s.(conflicted := s.conflicted + {c});
    assert forall d :: HasSlot(s, d) ==> HasSlot(s', d);
    assert forall d :: Rival(s, d) ==> Rival(s', d);
    assert Rival(s', c);
    assert forall x :: x in s.bound ==> x == e || x == Other(e);
  }

  lemma BindKeeps(s: State, c: Client, e: Environment)
    requires Sound(s) && Eligible(s, c, e) && (e in s.bound ==> s.bound[e] == c)
    ensures Sound(s.(bound := s.bound[e := c])) && s.(bound := s.bound[e := c]).IsBound(e, c)
  {
    var s' := s.(bound := s.bound[e := c]);
    assert forall d :: HasSlot(s, d) ==> HasSlot(s', d);
    forall d | Rival(s, d) ensures Rival(s', d) {
      var x :| x in s.bound && s.bound[x] != d;
      assert s'.bound[x] != d;
    }
    assert forall x :: x in s.bound ==> s'.IsBound(x, s.bound[x]);
    assert forall x :: x in s'.bound ==> x in s.bound || x == e;
  }

  lemma RecordKeeps(s: State, c: Client, e: Environment, commit: Commit)
    requires Sound(s) && Eligible(s, c, e)
    ensures Sound(Record(s, c, e, commit))
  {
    if e in s.bound && s.bound[e] != c {
      ConflictKeeps(s, c, e);
      LogKeeps(s.(conflicted := s.conflicted + {c}), Event(e, CredentialConflict, None, commit == Committed));
    } else if commit == Committed {
      BindKeeps(s, c, e);
      LogKeeps(s.(bound := s.bound[e := c]), Event(e, Stored, Some(c), true));
    } else {
      LogKeeps(s, Event(e, Stored, Some(c), false));
    }
  }

  lemma AnsweredKeeps(s: State, c: Client, e: Environment, f: Fetch, commit: Commit)
    requires Sound(s) && Eligible(s, c, e)
    ensures Sound(Answered(s, c, e, f, commit))
  {
    if f == Portfolio {
      RecordKeeps(s, c, e, commit);
    } else {
      LogKeeps(s, Event(e, Classify(f), None, commit == Committed));
    }
  }

  lemma AttemptedKeeps(s: State, c: Client, preferred: Environment, detect: bool, o: Oracle)
    requires Sound(s) && Eligible(s, c, preferred) && (detect ==> Eligible(s, c, Other(preferred)))
    ensures Sound(Attempted(s, c, preferred, detect, o))
  {
    var read := ReadFrom(s.(lastAttempt := s.lastAttempt[c := o.now]), c, preferred, Some(o.now));
    ReadKeeps(s, read);
    AnsweredKeeps(read, c, preferred, o.Answer(preferred), o.first);
    if detect && Denied(o.Answer(preferred)) && o.first == Committed {
      var stored := Answered(read, c, preferred, o.Answer(preferred), o.first);
      var again := ReadFrom(stored, c, Other(preferred), Some(o.now));
      ReadKeeps(stored, again);
      assert Eligible(again, c, Other(preferred));
      AnsweredKeeps(again, c, Other(preferred), o.Answer(Other(preferred)), o.second);
    }
  }

  // ---------- What a call adds ----------

  // The log entries a call may add, seen from the state before it.
  ghost predicate ReadAllowed(s: State, r: Read) {
    r.client !in s.conflicted && !s.IsBound(Other(r.environment), r.client)
  }

  ghost predicate EventAllowed(s: State, event: Event) {
    event.source.Some? ==>
      && event.source.value !in s.conflicted
      && (event.environment in s.bound ==> s.IsBound(event.environment, event.source.value))
  }

  ghost predicate Extends(s: State, s': State) {
    && Grows(s, s')
    && (forall i :: |s.requests| <= i < |s'.requests| ==> ReadAllowed(s, s'.requests[i]))
    && (forall i :: |s.events| <= i < |s'.events| ==> EventAllowed(s, s'.events[i]))
  }

  lemma GrewBy(s: State, s': State, event: Event)
    requires s'.clients == s.clients && s'.requests == s.requests && s.conflicted <= s'.conflicted
    requires forall e :: e in s.bound ==> s'.IsBound(e, s.bound[e])
    requires s'.events == s.events || s'.events == s.events + [event]
    requires EventAllowed(s, event)
    ensures Extends(s, s')
  {
  }

  lemma AnsweredExtends(s: State, c: Client, e: Environment, f: Fetch, commit: Commit)
    requires Eligible(s, c, e)
    ensures Extends(s, Answered(s, c, e, f, commit)) && Answered(s, c, e, f, commit).requests == s.requests
    ensures Answered(s, c, e, f, commit).lastAttempt == s.lastAttempt
  {
    var s' := Answered(s, c, e, f, commit);
    if f != Portfolio {
      GrewBy(s, s', Event(e, Classify(f), None, commit == Committed));
    } else if e in s.bound && s.bound[e] != c {
      GrewBy(s, s', Event(e, CredentialConflict, None, commit == Committed));
    } else {
      GrewBy(s, s', Event(e, Stored, Some(c), commit == Committed));
    }
  }

  lemma AttemptedExtends(s: State, c: Client, preferred: Environment, detect: bool, o: Oracle)
    requires Eligible(s, c, preferred) && (detect ==> Eligible(s, c, Other(preferred)))
    ensures Extends(s, Attempted(s, c, preferred, detect, o))
  {
    var read := ReadFrom(s.(lastAttempt := s.lastAttempt[c := o.now]), c, preferred, Some(o.now));
    AnsweredExtends(read, c, preferred, o.Answer(preferred), o.first);
    if detect && Denied(o.Answer(preferred)) && o.first == Committed {
      var stored := Answered(read, c, preferred, o.Answer(preferred), o.first);
      var again := ReadFrom(stored, c, Other(preferred), Some(o.now));
      AnsweredExtends(again, c, Other(preferred), o.Answer(Other(preferred)), o.second);
    }
  }

  // ---------- Which key a sync reads, and for which environment ----------

  ghost predicate Target(s: State, c: Client, preferred: Environment, detect: bool) {
    && Eligible(s, c, preferred)
    && (detect <==> !s.IsBound(preferred, c))
    && (detect ==> Eligible(s, c, Other(preferred)))
  }

  ghost predicate Syncs(s: State, s': State, now: int) {
    || s' == s
    || exists c: Client, preferred: Environment, detect: bool, o: Oracle ::
         && o.now == now && Target(s, c, preferred, detect) && !TooSoon(s, c, now)
         && s' == Attempted(s, c, preferred, detect, o)
  }

  lemma SyncedClientSyncs(s: State, c: Client, preferred: Environment, detect: bool, o: Oracle)
    requires Target(s, c, preferred, detect)
    ensures Syncs(s, SyncedClient(s, c, preferred, detect, o), o.now)
  {
  }

  lemma RequestedSyncs(s: State, e: Environment, o: Oracle)
    requires BoundOk(s)
    ensures Syncs(s, Synced(s, e, o), o.now)
  {
    if e in s.bound {
      assert HasSlot(s, s.bound[e]);
      SyncedClientSyncs(s, s.bound[e], e, false, o);
    } else if s.Usable(e) {
      assert HasSlot(s, s.clients[e]);
      SyncedClientSyncs(s, s.clients[e], e, true, o);
    } else if Other(e) in s.clients && s.clients[Other(e)] !in s.conflicted
        && !s.IsBound(Other(e), s.clients[Other(e)]) {
      assert HasSlot(s, s.clients[Other(e)]);
      SyncedClientSyncs(s, s.clients[Other(e)], Other(e), true, o);
    }
  }

  lemma ScheduledSyncs(s: State, slot: Environment, o: Oracle)
    requires BoundOk(s)
    ensures Syncs(s, SlotSynced(s, slot, o), o.now)
  {
    if slot in s.clients && s.clients[slot] !in s.conflicted {
      var c := s.clients[slot];
      var preferred := Preferred(s, slot, c);
      assert HasSlot(s, c);
      SyncedClientSyncs(s, c, preferred, !s.IsBound(preferred, c), o);
    }
  }

  // ---------- Attempts ----------

  lemma LaterKeepsAttempts(s: State, s': State, clock: int, now: int)
    requires AttemptsOk(s, clock) && clock <= now && s'.lastAttempt == s.lastAttempt
    requires s'.requests == s.requests || exists r: Read :: r.attempt == None && s'.requests == s.requests + [r]
    ensures AttemptsOk(s', now)
  {
    forall i | 0 <= i < |s'.requests| ensures BeforeLast(s', s'.requests[i]) {
      if i < |s.requests| { assert BeforeLast(s, s.requests[i]); }
    }
  }

  // One or two reads of a key whose last attempt is 30 seconds back.
  lemma NewAttempt(s: State, s': State, c: Client, now: int, clock: int, news: seq<Read>)
    requires AttemptsOk(s, clock) && clock <= now && !TooSoon(s, c, now)
    requires s'.lastAttempt == s.lastAttempt[c := now] && s'.requests == s.requests + news
    requires forall i :: 0 <= i < |news| ==> news[i].client == c && news[i].attempt == Some(now)
    ensures AttemptsOk(s', now)
  {
    forall i | 0 <= i < |s'.requests| ensures BeforeLast(s', s'.requests[i]) {
      if i < |s.requests| { assert BeforeLast(s, s.requests[i]); }
    }
    forall i, j | 0 <= i < j < |s'.requests| ensures Apart(s'.requests[i], s'.requests[j]) {
      if i < |s.requests| { assert BeforeLast(s, s.requests[i]); }
    }
  }

  lemma AttemptedRequests(s: State, c: Client, preferred: Environment, detect: bool, o: Oracle)
    returns (news: seq<Read>)
    ensures var s' := Attempted(s, c, preferred, detect, o);
            s'.lastAttempt == s.lastAttempt[c := o.now] && s'.requests == s.requests + news
    ensures 1 <= |news| <= 2 && news[0] == Read(c, preferred, Some(o.now))
    ensures |news| == 2 <==> detect && Denied(o.Answer(preferred)) && o.first == Committed
    ensures |news| == 2 ==> news[1] == Read(c, Other(preferred), Some(o.now))
  {
    news := [Read(c, preferred, Some(o.now))];
    if detect && Denied(o.Answer(preferred)) && o.first == Committed {
      news := news + [Read(c, Other(preferred), Some(o.now))];
      assert s.requests + news == s.requests + [news[0]] + [news[1]];
    }
  }

  // ---------- Every step ----------

  lemma AttemptKeeps(s: State, clock: int, c: Client, preferred: Environment, detect: bool, o: Oracle)
    requires AttemptsOk(s, clock) && clock <= o.now && !TooSoon(s, c, o.now)
    ensures AttemptsOk(Attempted(s, c, preferred, detect, o), o.now)
  {
    var news := AttemptedRequests(s, c, preferred, detect, o);
    NewAttempt(s, Attempted(s, c, preferred, detect, o), c, o.now, clock, news);
  }

  lemma TargetKeeps(s: State, clock: int, c: Client, preferred: Environment, detect: bool, o: Oracle)
    requires Sound(s) && AttemptsOk(s, clock) && clock <= o.now && !TooSoon(s, c, o.now)
      && Target(s, c, preferred, detect)
    ensures var s' := Attempted(s, c, preferred, detect, o); Sound(s') && AttemptsOk(s', o.now) && Extends(s, s')
  {
    AttemptedKeeps(s, c, preferred, detect, o);
    AttemptedExtends(s, c, preferred, detect, o);
    AttemptKeeps(s, clock, c, preferred, detect, o);
  }

  lemma SyncKeeps(s: State, s': State, clock: int, now: int)
    requires Sound(s) && AttemptsOk(s, clock) && clock <= now && Syncs(s, s', now)
    ensures Sound(s') && AttemptsOk(s', now) && Extends(s, s')
  {
    if s' == s {
      LaterKeepsAttempts(s, s', clock, now);
    } else {
      var c: Client, preferred: Environment, detect: bool, o: Oracle :|
        && o.now == now && Target(s, c, preferred, detect) && !TooSoon(s, c, now)
        && s' == Attempted(s, c, preferred, detect, o);
      TargetKeeps(s, clock, c, preferred, detect, o);
    }
  }

  // A read with the Demo key refreshes the history and leaves every binding as it is.
  lemma OrderReadKeeps(s: State, c: Client, o: Oracle, clock: int)
    requires Sound(s) && AttemptsOk(s, clock) && clock <= o.now && s.IsBound(Demo, c)
    ensures var s' := OrderSynced(s, c, o);
            Sound(s') && AttemptsOk(s', o.now) && Extends(s, s') && s'.bound == s.bound && s'.conflicted == s.conflicted
  {
    var read := ReadFrom(s, c, Demo, None);
    assert HasSlot(s, c);
    ReadKeeps(s, read);
    LaterKeepsAttempts(s, read, clock, o.now);
    if o.onDemo == Portfolio {
      AnsweredExtends(read, c, Demo, Portfolio, o.first);
      RecordKeeps(read, c, Demo, o.first);
      LaterKeepsAttempts(read, Record(read, c, Demo, o.first), o.now, o.now);
      assert s.bound[Demo := c] == s.bound;
    }
  }

  lemma StepKeepsInv(w: World, step: Step)
    requires Inv(w) && Enabled(w, step)
    ensures Inv(Apply(w, step)) && Extends(w.s, Apply(w, step).s)
  {
    match step
    case Requested(e, o) =>
      RequestedSyncs(w.s, e, o);
      SyncKeeps(w.s, Synced(w.s, e, o), w.clock, o.now);
    case Scheduled(slot, o) =>
      ScheduledSyncs(w.s, slot, o);
      SyncKeeps(w.s, SlotSynced(w.s, slot, o), w.clock, o.now);
    case Capture =>
    case AfterOrder(c, o) => OrderReadKeeps(w.s, c, o, w.clock);
  }

  // ---------- Every run ----------

  lemma ExtendsTransitive(s: State, t: State, u: State)
    requires Extends(s, t) && Extends(t, u)
    ensures Extends(s, u)
  {
    forall i | |s.requests| <= i < |u.requests| ensures ReadAllowed(s, u.requests[i]) {
      if i < |t.requests| {
        assert ReadAllowed(s, t.requests[i]);
      } else {
        assert ReadAllowed(t, u.requests[i]);
      }
    }
    forall i | |s.events| <= i < |u.events| ensures EventAllowed(s, u.events[i]) {
      if i < |t.events| {
        assert EventAllowed(s, t.events[i]);
      } else {
        assert EventAllowed(t, u.events[i]);
      }
    }
  }

  lemma RunStep(run: seq<World>, i: nat)
    requires IsRun(run) && i + 1 < |run|
    ensures StepTo(run[i], run[i + 1])
  {
    hide StepTo;
  }

  lemma NextKeeps(w: World, w': World)
    requires Inv(w) && StepTo(w, w')
    ensures Inv(w') && Extends(w.s, w'.s)
  {
    hide Inv, Extends;
    var step: Step :| Enabled(w, step) && w' == Apply(w, step);
    StepKeepsInv(w, step);
  }

  lemma {:induction false} RunKeepsInv(run: seq<World>, n: nat)
    requires IsRun(run) && n < |run|
    ensures Inv(run[n])
  {
    if n > 0 {
      hide IsRun, Inv, StepTo, Extends;
      RunKeepsInv(run, n - 1);
      RunStep(run, n - 1);
      NextKeeps(run[n - 1], run[n]);
    }
  }

  lemma {:induction false} RunExtends(run: seq<World>, i: nat, j: nat)
    requires IsRun(run) && i <= j < |run|
    ensures Extends(run[i].s, run[j].s)
    decreases j
  {
    hide IsRun, Inv, Extends, StepTo;
    if i < j {
      RunExtends(run, i, j - 1);
      RunKeepsInv(run, j - 1);
      RunStep(run, j - 1);
      NextKeeps(run[j - 1], run[j]);
      ExtendsTransitive(run[i].s, run[j - 1].s, run[j].s);
    } else {
      ExtendsReflexive(run[i].s);
    }
  }

  lemma ExtendsReflexive(s: State)
    ensures Extends(s, s)
  {
  }

  // A binding is written once: it never changes and never goes away.
  lemma BindingsAreWriteOnce(run: seq<World>, i: nat, j: nat, e: Environment)
    requires IsRun(run) && i <= j < |run| && e in run[i].s.bound
    ensures run[j].s.IsBound(e, run[i].s.bound[e])
  {
    RunExtends(run, i, j);
  }

  // No key is bound to both environments, and no conflicted key to any.
  lemma NoKeyServesBoth(run: seq<World>, n: nat, e: Environment, c: Client)
    requires IsRun(run) && n < |run| && run[n].s.IsBound(e, c)
    ensures !run[n].s.IsBound(Other(e), c) && c !in run[n].s.conflicted
  {
    RunKeepsInv(run, n);
  }

  // A conflicted key is never bound, never read and never stored again.
  lemma ConflictIsFinal(run: seq<World>, i: nat, j: nat, c: Client)
    requires IsRun(run) && i <= j < |run| && c in run[i].s.conflicted
    ensures c in run[j].s.conflicted && forall e :: !run[j].s.IsBound(e, c)
    ensures forall k :: |run[i].s.requests| <= k < |run[j].s.requests| ==> run[j].s.requests[k].client != c
    ensures forall k :: |run[i].s.events| <= k < |run[j].s.events| ==> run[j].s.events[k].source != Some(c)
  {
    RunExtends(run, i, j);
    RunKeepsInv(run, j);
    forall k | |run[i].s.requests| <= k < |run[j].s.requests| ensures run[j].s.requests[k].client != c {
      assert ReadAllowed(run[i].s, run[j].s.requests[k]);
    }
    forall k | |run[i].s.events| <= k < |run[j].s.events| ensures run[j].s.events[k].source != Some(c) {
      assert EventAllowed(run[i].s, run[j].s.events[k]);
    }
  }

  // Once an environment is bound, its key is read for nothing else and its history takes no other key.
  lemma BoundEnvironmentIsClosed(run: seq<World>, i: nat, j: nat, e: Environment)
    requires IsRun(run) && i <= j < |run| && e in run[i].s.bound
    ensures var (s, s', c) := (run[i].s, run[j].s, run[i].s.bound[e]);
            && (forall k :: |s.requests| <= k < |s'.requests| && s'.requests[k].client == c ==>
                  s'.requests[k].environment == e)
            && (forall k :: |s.events| <= k < |s'.events| && s'.events[k].environment == e ==>
                  s'.events[k].source == None || s'.events[k].source == Some(c))
  {
    RunExtends(run, i, j);
    var (s, s', c) := (run[i].s, run[j].s, run[i].s.bound[e]);
    forall k | |s.requests| <= k < |s'.requests| && s'.requests[k].client == c ensures s'.requests[k].environment == e {
      assert ReadAllowed(s, s'.requests[k]);
    }
    forall k | |s.events| <= k < |s'.events| && s'.events[k].environment == e
      ensures s'.events[k].source == None || s'.events[k].source == Some(c)
    {
      assert EventAllowed(s, s'.events[k]);
    }
  }

  // ---------- Whose snapshots an environment holds ----------

  ghost predicate FromBound(s: State, event: Event) {
    event.source.Some? ==> s.IsBound(event.environment, event.source.value)
  }

  // All snapshots of an environment come from its one bound key.
  ghost predicate Separated(s: State) {
    forall i :: 0 <= i < |s.events| ==> FromBound(s, s.events[i])
  }

  // Recording a read keeps the histories separated if and only if the environment was bound already or the
  // commit did not take effect unreported.
  lemma RecordKeepsSeparation(s: State, c: Client, e: Environment, commit: Commit)
    requires Sound(s) && Eligible(s, c, e) && Separated(s)
    ensures Separated(Record(s, c, e, commit)) <==> e in s.bound || commit != Unreported
  {
    var s' := Record(s, c, e, commit);
    forall i | 0 <= i < |s.events| ensures FromBound(s', s.events[i]) {
      assert FromBound(s, s.events[i]);
    }
    if e !in s.bound && commit == Unreported {
      assert s'.events[|s.events|] == Event(e, Stored, Some(c), false);
      assert !FromBound(s', s'.events[|s.events|]);
    }
  }

  // An event added between two states: a snapshot committed unreported while its environment was unbound.
  ghost predicate Stray(s: State, s': State, i: int) {
    && |s.events| <= i < |s'.events| && s'.events[i].source.Some?
    && !s'.events[i].reported && s'.events[i].environment !in s.bound
  }

  ghost predicate AddsNoStray(s: State, s': State) {
    forall i :: !Stray(s, s', i)
  }

  // At most one snapshot is stored between the states, and a stray one leaves its environment unbound.
  ghost predicate Steady(s: State, s': State) {
    forall i :: Stray(s, s', i) ==> !FromBound(s', s'.events[i])
  }

  lemma AnsweredIsSteady(s: State, c: Client, e: Environment, f: Fetch, commit: Commit)
    requires Eligible(s, c, e)
    ensures Steady(s, Answered(s, c, e, f, commit))
  {
  }

  lemma AttemptedIsSteady(s: State, c: Client, preferred: Environment, detect: bool, o: Oracle)
    requires Eligible(s, c, preferred) && (detect ==> Eligible(s, c, Other(preferred)))
    ensures Steady(s, Attempted(s, c, preferred, detect, o))
  {
    var read := ReadFrom(s.(lastAttempt := s.lastAttempt[c := o.now]), c, preferred, Some(o.now));
    AnsweredIsSteady(read, c, preferred, o.Answer(preferred), o.first);
    if detect && Denied(o.Answer(preferred)) && o.first == Committed {
      var stored := Answered(read, c, preferred, o.Answer(preferred), o.first);
      var again := ReadFrom(stored, c, Other(preferred), Some(o.now));
      AnsweredIsSteady(again, c, Other(preferred), o.Answer(Other(preferred)), o.second);
    }
  }

  lemma SyncIsSteady(s: State, s': State, now: int)
    requires Syncs(s, s', now)
    ensures Steady(s, s')
  {
    if s' != s {
      var c: Client, preferred: Environment, detect: bool, o: Oracle :|
        && o.now == now && Target(s, c, preferred, detect) && !TooSoon(s, c, now)
        && s' == Attempted(s, c, preferred, detect, o);
      AttemptedIsSteady(s, c, preferred, detect, o);
    }
  }

  lemma StepIsSteady(w: World, w': World)
    requires Inv(w) && StepTo(w, w')
    ensures Steady(w.s, w'.s)
  {
    var step: Step :| Enabled(w, step) && w' == Apply(w, step);
    match step
    case Requested(e, o) =>
      RequestedSyncs(w.s, e, o);
      SyncIsSteady(w.s, w'.s, o.now);
    case Scheduled(slot, o) =>
      ScheduledSyncs(w.s, slot, o);
      SyncIsSteady(w.s, w'.s, o.now);
    case Capture =>
    case AfterOrder(c, o) =>
  }

  // A step keeps the histories separated exactly when it adds no stray snapshot.
  lemma StepKeepsSeparation(w: World, w': World)
    requires Inv(w) && StepTo(w, w') && Separated(w.s)
    ensures Separated(w'.s) <==> AddsNoStray(w.s, w'.s)
  {
    StepIsSteady(w, w');
    NextKeeps(w, w');
    SeparationIsKept(w.s, w'.s);
  }

  lemma SeparationIsKept(s: State, s': State)
    requires Sound(s') && Extends(s, s') && Steady(s, s') && Separated(s)
    ensures Separated(s') <==> AddsNoStray(s, s')
  {
    if AddsNoStray(s, s') {
      forall i | 0 <= i < |s'.events| ensures FromBound(s', s'.events[i]) {
        if i < |s.events| {
          assert FromBound(s, s.events[i]);
        } else {
          assert EventAllowed(s, s'.events[i]) && !Stray(s, s', i);
        }
      }
    }
  }

  ghost predicate SeparatedSoFar(run: seq<World>, n: int) {
    forall m :: 0 <= m <= n && m < |run| ==> Separated(run[m].s)
  }

  ghost predicate NoStraySoFar(run: seq<World>, n: int) {
    forall m :: 0 < m <= n && m < |run| ==> AddsNoStray(run[m - 1].s, run[m].s)
  }

  // Over a whole run the histories are separated all along if and only if no snapshot was ever committed
  // unreported while its environment was unbound.
  lemma {:induction false} HistoryIsSeparatedExactly(run: seq<World>, n: nat)
    requires IsRun(run) && n < |run|
    ensures SeparatedSoFar(run, n) <==> NoStraySoFar(run, n)
  {
    hide IsRun, Separated, AddsNoStray;
    if n > 0 {
      HistoryIsSeparatedExactly(run, n - 1);
      assert SeparatedSoFar(run, n) <==> SeparatedSoFar(run, n - 1) && Separated(run[n].s);
      assert NoStraySoFar(run, n) <==> NoStraySoFar(run, n - 1) && AddsNoStray(run[n - 1].s, run[n].s);
      if Separated(run[n - 1].s) { NextSeparation(run, n); }
    } else {
      FirstIsSeparated(run);
    }
  }

  lemma NextSeparation(run: seq<World>, n: nat)
    requires IsRun(run) && 0 < n < |run| && Separated(run[n - 1].s)
    ensures Separated(run[n].s) <==> AddsNoStray(run[n - 1].s, run[n].s)
  {
    hide IsRun, Inv, StepTo, Separated, AddsNoStray;
    RunKeepsInv(run, n - 1);
    RunStep(run, n - 1);
    StepKeepsSeparation(run[n - 1], run[n]);
  }

  lemma FirstIsSeparated(run: seq<World>)
    requires IsRun(run)
    ensures |run| > 0 && Separated(run[0].s)
  {
  }

  // A reported snapshot comes from the bound key of its environment; any other snapshot was committed
  // unreported in a step that found its environment unbound.
  lemma {:induction false} HistoryIsSeparated(run: seq<World>, n: nat, i: nat)
    requires IsRun(run) && n < |run| && i < |run[n].s.events|
    ensures run[n].s.events[i].reported ==> FromBound(run[n].s, run[n].s.events[i])
    ensures !FromBound(run[n].s, run[n].s.events[i]) ==> exists m :: 0 <= m < n && Stray(run[m].s, run[m + 1].s, i)
  {
    RunKeepsInv(run, n);
    if !FromBound(run[n].s, run[n].s.events[i]) {
      RunKeepsInv(run, n - 1);
      RunStep(run, n - 1);
      NextKeeps(run[n - 1], run[n]);
      if i < |run[n - 1].s.events| {
        HistoryIsSeparated(run, n - 1, i);
      } else {
        assert EventAllowed(run[n - 1].s, run[n].s.events[i]);
        assert Stray(run[n - 1].s, run[n - 1 + 1].s, i);
      }
    }
  }

  // An unreported commit can leave a snapshot of one key in an environment that another key then binds.
  lemma UnreportedCommitMixesHistory() returns (run: seq<World>)
    ensures IsRun(run)
    ensures var s := run[|run| - 1].s; exists i, j ::
              && 0 <= i < j < |s.events| && s.events[i].environment == s.events[j].environment
              && s.events[i].source.Some? && s.events[j].source.Some? && s.events[i].source != s.events[j].source
  {
    var a, b := Client("key", "first"), Client("key", "second");
    var first := Oracle(0, Portfolio, NoResponse, Unreported, Refused);
    var second := Oracle(0, Portfolio, ApiFailure(403), Committed, Committed);
    var w0 := World(Fresh(map[Demo := a, Real := b]), 0, {});
    var w1 := Apply(w0, Scheduled(Demo, first));
    assert w1.s.events == [Event(Demo, Stored, Some(a), false)];
    var w2 := Apply(w1, Scheduled(Real, second));
    assert w2.s.events ==
      [Event(Demo, Stored, Some(a), false), Event(Real, Api(403), None, true), Event(Demo, Stored, Some(b), true)];
    assert StepTo(w0, w1) && StepTo(w1, w2);
    run := [w0, w1, w2];
    assert w2.s.events[0].source != w2.s.events[2].source;
  }

  // Two reads of one key by a sync belong to one attempt or lie at least 30 seconds apart.
  lemma AttemptsAreSpaced(run: seq<World>, n: nat, i: nat, j: nat)
    requires IsRun(run) && n < |run| && i < j < |run[n].s.requests|
    ensures Apart(run[n].s.requests[i], run[n].s.requests[j])
  {
    RunKeepsInv(run, n);
  }

  // A key taken for an order stays the Demo key, so the read after the order cannot conflict or rebind.
  lemma OrderReadOnlyRefreshes(run: seq<World>, n: nat, c: Client, o: Oracle)
    requires IsRun(run) && n < |run| && Enabled(run[n], AfterOrder(c, o))
    ensures run[n].s.IsBound(Demo, c)
    ensures var s' := OrderSynced(run[n].s, c, o); s'.bound == run[n].s.bound && s'.conflicted == run[n].s.conflicted
  {
    RunKeepsInv(run, n);
    OrderReadKeeps(run[n].s, c, o, run[n].clock);
  }

  // With a single key, exactly one environment is shown as configured, and the key never conflicts.
  lemma SingleKeyConfiguresOne(run: seq<World>, n: nat, slot: Environment, c: Client)
    requires IsRun(run) && n < |run| && run[n].s.clients == map[slot := c]
    ensures run[n].s.conflicted == {}
    ensures run[n].s.Configured(Demo) <==> !run[n].s.Configured(Real)
  {
    RunKeepsInv(run, n);
    var s := run[n].s;
    assert forall d :: HasSlot(s, d) ==> d == c;
    assert forall d :: d in s.conflicted ==> !Rival(s, d);
    assert forall e :: e in s.bound ==> s.bound[e] == c;
    assert slot in s.clients && s.clients[slot] == c;
  }

  // ---------- What one sync reads and binds ----------

  predicate Skips(s: State, c: Client, now: int) {
    c in s.conflicted || (c in s.lastAttempt && now < s.lastAttempt[c] + 30_000_000_000)
  }

  // The first answer denies the key, and its commit was reported.
  predicate TriesAgain(detect: bool, answer: Fetch, commit: Commit) {
    detect && (answer == ApiFailure(403) || answer == ApiFailure(404)) && commit == Committed
  }

  // A conflicted key, and one that was tried less than 30 seconds ago, is not read.  Any other is read for the
  // preferred environment first, and for the other one exactly when it is not known to belong to the
  // preferred one, the answer is 403 or 404, and its commit was reported.
  lemma AttemptReads(s: State, c: Client, preferred: Environment, detect: bool, o: Oracle)
    ensures var s' := SyncedClient(s, c, preferred, detect, o);
            var (other, answer) := if preferred == Demo then (Real, o.onDemo) else (Demo, o.onReal);
            if Skips(s, c, o.now) then s' == s
            else
              && s'.lastAttempt == s.lastAttempt[c := o.now]
              && s'.requests == s.requests + [Read(c, preferred, Some(o.now))]
                                + if TriesAgain(detect, answer, o.first) then [Read(c, other, Some(o.now))] else []
  {
    hide Attempted;
    if !Skips(s, c, o.now) {
      var news := AttemptedRequests(s, c, preferred, detect, o);
      assert news == [news[0]] + news[1..];
      assert s.requests + news == s.requests + [news[0]] + news[1..];
    }
  }

  // A key that was read is bound to the environment of the read that returned a portfolio, unless another key
  // is bound there; then it conflicts.
  lemma AttemptBinds(s: State, c: Client, preferred: Environment, detect: bool, o: Oracle)
    requires !Skips(s, c, o.now)
    ensures var s' := SyncedClient(s, c, preferred, detect, o);
            var (other, answer, second) := if preferred == Demo then (Real, o.onDemo, o.onReal)
                                           else (Demo, o.onReal, o.onDemo);
            if answer == Portfolio then Binds(s, s', c, preferred, o.first)
            else if TriesAgain(detect, answer, o.first) && second == Portfolio then Binds(s, s', c, other, o.second)
            else s'.bound == s.bound && s'.conflicted == s.conflicted
  {
    hide Record, Persisted;
    forall s0: State, e: Environment, commit: Commit ensures Binds(s0, Record(s0, c, e, commit), c, e, commit) {
      RecordBinds(s0, c, e, commit);
    }
    forall s0: State, e: Environment, result: ReadResult, commit: Commit
      ensures var s1 := Persisted(s0, e, result, None, commit); s1.bound == s0.bound && s1.conflicted == s0.conflicted
    {
      PersistBindsNothing(s0, e, result, commit);
    }
  }

  lemma RecordBinds(s: State, c: Client, e: Environment, commit: Commit)
    ensures Binds(s, Record(s, c, e, commit), c, e, commit)
  {
  }

  lemma PersistBindsNothing(s: State, e: Environment, result: ReadResult, commit: Commit)
    ensures var s' := Persisted(s, e, result, None, commit); s'.bound == s.bound && s'.conflicted == s.conflicted
  {
  }

  predicate Binds(s: State, s': State, c: Client, e: Environment, commit: Commit) {
    if e in s.bound && s.bound[e] != c then s'.bound == s.bound && s'.conflicted == s.conflicted + {c}
    else s'.conflicted == s.conflicted && s'.bound == if commit == Committed then s.bound[e := c] else s.bound
  }

  // The key of a slot that may be tried for the first environment of a sync, when `other` is the other one.
  predicate Free(s: State, slot: Environment, other: Environment) {
    slot in s.clients && s.clients[slot] !in s.conflicted && !(other in s.bound && s.bound[other] == s.clients[slot])
  }

  // A sync requested for an environment reads the key bound to it first; without one the key of its slot,
  // unless that is conflicted or bound elsewhere; and then the key of the other slot, for that slot's
  // environment, unless it is conflicted or bound there.  It reads nothing else, and nothing that is skipped.
  lemma SyncReadsOneKey(s: State, e: Environment, o: Oracle)
    ensures var (s', other) := (Synced(s, e, o), if e == Demo then Real else Demo);
            if e in s.bound then ReadsFirst(s, s', s.bound[e], e, o.now)
            else if Free(s, e, other) then ReadsFirst(s, s', s.clients[e], e, o.now)
            else if Free(s, other, other) then ReadsFirst(s, s', s.clients[other], other, o.now)
            else s' == s
  {
    hide SyncedClient, Skips;
    if SyncTarget(s, e).Some? {
      var (c, preferred) := SyncTarget(s, e).value;
      AttemptReads(s, c, preferred, e !in s.bound, o);
    }
  }

  // Unless the key is skipped, the first new read is of it for an environment, and every new read is of it.
  predicate ReadsFirst(s: State, s': State, c: Client, e: Environment, now: int) {
    if Skips(s, c, now) then s' == s
    else
      && |s'.requests| > |s.requests| && s.requests <= s'.requests
      && s'.requests[|s.requests|] == Read(c, e, Some(now))
      && forall i :: |s.requests| <= i < |s'.requests| ==> s'.requests[i].client == c
  }

  // A scheduled sync of a slot reads its key for the environment it is bound to, or else for its own.
  lemma ScheduledReadsOneKey(s: State, slot: Environment, o: Oracle)
    ensures var (s', other) := (SlotSynced(s, slot, o), if slot == Demo then Real else Demo);
            if slot !in s.clients || s.clients[slot] in s.conflicted then s' == s
            else if other in s.bound && s.bound[other] == s.clients[slot] then
              ReadsFirst(s, s', s.clients[slot], other, o.now)
            else ReadsFirst(s, s', s.clients[slot], slot, o.now)
  {
    hide SyncedClient, Skips;
    if slot in s.clients {
      var c := s.clients[slot];
      var preferred := Preferred(s, slot, c);
      AttemptReads(s, c, preferred, !s.IsBound(preferred, c), o);
    }
  }

  // A read that returns no portfolio is logged with what the broker answered, when the log takes it.
  lemma AnswersAreLogged(s: State, c: Client, e: Environment, f: Fetch, commit: Commit)
    ensures var s' := Answered(s, c, e, f, commit);
            f != Portfolio && commit != Refused ==>
              s' == s.(events := s.events + [Event(e, match f
                                                      case ApiFailure(status) => Api(status)
                                                      case BadSchema => SchemaError
                                                      case _ => RequestFailed,
                                                   None, commit == Committed)])
  {
  }
}
