/**
 The broker service of one process: which API key belongs to the Demo and which to the Real environment.
 A key is bound by its first stored portfolio read, and the other key is then kept out of that
 environment.  Network reads, the database and the clock answer through an oracle.
 */
module Binding {
  import opened Base

  datatype Environment = Demo | Real

  function Other(e: Environment): Environment {
    if e == Real then Demo else Real
  }

  datatype Client = Client(apiKey: string, userKey: string)

  // ---------- What the outside answers ----------

  // The answer to one aggregate read.
  datatype Fetch = Portfolio | ApiFailure(status: int) | BadSchema | NoResponse

  // A transaction commits, stores nothing, or commits although it reports an error.
  datatype Commit = Committed | Refused | Unreported

  // The clock, the answer for either environment, and the fate of at most two transactions.
  datatype Oracle = Oracle(now: int, onDemo: Fetch, onReal: Fetch, first: Commit, second: Commit) {
    function Answer(e: Environment): Fetch {
      if e == Demo then onDemo else onReal
    }
  }

  datatype ReadResult = Stored | CredentialConflict | Api(status: int) | SchemaError | RequestFailed

  function Classify(f: Fetch): ReadResult {
    match f
    case Portfolio => Stored
    case ApiFailure(status) => Api(status)
    case BadSchema => SchemaError
    case NoResponse => RequestFailed
  }

  predicate Denied(f: Fetch) {
    f == ApiFailure(403) || f == ApiFailure(404)
  }

  // ---------- State ----------

  // One row of the event table; a stored snapshot carries the key it was read with, and whether its
  // transaction was reported as committed.
  datatype Event = Event(environment: Environment, result: ReadResult, source: Option<Client>, reported: bool)

  // One read sent to the broker; reads by a scheduled or requested sync belong to a timed attempt.
  datatype Read = Read(client: Client, environment: Environment, attempt: Option<int>)

  datatype State = State(clients: map<Environment, Client>, bound: map<Environment, Client>, conflicted: set<Client>,
                         lastAttempt: map<Client, int>, requests: seq<Read>, events: seq<Event>)
  {
    predicate IsBound(e: Environment, c: Client) {
      e in bound && bound[e] == c
    }

    // A slot's key that may still be tried for its own environment.
    predicate Usable(e: Environment) {
      e in clients && clients[e] !in conflicted && !IsBound(Other(e), clients[e])
    }

    predicate Configured(e: Environment) {
      e in bound || Usable(e)
    }
  }

  const SECOND: int := 1_000_000_000

  // ---------- One call, as a function of the state ----------

  function Persisted(s: State, e: Environment, result: ReadResult, source: Option<Client>, commit: Commit): State {
    if commit == Refused then s else s.(events := s.events + [Event(e, result, source, commit == Committed)])
  }

  function Record(s: State, c: Client, e: Environment, commit: Commit): State {
    if e in s.bound && s.bound[e] != c then
      Persisted(s.(conflicted := s.conflicted + {c}), e, CredentialConflict, None, commit)
    else if commit == Committed then Persisted(s, e, Stored, Some(c), commit).(bound := s.bound[e := c])
    else Persisted(s, e, Stored, Some(c), commit)
  }

  function ReadFrom(s: State, c: Client, e: Environment, attempt: Option<int>): State {
    s.(requests := s.requests + [Read(c, e, attempt)])
  }

  function Answered(s: State, c: Client, e: Environment, f: Fetch, commit: Commit): State {
    if f == Portfolio then Record(s, c, e, commit) else Persisted(s, e, Classify(f), None, commit)
  }

  // Whether the commit of an answered read was reported.
  predicate AttemptStored(preferred: Environment, detect: bool, o: Oracle) {
    && o.first == Committed
    && (detect && Denied(o.Answer(preferred)) ==> o.second == Committed)
  }

  predicate TooSoon(s: State, c: Client, now: int) {
    c in s.lastAttempt && now - s.lastAttempt[c] < 30 * SECOND
  }

  function Attempted(s: State, c: Client, preferred: Environment, detect: bool, o: Oracle): State {
    var read := ReadFrom(s.(lastAttempt := s.lastAttempt[c := o.now]), c, preferred, Some(o.now));
    var stored := Answered(read, c, preferred, o.Answer(preferred), o.first);
    if detect && Denied(o.Answer(preferred)) && o.first == Committed then
      var again := ReadFrom(stored, c, Other(preferred), Some(o.now));
      Answered(again, c, Other(preferred), o.Answer(Other(preferred)), o.second)
    else stored
  }

  function SyncedClient(s: State, c: Client, preferred: Environment, detect: bool, o: Oracle): State {
    if c in s.conflicted || TooSoon(s, c, o.now) then s else Attempted(s, c, preferred, detect, o)
  }

  // A sync that reads nothing, or whose every commit was reported, raises no error.
  predicate SyncStored(s: State, c: Client, preferred: Environment, detect: bool, o: Oracle) {
    c in s.conflicted || TooSoon(s, c, o.now) || AttemptStored(preferred, detect, o)
  }

  // The key that a sync requested for one environment reads, and the environment it is read for first.
  function SyncTarget(s: State, e: Environment): Option<(Client, Environment)> {
    if e in s.bound then Some((s.bound[e], e))
    else if s.Usable(e) then Some((s.clients[e], e))
    else if Other(e) in s.clients && s.clients[Other(e)] !in s.conflicted
            && !s.IsBound(Other(e), s.clients[Other(e)]) then
      Some((s.clients[Other(e)], Other(e)))
    else None
  }

  // A sync requested for one environment; only an unbound one is detected.
  function Synced(s: State, e: Environment, o: Oracle): State {
    match SyncTarget(s, e)
    case None => s
    case Some((c, preferred)) => SyncedClient(s, c, preferred, e !in s.bound, o)
  }

  function Preferred(s: State, slot: Environment, c: Client): Environment {
    if s.IsBound(Other(slot), c) then Other(slot) else slot
  }

  // The scheduled sync of one slot.
  function SlotSynced(s: State, slot: Environment, o: Oracle): State {
    if slot in s.clients && s.clients[slot] !in s.conflicted then
      var c := s.clients[slot];
      var preferred := Preferred(s, slot, c);
      SyncedClient(s, c, preferred, !s.IsBound(preferred, c), o)
    else s
  }

  // The read after an order, with the key the executor took earlier.
  function OrderSynced(s: State, c: Client, o: Oracle): State {
    var read := ReadFrom(s, c, Demo, None);
    if o.onDemo == Portfolio then Record(read, c, Demo, o.first) else read
  }

  function SlotsSynced(s: State, slots: seq<Environment>, o: Environment -> Oracle): State {
    if slots == [] then s
    else SlotSynced(SlotsSynced(s, slots[..|slots| - 1], o), slots[|slots| - 1], o(slots[|slots| - 1]))
  }

  // ---------- The service ----------

  const ENVIRONMENTS: seq<Environment> := [Demo, Real]

  predicate DistinctKeys(clients: map<Environment, Client>) {
    Demo in clients && Real in clients ==> clients[Demo].userKey != clients[Real].userKey
  }

  // What the start of the service asks of its configuration; no key length when the key is not base64.
  predicate Accepts(clients: map<Environment, Client>, keyLength: Option<nat>, tokenLength: nat) {
    && keyLength == Some(32) && tokenLength >= 32
    && (forall e :: e in clients ==> clients[e].apiKey != "" && clients[e].userKey != "")
    && DistinctKeys(clients)
  }

  function Fresh(clients: map<Environment, Client>): State {
    State(clients, map[], {}, map[], [], [])
  }

  class BrokerService {
    const clients: map<Environment, Client>
    var bound: map<Environment, Client>
    var conflicted: set<Client>
    var lastAttempt: map<Client, int>
    var events: seq<Event>
    ghost var requests: seq<Read>

    ghost function Abs(): State
      reads this
    {
      State(clients, bound, conflicted, lastAttempt, requests, events)
    }

    constructor (clients: map<Environment, Client>)
      ensures Abs() == Fresh(clients)
    {
      this.clients := clients;
      bound, conflicted, lastAttempt, events, requests := map[], {}, map[], [], [];
    }

    // A refused configuration gives no service.
    static method Create(clients: map<Environment, Client>, keyLength: Option<nat>, tokenLength: nat)
      returns (r: Option<BrokerService>)
      ensures r.Some? <==> Accepts(clients, keyLength, tokenLength)
      ensures r.Some? <==>
        && keyLength == Some(32) && tokenLength >= 32
        && (forall e :: e in clients ==> clients[e].apiKey != "" && clients[e].userKey != "")
        && !(Demo in clients && Real in clients && clients[Demo].userKey == clients[Real].userKey)
      ensures r.Some? ==> fresh(r.value) && r.value.Abs() == Fresh(clients)
    {
      if keyLength != Some(32) || tokenLength < 32 { return None; }
      for i := 0 to |ENVIRONMENTS|
        invariant forall j :: 0 <= j < i ==> ENVIRONMENTS[j] in clients ==>
                    clients[ENVIRONMENTS[j]].apiKey != "" && clients[ENVIRONMENTS[j]].userKey != ""
      {
        var slot := ENVIRONMENTS[i];
        if slot in clients && (clients[slot].apiKey == "" || clients[slot].userKey == "") { return None; }
      }
      assert forall e :: e in clients ==> e == ENVIRONMENTS[0] || e == ENVIRONMENTS[1];
      if Demo in clients && Real in clients && clients[Demo].userKey == clients[Real].userKey { return None; }
      var b := new BrokerService(clients);
      return Some(b);
    }

    method Persist(e: Environment, result: ReadResult, source: Option<Client>, commit: Commit) returns (ok: bool)
      modifies this`events
      ensures ok <==> commit == Committed
      ensures Abs() == Persisted(old(Abs()), e, result, source, commit)
    {
      if commit != Refused {
        events := events + [Event(e, result, source, commit == Committed)];
      }
      ok := commit == Committed;
    }

    method RecordSuccess(c: Client, e: Environment, commit: Commit) returns (ok: bool)
      modifies this
      ensures ok <==> commit == Committed
      ensures Abs() == Record(old(Abs()), c, e, commit)
    {
      if e in bound && bound[e] != c {
        conflicted := conflicted + {c};
        ok := Persist(e, CredentialConflict, None, commit);
        return;
      }
      ok := Persist(e, Stored, Some(c), commit);
      if ok {
        bound := bound[e := c];
      }
    }

    method SyncClient(c: Client, preferred: Environment, detect: bool, o: Oracle) returns (ok: bool)
      modifies this
      ensures Abs() == SyncedClient(old(Abs()), c, preferred, detect, o)
      ensures ok <==> SyncStored(old(Abs()), c, preferred, detect, o)
    {
      if c in conflicted { return true; }
      if c in lastAttempt && o.now - lastAttempt[c] < 30 * SECOND { return true; }
      lastAttempt := lastAttempt[c := o.now];
      var answer := o.Answer(preferred);
      requests := requests + [Read(c, preferred, Some(o.now))];
      if answer == Portfolio {
        ok := RecordSuccess(c, preferred, o.first);
        return;
      }
      if detect && Denied(answer) {
        ok := Persist(preferred, Classify(answer), None, o.first);
        if !ok { return; }
        var alternate := Other(preferred);
        var second := o.Answer(alternate);
        requests := requests + [Read(c, alternate, Some(o.now))];
        if second == Portfolio {
          ok := RecordSuccess(c, alternate, o.second);
        } else {
          ok := Persist(alternate, Classify(second), None, o.second);
        }
        return;
      }
      ok := Persist(preferred, Classify(answer), None, o.first);
    }

    method Sync(e: Environment, o: Oracle) returns (ok: bool, configured: bool)
      modifies this
      ensures Abs() == Synced(old(Abs()), e, o)
      ensures ok <==> match SyncTarget(old(Abs()), e)
                      case None => true
                      case Some((c, preferred)) => SyncStored(old(Abs()), c, preferred, e !in old(bound), o)
      ensures configured <==> Abs().Configured(e)
    {
      ok := true;
      if e in bound {
        ok := SyncClient(bound[e], e, false, o);
      } else if e in clients && clients[e] !in conflicted && !(Other(e) in bound && bound[Other(e)] == clients[e]) {
        ok := SyncClient(clients[e], e, true, o);
      } else if Other(e) in clients && clients[Other(e)] !in conflicted
                && !(Other(e) in bound && bound[Other(e)] == clients[Other(e)]) {
        ok := SyncClient(clients[Other(e)], Other(e), true, o);
      }
      configured := || e in bound
                    || (&& e in clients && clients[e] !in conflicted
                        && !(Other(e) in bound && bound[Other(e)] == clients[e]));
    }

    method SyncSlot(slot: Environment, o: Oracle)
      modifies this
      ensures Abs() == SlotSynced(old(Abs()), slot, o)
    {
      if slot in clients && clients[slot] !in conflicted {
        var c := clients[slot];
        var preferred := slot;
        if Other(slot) in bound && bound[Other(slot)] == c {
          preferred := Other(slot);
        }
        var detect := !(preferred in bound && bound[preferred] == c);
        var _ := SyncClient(c, preferred, detect, o);
      }
    }

    // The scheduled pass, when nothing comes between its two slots.
    method SyncConfigured(o: Environment -> Oracle)
      modifies this
      ensures Abs() == SlotsSynced(old(Abs()), ENVIRONMENTS, o)
    {
      for i := 0 to |ENVIRONMENTS|
        invariant Abs() == SlotsSynced(old(Abs()), ENVIRONMENTS[..i], o)
      {
        assert ENVIRONMENTS[..i + 1][..i] == ENVIRONMENTS[..i];
        SyncSlot(ENVIRONMENTS[i], o(ENVIRONMENTS[i]));
      }
      assert ENVIRONMENTS[..|ENVIRONMENTS|] == ENVIRONMENTS;
    }

    method SyncDemoAfterOrder(c: Client, o: Oracle)
      modifies this
      ensures Abs() == OrderSynced(old(Abs()), c, o)
    {
      requests := requests + [Read(c, Demo, None)];
      if o.onDemo == Portfolio {
        var _ := RecordSuccess(c, Demo, o.first);
      }
    }
  }
}
