/**
 The deployment controller: one scheduled check restores the accepted revision, asks for a candidate that
 passed CI, and builds, backs up, applies and verifies it, or rolls back.  Any command may fail, and any
 command may change the revision that is running.
 */
module Deploy {
  import opened Base
  import opened DeployLog

  // A command succeeds, fails with an exit code or a timeout, or raises anything else.
  datatype Outcome = Done | Failed | Raised

  // How the n-th interaction with the host turns out.
  datatype Host = Host(outcome: nat -> Outcome, found: nat -> bool, head: nat -> Sha, runs: nat -> seq<CiRun>,
                       live: nat -> Option<Sha>, elapsed: nat -> nat)

  ghost predicate Troubled(host: Host, from: nat, to: nat) {
    exists i: nat :: from <= i < to && host.outcome(i) != Done
  }

  ghost predicate AllDone(host: Host, from: nat, to: nat) {
    forall i: nat :: from <= i < to ==> host.outcome(i) == Done
  }

  // Where a backup begun at interaction n ends: without a database there is nothing to dump.
  function BackupEnd(host: Host, n: nat): nat {
    if host.found(n) then n + 2 else n + 1
  }

  ghost predicate SawUnhealthy(acts: seq<Act>) {
    exists sha: Sha :: Unhealthy(sha) in acts
  }

  // Longer, with nothing forgotten and no further CI result.
  ghost predicate Continues(acts: seq<Act>, more: seq<Act>) {
    && |acts| <= |more|
    && (forall act :: act in acts ==> act in more)
    && forall act :: act in more && act.Passed? ==> act in acts
  }

  // No candidate has passed CI, and no deployment was started.
  ghost predicate Undecided(acts: seq<Act>) {
    NoStart(acts) && forall act :: act in acts ==> !act.Passed?
  }

  lemma NothingYet()
    ensures Undecided([])
  {
  }

  lemma NothingToDecide(start: Status, acts: seq<Act>)
    requires Undecided(acts)
    ensures NoStart(acts) && Decided(start, acts) && Concluded(start, acts)
  {
  }

  lemma Kept(acts: seq<Act>, more: seq<Act>, act: Act)
    requires Continues(acts, more) && act in acts
    ensures act in more
  {
  }

  lemma AddsNothingOfNote(acts: seq<Act>, act: Act)
    requires !act.Passed? && !act.Started?
    ensures Continues(acts, acts + [act]) && (Undecided(acts) ==> Undecided(acts + [act]))
  {
  }

  lemma ContinuesItself(acts: seq<Act>)
    ensures Continues(acts, acts)
  {
  }

  lemma ContinuesFurther(acts: seq<Act>, more: seq<Act>, all: seq<Act>)
    requires Continues(acts, more) && Continues(more, all)
    ensures Continues(acts, all)
  {
  }

  // A candidate has just passed CI, and no deployment was started yet.
  ghost predicate Awaiting(acts: seq<Act>, sha: Sha, at: int) {
    NoStart(acts) && CiPassed(acts, sha) && forall act :: act in acts && act.Passed? ==> act.sha == sha && act.at == at
  }

  lemma PassingAwaits(acts: seq<Act>, sha: Sha, runs: seq<CiRun>, at: int)
    ensures Undecided(acts) ==> Awaiting(acts + [Passed(sha, runs, at)], sha, at)
  {
    var all := acts + [Passed(sha, runs, at)];
    assert all[|acts|] == Passed(sha, runs, at);
  }

  lemma AwaitingHasPassed(acts: seq<Act>, sha: Sha, at: int)
    requires Awaiting(acts, sha, at)
    ensures CiPassed(acts, sha) && NoStart(acts)
  {
  }

  lemma MayStart(branch: string, start: Status, acts: seq<Act>, sha: Sha, at: int)
    requires CiPassed(acts, sha) && !BacksOff(start, sha, at)
    ensures Allowed(branch, start, acts, Started(sha, at))
  {
  }

  // A candidate held back by the old mark is not started.
  lemma WaitDecides(start: Status, acts: seq<Act>, act: Act, sha: Sha, at: int)
    requires Awaiting(acts, sha, at) && act.Wrote? && BacksOff(start, sha, at)
    ensures NoStart(acts + [act]) && Decided(start, acts + [act]) && Continues(acts, acts + [act])
  {
  }

  // Any other one is started, whatever the deployment does then.
  lemma StartDecides(start: Status, acts: seq<Act>, more: seq<Act>, sha: Sha, at: int)
    requires Awaiting(acts, sha, at) && !BacksOff(start, sha, at) && Continues(acts + [Started(sha, at)], more)
    ensures Started(sha, at) in more && Decided(start, more) && Continues(acts, more)
  {
    assert Started(sha, at) in acts + [Started(sha, at)];
  }

  lemma FailureContinues(acts: seq<Act>, more: seq<Act>, all: seq<Act>)
    requires Continues(acts, more) && |all| == |more| + 2 && all[..|more|] == more
    requires all[|more|].Broke? && all[|more| + 1].Wrote?
    ensures Continues(acts, all)
  {
    assert all == more + [all[|more|]] + [all[|more| + 1]];
  }

  lemma ErrorKeeps(start: Status, acts: seq<Act>, act: Act)
    requires Decided(start, acts) && act.Wrote? && (NoStart(acts) || LastBroke(acts).Some?)
    ensures Decided(start, acts + [act]) && Concluded(start, acts + [act])
  {
    LastAct(start, acts, act);
  }

  // A check whose first command is at interaction n loads the file, is not paused, and finds docker running.
  predicate AtOnce(host: Host, n: nat) {
    host.outcome(n) == Done && !host.found(n + 1) && host.outcome(n + 2) == Done
  }

  // The fetch at interaction m finds a commit that is not the accepted one, it is noted, and its CI succeeded.
  predicate FindsCandidate(host: Host, m: nat, branch: string, current: Option<Sha>) {
    && host.outcome(m) == Done && host.outcome(m + 1) == Done && host.outcome(m + 2) == Done
    && ValidSha(host.head(m)) && Some(host.head(m)) != current
    && SuccessfulCi(host.runs(m + 2), host.head(m), branch).Some?
  }

  // When the candidate fetched at interaction m is decided on, in a search that begins at a given time.
  function DecisionTime(host: Host, m: nat, begin: int): int {
    begin + host.elapsed(m) + host.elapsed(m + 2)
  }

  function UnpackEnd(host: Host, m: nat, begin: int): int {
    DecisionTime(host, m, begin) + host.elapsed(m + 3)
  }

  // By this log the candidate found at interaction m, in a search begun at a given time, has passed CI.
  ghost predicate FoundIn(host: Host, m: nat, begin: int, log: seq<Act>) {
    Passed(host.head(m), host.runs(m + 2), DecisionTime(host, m, begin)) in log
  }

  // The search at interaction m finds a candidate that is due, and fails to unpack it.
  predicate CannotUnpack(host: Host, m: nat, branch: string, s: Status, begin: int) {
    && FindsCandidate(host, m, branch, s.current) && host.outcome(m + 3) != Done
    && !BacksOff(s, host.head(m), DecisionTime(host, m, begin))
  }

  // The log of a deployment that was started and failed without applying anything.
  function FailedStart(acts: seq<Act>, sha: Sha, at: int, end: int, s: Status, ok: bool): seq<Act> {
    acts + [Started(sha, at)] + [Broke(sha, end)] + [Wrote(s, ok)]
  }

  // What the log then holds: the failure is marked, and nothing was applied.
  function UnpackFailure(acts: seq<Act>, host: Host, m: nat, live: Option<Sha>, s: Status, begin: int): seq<Act> {
    var sha, at, end := host.head(m), DecisionTime(host, m, begin), UnpackEnd(host, m, begin);
    var noted := s.(observed := Some(sha));
    FailedStart(acts + [Fetched(live)] + [Wrote(noted, true)] + [Passed(sha, host.runs(m + 2), at)], sha, at, end,
                noted.(failed := Some(sha), retryAfter := end + 600), host.outcome(m + 4) == Done)
  }

  class Deployer {
    const host: Host
    const settings: string
    const branch: string
    var state: Status
    var disk: Status
    var live: Option<Sha>
    var clock: int
    var n: nat
    ghost var start: Status
    ghost var acts: seq<Act>
    ghost var checks: seq<Check>

    // A new process finds the status file that earlier checks, killed ones among them, have left.
    constructor (host: Host, settings: string, branch: string, file: Status, time: int, ghost earlier: seq<Check>)
      requires History(branch, earlier, file)
      ensures History(branch, checks, disk) && checks == earlier && disk == file
      ensures this.host == host && this.settings == settings && this.branch == branch && n == 0 && clock == time
    {
      this.host, this.settings, this.branch := host, settings, branch;
      state, disk, live, clock, n := file, file, None, time, 0;
      start, acts, checks := file, [], earlier;
    }

    // The log so far is lawful, the file holds what was last written, and the memory may be written.
    ghost predicate Sound()
      reads this`start, this`acts, this`state, this`disk
    {
      Lawful(branch, start, acts) && Attempted(acts) && StatusOk(start, acts, state) && disk == Disk(start, acts)
    }

    ghost predicate Clean()
      reads this`start, this`acts, this`state, this`disk
    {
      Sound() && Tidy(start, acts)
    }

    // Nothing has been accepted, and nothing has failed, in this check so far.
    ghost predicate Before()
      reads this`start, this`acts, this`state, this`disk
    {
      state.current == start.current && SameMark(state, start) && LastBroke(acts) == None
    }

    // Something went wrong since interaction `from`: a command failed, or an applied revision was not seen
    // running.
    ghost predicate Hindered(from: nat)
      reads this
    {
      Troubled(host, from, n) || SawUnhealthy(acts)
    }

    // The same, or what was fetched is no commit.
    ghost predicate Excused(from: nat)
      reads this
    {
      Hindered(from) || exists i: nat :: from <= i < n && !ValidSha(host.head(i))
    }

    lemma WidenHindrance(from: nat, later: nat)
      requires from <= later && (Hindered(later) || Troubled(host, later, n))
      ensures Hindered(from)
    {
    }

    lemma WidenExcuse(from: nat, later: nat)
      requires from <= later && Excused(later)
      ensures Excused(from)
    {
    }

    // The deployment under way, if it has failed, is the one of this revision.
    ghost predicate Only(sha: Sha)
      reads this
    {
      && StartedBy(acts, sha, clock)
      && (LastBroke(acts).Some? ==> LastBroke(acts).value.0 == sha && LastBroke(acts).value.1 <= clock)
    }

    // ---------- Actions ----------

    ghost method Log(act: Act)
      requires Sound() && Allowed(branch, start, acts, act) && !act.Broke? && !act.Wrote?
      requires act.Up? ==> state.current == start.current
      modifies this`acts
      ensures Sound() && acts == old(acts) + [act] && LastBroke(acts) == LastBroke(old(acts))
      ensures !act.Up? && old(Clean()) ==> Clean()
      ensures act.Up? && (start.current.Some? ==> Some(act.sha) == start.current) ==> Clean()
    {
      if (act.Up? && (start.current.Some? ==> Some(act.sha) == start.current)) || (!act.Up? && Clean()) {
        TidyExtends(start, acts, act);
      }
      LawfulExtends(branch, start, acts, act);
      StatusExtends(start, acts, act, state);
      LastAct(start, acts, act);
      AttemptExtends(acts, act);
      acts := acts + [act];
    }

    method Command() returns (r: Outcome, i: nat)
      modifies this`n, this`clock, this`live
      ensures i == old(n) && n == i + 1 && r == host.outcome(i) && live == host.live(i)
      ensures clock == old(clock) + host.elapsed(i)
    {
      i := n;
      r, live, clock := host.outcome(i), host.live(i), clock + host.elapsed(i);
      n := n + 1;
    }

    // The memory changes first; a write that fails leaves the file as it was.
    method Save(s: Status) returns (ok: bool)
      requires Sound() && StatusOk(start, acts, s)
      modifies this`state, this`disk, this`n, this`acts
      ensures Sound() && (old(Clean()) ==> Clean())
      ensures state == s && disk == (if ok then s else old(disk))
      ensures acts == old(acts) + [Wrote(s, ok)] && LastBroke(acts) == LastBroke(old(acts))
      ensures n == old(n) + 1 && (ok <==> host.outcome(old(n)) == Done)
    {
      state := s;
      ok := host.outcome(n) == Done;
      n := n + 1;
      if ok {
        disk := state;
      }
      ghost var act := Wrote(s, ok);
      if Tidy(start, acts) { TidyExtends(start, acts, act); }
      LawfulExtends(branch, start, acts, act);
      StatusExtends(start, acts, act, s);
      LastAct(start, acts, act);
      AttemptExtends(acts, act);
      acts := acts + [act];
    }

    // A status that moves neither the accepted revision nor the failure mark, and no settings but those the
    // accepted revision was applied with.
    method Note(s: Status) returns (ok: bool)
      requires Sound() && s.current == state.current && SameMark(s, state)
      requires s.settings == state.settings
               || (s.current.Some? && s.settings.Some? && Applied(acts, s.current.value, s.settings.value))
      modifies this`state, this`disk, this`n, this`acts
      ensures Sound() && (old(Clean()) ==> Clean())
      ensures state == s && disk == (if ok then s else old(disk))
      ensures acts == old(acts) + [Wrote(s, ok)] && LastBroke(acts) == LastBroke(old(acts))
      ensures n == old(n) + 1 && (ok <==> host.outcome(old(n)) == Done)
      ensures Undecided(old(acts)) ==> Undecided(acts)
      ensures !ok ==> Hindered(old(n))
    {
      ok := Save(s);
    }

    // Marks a failed deployment with the time of its next try.
    method MarkFailure(sha: Sha, phase: Option<Phase>) returns (ok: bool)
      requires Clean() && Only(sha)
      modifies this`state, this`disk, this`n, this`acts
      ensures Clean() && n == old(n) + 1 && (ok <==> host.outcome(old(n)) == Done)
      ensures state == old(state).(phase := phase, failed := Some(sha), retryAfter := clock + 600)
      ensures disk == if ok then state else old(disk)
      ensures acts == old(acts) + [Broke(sha, clock)] + [Wrote(state, ok)] && LastBroke(acts) == Some((sha, clock))
    {
      hide Lawful, Tidy, Attempted, Proven, Disk, MarkOk, LastBroke;
      state := state.(phase := phase, failed := Some(sha), retryAfter := clock + 600);
      ok := host.outcome(n) == Done;
      n := n + 1;
      if ok {
        disk := state;
      }
      FailureExtends(branch, start, acts, sha, clock, state, ok);
      acts := acts + [Broke(sha, clock)] + [Wrote(state, ok)];
    }

    // ---------- Commands ----------

    // One look at the running services.
    method Verify(sha: Sha) returns (ok: bool)
      requires Sound()
      modifies this`n, this`clock, this`live, this`acts
      ensures Sound() && (old(Clean()) ==> Clean()) && old(clock) <= clock && LastBroke(acts) == LastBroke(old(acts))
      ensures n == old(n) + 1 && live == host.live(old(n))
      ensures ok <==> host.outcome(old(n)) == Done && live == Some(sha)
      ensures acts == if ok then old(acts) + [Verified(sha, live)] else old(acts)
      ensures Undecided(old(acts)) ==> Undecided(acts)
    {
      var r, i := Command();
      ok := r == Done && live == Some(sha);
      if ok { Log(Verified(sha, live)); }
    }

    method WaitHealthy(sha: Sha) returns (ok: bool)
      requires Sound()
      modifies this`n, this`clock, this`live, this`acts
      ensures Sound() && (old(Clean()) ==> Clean()) && old(clock) <= clock && LastBroke(acts) == LastBroke(old(acts))
      ensures ok ==> live == Some(sha)
      ensures acts == old(acts) + [if ok then Verified(sha, live) else Unhealthy(sha)]
      ensures old(n) <= n && (!ok ==> clock >= old(clock) + 45)
    {
      var deadline := clock + 45;
      while true
        invariant Sound() && (old(Clean()) ==> Clean()) && old(clock) <= clock && acts == old(acts) && old(n) <= n
        decreases deadline - clock
      {
        ok := Verify(sha);
        if ok { return; }
        if clock >= deadline {
          Log(Unhealthy(sha));
          return;
        }
        clock := clock + 2;
      }
    }

    method ComposeUp(sha: Sha) returns (ok: bool)
      requires Sound() && Allowed(branch, start, acts, Up(sha, settings)) && state.current == start.current
      modifies this`n, this`clock, this`live, this`acts
      ensures Sound() && old(clock) <= clock && LastBroke(acts) == LastBroke(old(acts))
      ensures acts == old(acts) + [Up(sha, settings)]
      ensures (start.current.Some? ==> Some(sha) == start.current) ==> Clean()
      ensures n == old(n) + 1 && (ok <==> host.outcome(old(n)) == Done)
    {
      Log(Up(sha, settings));
      var r, i := Command();
      ok := r == Done;
    }

    // Brings a revision up and waits until it is seen running.
    method Apply(sha: Sha) returns (ok: bool)
      requires Sound() && Allowed(branch, start, acts, Up(sha, settings)) && state.current == start.current
      modifies this`n, this`clock, this`live, this`acts
      ensures Sound() && old(clock) <= clock && LastBroke(acts) == LastBroke(old(acts))
      ensures ok ==> live == Some(sha) && acts == old(acts) + [Up(sha, settings)] + [Verified(sha, live)]
      ensures !ok ==>
        || (acts == old(acts) + [Up(sha, settings)] && Troubled(host, old(n), n))
        || acts == old(acts) + [Up(sha, settings)] + [Unhealthy(sha)]
      ensures old(n) < n && (!ok ==> Hindered(old(n)))
      ensures (start.current.Some? ==> Some(sha) == start.current) ==> Clean()
      ensures Continues(old(acts), acts) && (Undecided(old(acts)) ==> Undecided(acts))
    {
      hide Sound, Continues, Undecided;
      ok := ComposeUp(sha);
      ghost var up := acts;
      AddsNothingOfNote(old(acts), Up(sha, settings));
      if ok {
        ok := WaitHealthy(sha);
        AddsNothingOfNote(up, acts[|up|]);
        ContinuesFurther(old(acts), up, acts);
      }
    }

    // A database that exists must be dumped before a candidate is applied.
    method Backup(sha: Sha) returns (ok: bool)
      requires Clean()
      modifies this`n, this`clock, this`live, this`acts
      ensures Clean() && old(clock) <= clock && LastBroke(acts) == LastBroke(old(acts))
      ensures ok <==> host.outcome(old(n)) == Done && (host.found(old(n)) ==> host.outcome(old(n) + 1) == Done)
      ensures ok ==> n == BackupEnd(host, old(n))
      ensures acts == if !ok then old(acts)
                      else if host.found(old(n)) then old(acts) + [BackedUp(sha)]
                      else old(acts) + [NoDatabase(sha)]
      ensures old(n) < n && (!ok ==> Troubled(host, old(n), n))
    {
      hide Sound, Tidy, LastBroke;
      var r, i := Command();
      if r != Done { return false; }
      if !host.found(i) {
        Log(NoDatabase(sha));
        return true;
      }
      r, i := Command();
      if r != Done { return false; }
      Log(BackedUp(sha));
      return true;
    }

    method Runtime() returns (ok: bool)
      modifies this`n, this`clock, this`live
      ensures old(clock) <= clock
      ensures ok <==> || host.outcome(old(n)) == Done
                      || (host.outcome(old(n)) == Failed && host.outcome(old(n) + 1) == Done)
      ensures old(n) < n && (!ok ==> Troubled(host, old(n), n))
      ensures host.outcome(old(n)) == Done ==>
        n == old(n) + 1 && clock == old(clock) + host.elapsed(old(n)) && live == host.live(old(n))
    {
      var r, i := Command();
      if r == Failed {
        r, i := Command();
      }
      ok := r == Done;
    }

    // ---------- A deployment ----------

    // One command was tried since then, and nothing else has happened.
    ghost predicate OnlyTried(s: Status, file: Status, log: seq<Act>, time: int, from: nat)
      reads this
    {
      n == from + 1 && clock == time + host.elapsed(from) && state == s && disk == file && acts == log
    }

    // Unpacks and builds the candidate.
    method Build(sha: Sha) returns (ok: bool)
      requires Clean() && Before()
      modifies this`state, this`disk, this`n, this`clock, this`live, this`acts
      ensures Clean() && Before() && old(clock) <= clock && state.observed == old(state.observed)
      ensures Continues(old(acts), acts) && (ok ==> |acts| > 0 && acts[|acts| - 1] == Built(sha))
      ensures old(n) <= n && (!ok ==> Troubled(host, old(n), n)) && (ok ==> n == old(n) + 3)
      ensures ok <==> AllDone(host, old(n), old(n) + 3)
      ensures ok ==> state == old(state).(phase := Some(Building), candidate := Some(sha))
      ensures host.outcome(old(n)) != Done ==> !ok && OnlyTried(old(state), old(disk), old(acts), old(clock), old(n))
    {
      hide Sound, LastBroke;
      var r, i := Command();
      if r != Done { return false; }
      ok := Note(state.(phase := Some(Building), candidate := Some(sha)));
      if !ok { return; }
      r, i := Command();
      ok := r == Done;
      if ok { Log(Built(sha)); }
    }

    // Saves the database of a built candidate, which is then ready.
    method Secure(sha: Sha) returns (ok: bool)
      requires Clean() && |acts| > 0 && acts[|acts| - 1] == Built(sha) && CiPassed(acts, sha)
      modifies this`n, this`clock, this`live, this`acts
      ensures Clean() && old(clock) <= clock && LastBroke(acts) == LastBroke(old(acts))
      ensures Continues(old(acts), acts) && (ok ==> Ready(acts, sha))
      ensures old(n) <= n && (!ok ==> Troubled(host, old(n), n))
      ensures ok <==> AllDone(host, old(n), BackupEnd(host, old(n)))
      ensures ok ==> n == BackupEnd(host, old(n))
    {
      hide Sound, Tidy, Ready, CiPassed, Continues, LastBroke, Troubled;
      ghost var built := acts;
      ok := Backup(sha);
      if ok {
        BackupMakesReady(built, acts, sha);
        AddsNothingOfNote(built, acts[|built|]);
      } else {
        ContinuesItself(acts);
      }
    }

    method Prepare(sha: Sha) returns (ok: bool)
      requires Clean() && Before() && CiPassed(acts, sha)
      modifies this`state, this`disk, this`n, this`clock, this`live, this`acts
      ensures Clean() && Before() && old(clock) <= clock && state.observed == old(state.observed)
      ensures Continues(old(acts), acts) && (ok ==> Ready(acts, sha))
      ensures old(n) <= n && (!ok ==> Troubled(host, old(n), n))
      ensures ok <==> AllDone(host, old(n), BackupEnd(host, old(n) + 3) + 1)
      ensures ok ==> state == old(state).(phase := Some(Deploying), candidate := Some(sha))
      ensures host.outcome(old(n)) != Done ==> !ok && OnlyTried(old(state), old(disk), old(acts), old(clock), old(n))
    {
      hide Lawful, Tidy, Ready, Proven, Attempted;
      ok := Build(sha);
      if ok {
        ok := Secure(sha);
        if ok {
          ghost var ready := acts;
          ok := Note(state.(phase := Some(Deploying)));
          ReadyExtends(ready, Wrote(state, ok), sha);
        }
      }
    }

    lemma ReadyToMark()
      requires Sound() && start.current == None
      ensures Clean()
    {
      NothingToRestore(start, acts);
    }

    // Brings the accepted revision back, if there is one, and notes the failure once it runs again.
    method RollBack(sha: Sha) returns (restored: bool)
      requires Sound() && Before() && Only(sha)
      modifies this`state, this`disk, this`n, this`clock, this`live, this`acts
      ensures Clean() && Only(sha) && old(clock) <= clock && state.current == start.current && old(n) <= n
      ensures start.current == None ==> acts == old(acts)
      ensures start.current.Some? ==> |acts| > |old(acts)| && acts[|old(acts)|] == Up(start.current.value, settings)
      ensures LastBroke(acts).Some? ==> Restored(start.current) in acts
      ensures restored ==>
        && start.current.Some? && live == start.current && LastBroke(acts) == Some((sha, clock))
        && state == old(state).(phase := Some(RolledBack), failed := Some(sha), retryAfter := clock + 600)
        && n > old(n) && (host.outcome(n - 1) == Done ==> disk == state)
      ensures !restored ==> state == old(state) && (start.current.Some? ==> Hindered(old(n)))
      ensures Continues(old(acts), acts)
    {
      hide Sound, LastBroke;
      if state.current.Some? {
        restored := Apply(state.current.value);
        if restored {
          Log(Restored(live));
          var _ := MarkFailure(sha, Some(RolledBack));
        }
      } else {
        restored := false;
        ReadyToMark();
      }
    }

    // Makes a proven candidate the accepted revision.
    method Accept(sha: Sha) returns (ok: bool)
      requires Sound() && Before() && Proven(acts, sha) && Applied(acts, sha, settings) && StartedIn(acts, sha)
      modifies this`state, this`disk, this`n, this`clock, this`live, this`acts
      ensures Clean() && old(clock) <= clock && state.current == Some(sha) && LastBroke(acts) == None
      ensures ok ==> state.previous == start.current && disk == state
      ensures ok ==> state.phase == Some(Running) && state.observed == old(state.observed)
      ensures ok ==> state.settings == Some(settings) && state.failed == None
      ensures acts == old(acts) + [Wrote(state, host.outcome(old(n)) == Done)] && Continues(old(acts), acts)
      ensures old(n) <= n && (!ok ==> Troubled(host, old(n), n))
    {
      hide Tidy, Proven, Applied, StatusOk, StartedIn, LastBroke, Lawful, Attempted, Disk;
      ProvenIsTidy(start, acts, sha);
      MayAccept(start, acts, state.(phase := Some(Running), current := Some(sha), previous := state.current,
                                    failed := None, retryAfter := 0, settings := Some(settings)));
      ok := Save(state.(phase := Some(Running), current := Some(sha), previous := state.current, failed := None,
                        retryAfter := 0, settings := Some(settings)));
      if !ok { return; }
      var r, i := Command();
      ok := r == Done;
    }

    // Applies the prepared candidate; it takes over, or the accepted revision is brought back.
    method Launch(sha: Sha) returns (ok: bool)
      requires Sound() && Before() && Ready(acts, sha) && Only(sha) && Some(sha) != start.current
      modifies this`state, this`disk, this`n, this`clock, this`live, this`acts
      ensures Clean() && Only(sha) && old(clock) <= clock && Continues(old(acts), acts)
      ensures state.current == start.current || state.current == Some(sha)
      ensures ok ==> state.current == Some(sha) && state.previous == start.current && disk == state
      ensures ok ==> state.phase == Some(Running) && state.observed == old(state.observed)
      ensures ok ==> state.settings == Some(settings)
      ensures old(n) <= n && (!ok ==> Hindered(old(n)))
    {
      hide Sound, Ready, Proven, LastBroke;
      ghost var ready := acts;
      ok := Apply(sha);
      if ok {
        VerifiedIsProven(ready, sha, settings);
        VerifiedIsApplied(ready, sha, settings);
        ghost var from := n;
        ok := Accept(sha);
        if !ok { WidenHindrance(old(n), from); }
      } else {
        var _ := RollBack(sha);
      }
    }

    method DeployCandidate(sha: Sha) returns (ok: bool)
      requires Clean() && Before() && CiPassed(acts, sha) && Only(sha) && Some(sha) != start.current
      modifies this`state, this`disk, this`n, this`clock, this`live, this`acts
      ensures Clean() && Only(sha) && old(clock) <= clock && Continues(old(acts), acts)
      ensures state.current == start.current || state.current == Some(sha)
      ensures ok ==> state.current == Some(sha) && state.previous == start.current && disk == state
      ensures ok ==> state.phase == Some(Running) && state.observed == old(state.observed)
      ensures ok ==> state.settings == Some(settings)
      ensures old(n) <= n && (!ok ==> Hindered(old(n)))
      ensures host.outcome(old(n)) != Done ==> !ok && OnlyTried(old(state), old(disk), old(acts), old(clock), old(n))
    {
      ok := Prepare(sha);
      if ok {
        ghost var from := n;
        ok := Launch(sha);
        if !ok { WidenHindrance(old(n), from); }
      }
    }

    // ---------- A check ----------

    // Brings the accepted revision back when it is not seen running, and again when the settings changed.
    method Restore(current: Sha) returns (ok: bool)
      requires Clean() && Before() && start.current == Some(current) && Undecided(acts)
      modifies this`state, this`disk, this`n, this`clock, this`live, this`acts
      ensures Clean() && Before() && Undecided(acts) && old(clock) <= clock
      ensures ok ==> live == Some(current) && state.settings == Some(settings)
      ensures ok && old(state.settings) != Some(settings) ==> Applied(acts, current, settings)
      ensures old(n) <= n && (!ok ==> Hindered(old(n)))
    {
      hide Sound, Tidy, Undecided, Hindered, LastBroke;
      ok := Verify(current);
      ghost var from := n;
      if !ok {
        ok := Apply(current);
        if !ok {
          WidenHindrance(old(n), from);
          return;
        }
      }
      if state.settings != Some(settings) {
        from := n;
        ghost var before := acts;
        ok := Apply(current);
        if !ok {
          WidenHindrance(old(n), from);
          return;
        }
        VerifiedIsApplied(before, current, settings);
        from := n;
        ghost var applied := acts;
        ok := Note(state.(settings := Some(settings)));
        AppliedExtends(applied, Wrote(state, ok), current, settings);
        if !ok { WidenHindrance(old(n), from); }
      }
    }

    method Fetch() returns (ok: bool, sha: Sha)
      requires Clean() && (start.current.Some? ==> live == start.current)
      modifies this`n, this`clock, this`live, this`acts
      ensures Clean() && clock == old(clock) + host.elapsed(old(n)) && LastBroke(acts) == LastBroke(old(acts))
      ensures acts == old(acts) + [Fetched(old(live))]
      ensures n == old(n) + 1 && sha == host.head(old(n))
      ensures ok <==> host.outcome(old(n)) == Done && ValidSha(sha)
      ensures Undecided(old(acts)) ==> Undecided(acts)
      ensures !ok ==> Excused(old(n))
    {
      Log(Fetched(live));
      var r, i := Command();
      sha := host.head(i);
      ok := r == Done && ValidSha(sha);
    }

    method Ci(sha: Sha) returns (ok: bool, run: Option<CiRun>)
      requires Clean()
      modifies this`n, this`clock, this`live, this`acts
      ensures Clean() && clock == old(clock) + host.elapsed(old(n)) && LastBroke(acts) == LastBroke(old(acts))
      ensures n == old(n) + 1 && (ok <==> host.outcome(old(n)) == Done)
      ensures run == SuccessfulCi(host.runs(old(n)), sha, branch)
      ensures acts == if ok && run.Some? then old(acts) + [Passed(sha, host.runs(old(n)), clock)] else old(acts)
      ensures Undecided(old(acts)) && ok && run.Some? ==> Awaiting(acts, sha, clock)
      ensures !ok ==> Hindered(old(n))
    {
      hide Sound, Tidy, Undecided, Awaiting, LastBroke, SuccessfulCi;
      var r, i := Command();
      ok, run := r == Done, SuccessfulCi(host.runs(i), sha, branch);
      if ok && run.Some? {
        PassingAwaits(acts, sha, host.runs(i), clock);
        Log(Passed(sha, host.runs(i), clock));
      }
    }

    // How a check that raised nothing ends.
    ghost predicate Settled()
      reads this
    {
      && disk == state && state.phase.Some?
      && (state.phase != Some(Paused) && state.current.Some? ==> state.settings == Some(settings))
      && match state.phase.value
         case Paused => acts == [Wrote(state, true)]
         case Running => state.current.Some? && state.current == state.observed
         case WaitingForCi => state.candidate == state.observed && state.observed != start.current == state.current
         case RetryBackoff => state.failed == state.observed && state.observed != start.current == state.current
         case _ => false
    }

    // Deploys a candidate; a failure is marked, in the file too unless the write fails.
    method Start(sha: Sha) returns (ok: bool)
      requires Clean() && Before() && Some(sha) != start.current
      requires CiPassed(acts, sha) && !BacksOff(start, sha, clock)
      modifies this`state, this`disk, this`n, this`clock, this`live, this`acts
      ensures Clean() && Continues(old(acts) + [Started(sha, old(clock))], acts)
      ensures old(clock) <= clock && old(n) <= n && (!ok ==> Hindered(old(n)))
      ensures ok ==> disk == state && state.observed == old(state.observed) && state.phase == Some(Running)
      ensures ok ==> state.current == Some(sha) && state.settings == Some(settings)
      ensures !ok ==>
        && LastBroke(acts) == Some((sha, clock)) && state.failed == Some(sha) && state.retryAfter == clock + 600
        && n > old(n) && (host.outcome(n - 1) == Done ==> disk == state)
      ensures host.outcome(old(n)) != Done ==>
        && !ok && n == old(n) + 2 && clock == old(clock) + host.elapsed(old(n))
        && state == old(state).(failed := Some(sha), retryAfter := clock + 600)
        && acts == FailedStart(old(acts), sha, old(clock), clock, state, host.outcome(n - 1) == Done)
    {
      hide Sound, Continues, Disk, LastBroke, Allowed;
      MayStart(branch, start, acts, sha, clock);
      Log(Started(sha, clock));
      ghost var begun := acts;
      ok := DeployCandidate(sha);
      if !ok {
        ghost var broke := acts;
        var _ := MarkFailure(sha, state.phase);
        FailureContinues(begun, broke, acts);
      }
    }

    // A candidate that is not held back by a mark is deployed.
    method Try(sha: Sha) returns (ok: bool)
      requires Clean() && Before() && Awaiting(acts, sha, clock) && Some(sha) == state.observed != start.current
      requires state.current.Some? ==> state.settings == Some(settings)
      modifies this`state, this`disk, this`n, this`clock, this`live, this`acts
      ensures Clean() && Decided(start, acts) && Concluded(start, acts) && Continues(old(acts), acts)
      ensures old(clock) <= clock && old(n) <= n && (!ok ==> Hindered(old(n)))
      ensures ok ==> Settled() && state.phase != Some(Paused) && state.observed == old(state.observed)
      ensures old(BacksOff(state, sha, clock)) ==> NoStart(acts) && state == old(state).(phase := Some(RetryBackoff))
      ensures !old(BacksOff(state, sha, clock)) ==> Started(sha, old(clock)) in acts
      ensures !old(BacksOff(state, sha, clock)) && ok ==>
        state.phase == Some(Running) && state.current == Some(sha) && state.settings == Some(settings)
      ensures !old(BacksOff(state, sha, clock)) && !ok ==>
        && LastBroke(acts) == Some((sha, clock)) && state.failed == Some(sha) && state.retryAfter == clock + 600
        && n > old(n) && (host.outcome(n - 1) == Done ==> disk == state)
      ensures !old(BacksOff(state, sha, clock)) && host.outcome(old(n)) != Done ==>
        && !ok && n == old(n) + 2 && clock == old(clock) + host.elapsed(old(n))
        && state == old(state).(failed := Some(sha), retryAfter := clock + 600)
        && acts == FailedStart(old(acts), sha, old(clock), clock, state, host.outcome(n - 1) == Done)
    {
      hide Sound, Awaiting, Continues, Decided, Disk, LastBroke, FailedStart, Hindered;
      AwaitingHasPassed(acts, sha, clock);
      if state.failed == Some(sha) && clock < state.retryAfter {
        ok := Note(state.(phase := Some(RetryBackoff)));
        WaitDecides(start, old(acts), Wrote(state, ok), sha, clock);
      } else {
        ok := Start(sha);
        StartDecides(start, old(acts), acts, sha, old(clock));
        if ok { Accepted(); }
      }
    }

    lemma Accepted()
      requires Clean() && disk.current != start.current
      ensures Concluded(start, acts)
    {
    }

    method WaitForCi(sha: Sha) returns (ok: bool)
      requires Clean() && Before() && Undecided(acts) && Some(sha) == state.observed != start.current
      requires state.current.Some? ==> state.settings == Some(settings)
      modifies this`state, this`disk, this`n, this`acts
      ensures Clean() && Undecided(acts) && (ok ==> Settled() && state.phase != Some(Paused))
      ensures old(n) <= n && (!ok ==> Hindered(old(n)))
    {
      ok := Note(state.(phase := Some(WaitingForCi), candidate := Some(sha)));
    }

    // A revision other than the accepted one waits for CI, backs off, or is deployed.
    method Consider(sha: Sha) returns (ok: bool)
      requires Clean() && Before() && Undecided(acts) && Some(sha) == state.observed != start.current
      requires state.current.Some? ==> state.settings == Some(settings)
      modifies this`state, this`disk, this`n, this`clock, this`live, this`acts
      ensures Clean() && Decided(start, acts) && Concluded(start, acts)
      ensures ok ==> Settled() && state.phase != Some(Paused)
      ensures !ok ==> NoStart(acts) || LastBroke(acts).Some?
      ensures old(n) <= n && (!ok ==> Hindered(old(n)))
      ensures host.outcome(old(n)) == Done && SuccessfulCi(host.runs(old(n)), sha, branch).Some? ==>
        && var passed := Passed(sha, host.runs(old(n)), old(clock) + host.elapsed(old(n)));
        && passed in acts
        && (host.outcome(old(n) + 1) != Done && !BacksOff(old(state), sha, passed.at) ==>
          && !ok && n == old(n) + 3 && clock == passed.at + host.elapsed(old(n) + 1)
          && state == old(state).(failed := Some(sha), retryAfter := clock + 600)
          && acts == FailedStart(old(acts) + [passed], sha, passed.at, clock, state, host.outcome(n - 1) == Done))
    {
      hide Sound, Tidy, Hindered, NoStart, Undecided, Awaiting, Continues, Decided, Concluded, LastBroke, Settled,
           SuccessfulCi, BacksOff, FailedStart;
      var run;
      ok, run := Ci(sha);
      ghost var from, asked := if ok then n else old(n), acts;
      if ok && run.Some? {
        assert asked[|asked| - 1] == Passed(sha, host.runs(old(n)), clock);
        ok := Try(sha);
        Kept(asked, acts, asked[|asked| - 1]);
      } else {
        if ok {
          ok := WaitForCi(sha);
        }
        NothingToDecide(start, acts);
      }
      if from > old(n) && !ok { WidenHindrance(old(n), from); }
    }

    lemma RunsObserved()
      requires disk == state && state.phase == Some(Running) && state.current.Some? && state.current == state.observed
      requires state.settings == Some(settings)
      ensures Settled()
    {
    }

    // Looks for a candidate and considers it unless it is the accepted revision.
    method Search(current: Option<Sha>) returns (ok: bool)
      requires Clean() && Before() && Undecided(acts) && current == start.current
      requires current.Some? ==> live == current && state.settings == Some(settings)
      modifies this`state, this`disk, this`n, this`clock, this`live, this`acts
      ensures Clean() && Decided(start, acts) && Concluded(start, acts) && (ok ==> Settled())
      ensures !ok ==> NoStart(acts) || LastBroke(acts).Some?
      ensures old(n) < n && (!ok ==> Excused(old(n)))
      ensures FindsCandidate(host, old(n), branch, current) ==> FoundIn(host, old(n), old(clock), acts)
      ensures CannotUnpack(host, old(n), branch, old(state), old(clock)) ==>
        && !ok && n == old(n) + 5 && clock == UnpackEnd(host, old(n), old(clock))
        && acts == UnpackFailure(old(acts), host, old(n), old(live), old(state), old(clock))
    {
      hide Sound, Tidy, Hindered, NoStart, Undecided, Decided, Concluded, LastBroke, Settled, SuccessfulCi, ValidSha,
           FailedStart;
      var sha;
      ok, sha := Fetch();
      if !ok {
        NothingToDecide(start, acts);
        return;
      }
      ghost var from := n;
      ok := Note(state.(observed := Some(sha)));
      if ok {
        from := n;
        if Some(sha) == current {
          ok := Note(state.(phase := Some(Running)));
          NothingToDecide(start, acts);
          if ok { RunsObserved(); }
        } else {
          ok := Consider(sha);
        }
      } else {
        NothingToDecide(start, acts);
      }
      if !ok { WidenHindrance(old(n), from); }
    }

    // A search that began at a given interaction and time: a candidate that it finds has passed CI by the log.
    ghost predicate Searched(search: (nat, int), from: nat, time: int)
      reads this`start, this`acts
    {
      var (m, begin) := search;
      from < m && time <= begin && (FindsCandidate(host, m, branch, start.current) ==> FoundIn(host, m, begin, acts))
    }

    // `search` is the interaction and the time at which the search for a candidate began.
    method Tick() returns (ok: bool, ghost search: Option<(nat, int)>)
      requires Clean() && Before() && acts == []
      modifies this`state, this`disk, this`n, this`clock, this`live, this`acts
      ensures Clean() && Decided(start, acts) && Concluded(start, acts) && (ok ==> Settled())
      ensures !ok ==> NoStart(acts) || LastBroke(acts).Some?
      ensures old(n) < n && (!ok ==> Excused(old(n)))
      ensures search == None ==> host.found(old(n)) || Hindered(old(n))
      ensures search.Some? ==> Searched(search.value, old(n), old(clock))
      ensures !host.found(old(n)) && host.outcome(old(n) + 1) == Done && start.current == None ==>
        && var (m, begin) := (old(n) + 2, old(clock) + host.elapsed(old(n) + 1));
        && search == Some((m, begin))
        && (CannotUnpack(host, m, branch, old(state), begin) ==>
          && !ok && n == m + 5 && clock == UnpackEnd(host, m, begin)
          && acts == UnpackFailure([], host, m, host.live(m - 1), old(state), begin))
    {
      hide Sound, Tidy, Hindered, NoStart, Concluded, LastBroke, Decided, FindsCandidate, FoundIn, CannotUnpack,
           UnpackFailure, UnpackEnd;
      NothingYet();
      search := None;
      var paused := host.found(n);
      n := n + 1;
      if paused {
        ok := Note(state.(phase := Some(Paused)));
        if !ok { WidenHindrance(old(n), old(n) + 1); }
        NothingToDecide(start, acts);
        return;
      }
      ok := Runtime();
      if !ok {
        WidenHindrance(old(n), old(n) + 1);
        NothingToDecide(start, acts);
        return;
      }
      var current := state.current;
      ghost var from := n;
      if current.Some? {
        ok := Restore(current.value);
        if !ok {
          WidenHindrance(old(n), from);
          NothingToDecide(start, acts);
          return;
        }
      }
      search := Some((n, clock));
      from := n;
      ok := Search(current);
      if !ok { WidenExcuse(old(n), from); }
    }

    // The candidate found by a search is started when it is decided on, exactly if the old mark allows it.
    ghost predicate StartsWhenDue(search: (nat, int))
      reads this`start, this`acts
    {
      var sha, at := host.head(search.0), DecisionTime(host, search.0, search.1);
      Started(sha, at) in acts <==> !BacksOff(start, sha, at)
    }

    lemma FoundIsDecided(search: (nat, int))
      requires Decided(start, acts) && FoundIn(host, search.0, search.1, acts)
      ensures StartsWhenDue(search)
    {
    }

    // A check after the status file was read: one that fails leaves an error status.
    method Attempt() returns (ok: bool, ghost search: Option<(nat, int)>)
      requires Clean() && Before() && acts == []
      modifies this`state, this`disk, this`n, this`clock, this`live, this`acts
      ensures Clean() && Decided(start, acts) && Concluded(start, acts)
      ensures !ok ==> state.phase == Some(Error) && n > 0 && (host.outcome(n - 1) == Done ==> disk == state)
      ensures old(n) < n && (search == None ==> host.found(old(n)) || Hindered(old(n)))
      ensures search.Some? ==>
        && Searched(search.value, old(n), old(clock))
        && (FindsCandidate(host, search.value.0, branch, start.current) ==> StartsWhenDue(search.value))
      ensures !host.found(old(n)) && host.outcome(old(n) + 1) == Done && start.current == None ==>
        && var (m, begin) := (old(n) + 2, old(clock) + host.elapsed(old(n) + 1));
        && search == Some((m, begin))
        && (CannotUnpack(host, m, branch, old(state), begin) ==>
          && n == m + 6 && clock == UnpackEnd(host, m, begin)
          && acts == UnpackFailure([], host, m, host.live(m - 1), old(state), begin)
                     + [Wrote(state, host.outcome(m + 5) == Done)])
    {
      hide Sound, Tidy, Decided, Concluded, NoStart, LastBroke, FindsCandidate, CannotUnpack, UnpackFailure,
           StartsWhenDue;
      ok, search := Tick();
      if !ok {
        ghost var ticked := acts;
        ok := Note(state.(phase := Some(Error)));
        ErrorKeeps(start, ticked, Wrote(state, ok));
        ok := false;
      }
      if search.Some? && FindsCandidate(host, search.value.0, branch, start.current) {
        FoundIsDecided(search.value);
      }
    }

    // A check that has just read the status file has done nothing wrong yet, and one that ends is lawful.
    lemma Begins()
      requires start == state == disk && acts == []
      ensures Clean() && Before() && Decided(start, acts) && Concluded(start, acts)
    {
    }

    lemma Ends()
      requires Clean() && Decided(start, acts) && Concluded(start, acts)
      ensures CheckOk(branch, Check(start, acts, disk, true))
    {
    }

    // One scheduled invocation; without the lock it does nothing.
    method Run(acquired: bool) returns (ok: bool, ghost search: Option<(nat, int)>)
      requires History(branch, checks, disk)
      modifies this
      ensures History(branch, checks, disk)
      ensures if acquired then
                && |checks| == |old(checks)| + 1 && checks[..|old(checks)|] == old(checks)
                && start == old(disk) && checks[|old(checks)|] == Check(start, acts, disk, true)
              else checks == old(checks) && disk == old(disk) && live == old(live)
      ensures acquired && host.outcome(old(n)) != Done ==> !ok && acts == []
      ensures acquired && host.outcome(old(n)) == Done && !ok ==>
        state.phase == Some(Error) && n > 0 && (host.outcome(n - 1) == Done ==> disk == state)
      ensures acquired && search == None ==> host.found(old(n) + 1) || Hindered(old(n))
      ensures acquired && search.Some? ==>
        && Searched(search.value, old(n), old(clock))
        && (FindsCandidate(host, search.value.0, branch, start.current) ==> StartsWhenDue(search.value))
      ensures acquired && AtOnce(host, old(n)) && old(disk).current == None ==>
        && var (m, begin) := (old(n) + 3, old(clock) + host.elapsed(old(n) + 2));
        && search == Some((m, begin))
        && (CannotUnpack(host, m, branch, old(disk), begin) ==>
          && n == m + 6 && clock == UnpackEnd(host, m, begin)
          && acts == UnpackFailure([], host, m, host.live(m - 1), old(disk), begin)
                     + [Wrote(state, host.outcome(m + 5) == Done)])
    {
      hide Clean, Before, Decided, Concluded, UnpackFailure, UnpackEnd, FindsCandidate, CannotUnpack, FoundIn, Disk,
           StartsWhenDue, History, CheckOk;
      search := None;
      if !acquired { return true, None; }
      state := disk;
      start, acts := disk, [];
      ok := host.outcome(n) == Done;
      n := n + 1;
      Begins();
      if ok {
        ok, search := Attempt();
      }
      Ends();
      HistoryExtends(branch, checks, old(disk), Check(start, acts, disk, true));
      checks := checks + [Check(start, acts, disk, true)];
    }
  }
}
