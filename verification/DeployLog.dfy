/**
 What a deployment check writes down: the status file, the actions of a check in order, the rules they
 follow, and the histories of checks that may have failed or been killed anywhere.
 */
module DeployLog {
  import opened Base

  type Sha = string

  predicate ValidSha(s: Sha) {
    |s| == 40 && forall i :: 0 <= i < 40 ==> '0' <= s[i] <= '9' || 'a' <= s[i] <= 'f'
  }

  // ---------- CI ----------

  datatype CiRun = CiRun(id: int, sha: Sha, branch: string, event: string, status: string, conclusion: string)

  predicate Matches(run: CiRun, sha: Sha, branch: string) {
    run.sha == sha && run.branch == branch && run.event == "push"
  }

  function Matching(runs: seq<CiRun>, sha: Sha, branch: string): seq<CiRun> {
    if runs == [] then []
    else
      var init, last := Matching(runs[..|runs| - 1], sha, branch), runs[|runs| - 1];
      if Matches(last, sha, branch) then init + [last] else init
  }

  // The first run with the greatest ID.
  function Latest(runs: seq<CiRun>): CiRun
    requires runs != []
  {
    if |runs| == 1 then runs[0]
    else
      var latest := Latest(runs[..|runs| - 1]);
      if runs[|runs| - 1].id > latest.id then runs[|runs| - 1] else latest
  }

  function SuccessfulCi(runs: seq<CiRun>, sha: Sha, branch: string): Option<CiRun> {
    var matching := Matching(runs, sha, branch);
    if matching != [] && Latest(matching).status == "completed" && Latest(matching).conclusion == "success"
    then Some(Latest(matching))
    else None
  }

  // ---------- Status and actions ----------

  datatype Phase = Paused | Building | Deploying | RolledBack | Running | WaitingForCi | RetryBackoff | Error

  datatype Status = Status(phase: Option<Phase>, current: Option<Sha>, previous: Option<Sha>, candidate: Option<Sha>,
                           observed: Option<Sha>, failed: Option<Sha>, retryAfter: int, settings: Option<string>)

  const NEW := Status(None, None, None, None, None, None, 0, None)

  // What one check does, in order, with the evidence it acted on.  `Up` is a revision handed to compose with
  // the settings of the process, whatever comes of it; `Verified` and `Unhealthy` end the wait for it;
  // `Fetched` is the search for a candidate; `Broke` a failed deployment; `Wrote` an attempt to write the
  // status file.
  datatype Act =
    | Up(sha: Sha, settings: string)
    | Verified(sha: Sha, live: Option<Sha>)
    | Unhealthy(sha: Sha)
    | Fetched(live: Option<Sha>)
    | Passed(sha: Sha, runs: seq<CiRun>, at: int)
    | Started(sha: Sha, at: int)
    | Built(sha: Sha)
    | BackedUp(sha: Sha)
    | NoDatabase(sha: Sha)
    | Restored(live: Option<Sha>)
    | Broke(sha: Sha, at: int)
    | Wrote(status: Status, ok: bool)

  // The status file after some actions: what was last written to it.
  function Disk(start: Status, acts: seq<Act>): Status {
    if acts == [] then start
    else
      var last := acts[|acts| - 1];
      if last.Wrote? && last.ok then last.status else Disk(start, acts[..|acts| - 1])
  }

  // The last failure of a deployment.
  function LastBroke(acts: seq<Act>): Option<(Sha, int)> {
    if acts == [] then None
    else
      var last := acts[|acts| - 1];
      if last.Broke? then Some((last.sha, last.at)) else LastBroke(acts[..|acts| - 1])
  }

  // ---------- The rules of one check ----------

  ghost predicate CiPassed(acts: seq<Act>, sha: Sha) {
    exists runs: seq<CiRun>, t: int :: Passed(sha, runs, t) in acts
  }

  // The candidate passed CI, was built, and the database was backed up or absent, in this order.
  ghost predicate ReadyAt(acts: seq<Act>, sha: Sha, a: int, b: int, c: int) {
    && 0 <= a < b < c < |acts|
    && acts[a].Passed? && acts[a].sha == sha && acts[b] == Built(sha)
    && (acts[c] == BackedUp(sha) || acts[c] == NoDatabase(sha))
  }

  ghost predicate Ready(acts: seq<Act>, sha: Sha) {
    exists a, b, c :: ReadyAt(acts, sha, a, b, c)
  }

  ghost predicate Quiet(acts: seq<Act>, from: nat) {
    forall k :: from <= k < |acts| ==> !acts[k].Up?
  }

  // A ready candidate was applied at d, nothing was applied after it, and it was seen running at e.
  ghost predicate ProvenAt(acts: seq<Act>, sha: Sha, d: int, e: int) {
    && 0 <= d < e < |acts| && Ready(acts[..d], sha)
    && acts[d].Up? && acts[d].sha == sha && acts[e] == Verified(sha, Some(sha)) && Quiet(acts, d + 1)
  }

  ghost predicate Proven(acts: seq<Act>, sha: Sha) {
    exists d, e :: ProvenAt(acts, sha, d, e)
  }

  // The accepted revision of a status is the old one or a proven one.
  ghost predicate CurrentOk(start: Status, acts: seq<Act>, s: Status) {
    s.current == start.current || (s.current.Some? && Proven(acts, s.current.value))
  }

  // A revision was applied at d with some settings, and was then seen running at e with nothing applied in
  // between.
  ghost predicate AppliedAt(acts: seq<Act>, sha: Sha, settings: string, d: int, e: int) {
    && 0 <= d < e < |acts| && acts[d] == Up(sha, settings) && acts[e] == Verified(sha, Some(sha))
    && forall k :: d < k < e ==> !acts[k].Up?
  }

  ghost predicate Applied(acts: seq<Act>, sha: Sha, settings: string) {
    exists d, e :: AppliedAt(acts, sha, settings, d, e)
  }

  // A status names the accepted revision and the settings it was read with, or a revision and settings that
  // were applied together.
  ghost predicate SettingsOk(start: Status, acts: seq<Act>, s: Status) {
    || (s.current == start.current && s.settings == start.settings)
    || (s.current.Some? && s.settings.Some? && Applied(acts, s.current.value, s.settings.value))
  }

  predicate SameMark(s: Status, t: Status) {
    s.failed == t.failed && s.retryAfter == t.retryAfter
  }

  ghost predicate StartedIn(acts: seq<Act>, sha: Sha) {
    exists t: int :: Started(sha, t) in acts
  }

  // After a failure a status names it and the time of the next try; before one it keeps the old mark, or
  // clears it when a deployment it started was accepted.
  ghost predicate MarkOk(start: Status, acts: seq<Act>, s: Status) {
    match LastBroke(acts)
    case Some((sha, at)) => s.failed == Some(sha) && s.retryAfter == at + 600
    case None => SameMark(s, start) || (s.failed == None && s.current.Some? && StartedIn(acts, s.current.value))
  }

  ghost predicate StatusOk(start: Status, acts: seq<Act>, s: Status) {
    CurrentOk(start, acts, s) && SettingsOk(start, acts, s) && MarkOk(start, acts, s)
  }

  // A deployment of a revision was started, no later than a given time.
  ghost predicate StartedBy(acts: seq<Act>, sha: Sha, at: int) {
    exists t: int :: t <= at && Started(sha, t) in acts
  }

  predicate BacksOff(s: Status, sha: Sha, at: int) {
    s.failed == Some(sha) && at < s.retryAfter
  }

  // What an action needs, in a check that goes by the CI runs of one branch.
  ghost predicate Allowed(branch: string, start: Status, before: seq<Act>, act: Act) {
    match act
    case Up(sha, _) => start.current == Some(sha) || Ready(before, sha)
    case Verified(sha, live) => live == Some(sha)
    case Fetched(live) => start.current.Some? ==> live == start.current
    case Restored(live) => start.current.Some? && live == start.current
    case Passed(sha, runs, _) => SuccessfulCi(runs, sha, branch).Some?
    case Started(sha, at) => CiPassed(before, sha) && !BacksOff(start, sha, at)
    case Broke(sha, at) =>
      && StartedBy(before, sha, at)
      && (LastBroke(before).Some? ==> LastBroke(before).value.0 == sha && LastBroke(before).value.1 <= at)
    case Wrote(s, _) => StatusOk(start, before, s)
    case _ => true
  }

  ghost predicate Lawful(branch: string, start: Status, acts: seq<Act>) {
    forall k :: 0 <= k < |acts| ==> Allowed(branch, start, acts[..k], acts[k])
  }

  // ---------- What holds when a check has ended by itself ----------

  // What was applied last is the accepted revision, or a candidate that was then seen running.
  ghost predicate Tidy(start: Status, acts: seq<Act>) {
    start.current.Some? ==>
      forall d :: 0 <= d < |acts| && acts[d].Up? && Quiet(acts, d + 1) ==>
        Some(acts[d].sha) == start.current || Proven(acts, acts[d].sha)
  }

  ghost predicate NoStart(acts: seq<Act>) {
    forall k :: 0 <= k < |acts| ==> !acts[k].Started?
  }

  // A deployment that was started was accepted in the status file, or failed.
  ghost predicate Concluded(start: Status, acts: seq<Act>) {
    NoStart(acts) || LastBroke(acts).Some? || Disk(start, acts).current != start.current
  }

  // A candidate that passed CI was started at that time exactly when the old mark did not hold it back.
  ghost predicate Decided(start: Status, acts: seq<Act>) {
    forall act :: act in acts && act.Passed? ==>
      (Started(act.sha, act.at) in acts <==> !BacksOff(start, act.sha, act.at))
  }

  // Every failure is followed by an attempt to write the status file.
  ghost predicate Attempted(acts: seq<Act>) {
    forall k :: 0 <= k < |acts| && acts[k].Broke? ==> WroteAfter(acts, k)
  }

  ghost predicate WroteAfter(acts: seq<Act>, k: int) {
    exists l :: 0 <= k < l < |acts| && acts[l].Wrote?
  }

  // ---------- Histories ----------

  // One check: the status it read, what it did, the status file it left, and whether it ended by itself
  // rather than being killed.
  datatype Check = Check(start: Status, acts: seq<Act>, end: Status, finished: bool)

  ghost predicate CheckOk(branch: string, c: Check) {
    && Lawful(branch, c.start, c.acts) && c.end == Disk(c.start, c.acts)
    && (c.finished ==>
      && Tidy(c.start, c.acts) && Concluded(c.start, c.acts)
      && Decided(c.start, c.acts) && Attempted(c.acts))
  }

  // A check reads the status that the one before left.
  ghost predicate Follows(checks: seq<Check>, i: int)
    requires 0 <= i < |checks|
  {
    checks[i].start == if i == 0 then NEW else checks[i - 1].end
  }

  ghost predicate History(branch: string, checks: seq<Check>, disk: Status) {
    && (forall i :: 0 <= i < |checks| ==> CheckOk(branch, checks[i]))
    && (forall i :: 0 <= i < |checks| ==> Follows(checks, i))
    && disk == if checks == [] then NEW else checks[|checks| - 1].end
  }

  lemma HistoryExtends(branch: string, checks: seq<Check>, disk: Status, c: Check)
    requires History(branch, checks, disk) && CheckOk(branch, c) && c.start == disk
    ensures History(branch, checks + [c], c.end)
  {
    hide CheckOk;
    var all := checks + [c];
    forall i | 0 <= i < |all| ensures CheckOk(branch, all[i]) && Follows(all, i) {
      if i < |checks| {
        assert CheckOk(branch, checks[i]) && Follows(checks, i);
      }
    }
  }

  lemma HistoryPrefix(branch: string, checks: seq<Check>, c: Check)
    requires History(branch, checks + [c], c.end)
    ensures History(branch, checks, c.start) && CheckOk(branch, c)
  {
    hide CheckOk;
    var all := checks + [c];
    assert CheckOk(branch, all[|checks|]) && Follows(all, |checks|);
    forall i | 0 <= i < |checks| ensures CheckOk(branch, checks[i]) && Follows(checks, i) {
      assert CheckOk(branch, all[i]) && Follows(all, i);
    }
  }

  // What a check has done when it is killed after its k-th action is lawful in itself.
  function Killed(c: Check, k: nat): Check
    requires k <= |c.acts|
  {
    Check(c.start, c.acts[..k], Disk(c.start, c.acts[..k]), false)
  }

  lemma KilledIsOk(branch: string, c: Check, k: nat)
    requires CheckOk(branch, c) && k <= |c.acts|
    ensures CheckOk(branch, Killed(c, k))
  {
    forall m | 0 <= m < k ensures Allowed(branch, c.start, c.acts[..k][..m], c.acts[..k][m]) {
      assert c.acts[..k][..m] == c.acts[..m];
    }
  }

  // The process of the last check was killed after its k-th action: what the log shows after it did not
  // happen, and the file holds what was written by then.
  lemma KillKeepsHistory(branch: string, checks: seq<Check>, disk: Status, k: nat)
    requires History(branch, checks, disk) && checks != [] && k <= |checks[|checks| - 1].acts|
    ensures var killed := Killed(checks[|checks| - 1], k);
            History(branch, checks[..|checks| - 1] + [killed], killed.end)
  {
    var init, last := checks[..|checks| - 1], checks[|checks| - 1];
    assert checks == init + [last];
    HistoryPrefix(branch, init, last);
    KilledIsOk(branch, last, k);
    HistoryExtends(branch, init, last.start, Killed(last, k));
  }

  // ---------- Extending a check ----------

  lemma LastAct(start: Status, acts: seq<Act>, act: Act)
    ensures Disk(start, acts + [act]) == if act.Wrote? && act.ok then act.status else Disk(start, acts)
    ensures LastBroke(acts + [act]) == if act.Broke? then Some((act.sha, act.at)) else LastBroke(acts)
  {
    assert (acts + [act])[..|acts|] == acts;
  }

  lemma LawfulExtends(branch: string, start: Status, acts: seq<Act>, act: Act)
    requires Lawful(branch, start, acts) && Allowed(branch, start, acts, act)
    ensures Lawful(branch, start, acts + [act])
  {
    var all := acts + [act];
    forall k | 0 <= k < |all| ensures Allowed(branch, start, all[..k], all[k]) {
      if k < |acts| {
        assert all[..k] == acts[..k] && all[k] == acts[k];
      } else {
        assert all[..k] == acts;
      }
    }
  }

  lemma ProvenExtends(acts: seq<Act>, act: Act, sha: Sha)
    requires Proven(acts, sha) && !act.Up?
    ensures Proven(acts + [act], sha)
  {
    var d, e :| ProvenAt(acts, sha, d, e);
    var all := acts + [act];
    assert all[..d] == acts[..d] && all[d] == acts[d] && all[e] == acts[e];
    assert Quiet(all, d + 1);
    assert ProvenAt(all, sha, d, e);
  }

  lemma AppliedExtends(acts: seq<Act>, act: Act, sha: Sha, settings: string)
    requires Applied(acts, sha, settings)
    ensures Applied(acts + [act], sha, settings)
  {
    var d, e :| AppliedAt(acts, sha, settings, d, e);
    var all := acts + [act];
    assert forall k :: 0 <= k < |acts| ==> all[k] == acts[k];
    assert AppliedAt(all, sha, settings, d, e);
  }

  lemma SettingsExtend(start: Status, acts: seq<Act>, act: Act, s: Status)
    requires SettingsOk(start, acts, s)
    ensures SettingsOk(start, acts + [act], s)
  {
    if s.current != start.current || s.settings != start.settings {
      AppliedExtends(acts, act, s.current.value, s.settings.value);
    }
  }

  lemma ReadyExtends(acts: seq<Act>, act: Act, sha: Sha)
    requires Ready(acts, sha)
    ensures Ready(acts + [act], sha)
  {
    var a, b, c :| ReadyAt(acts, sha, a, b, c);
    assert ReadyAt(acts + [act], sha, a, b, c);
  }

  lemma AttemptExtends(acts: seq<Act>, act: Act)
    requires act.Wrote? || (Attempted(acts) && !act.Broke?)
    ensures Attempted(acts + [act])
  {
    var all := acts + [act];
    forall k | 0 <= k < |all| && all[k].Broke? ensures WroteAfter(all, k) {
      if act.Wrote? {
        assert all[|acts|].Wrote?;
      } else {
        var l :| k < l < |acts| && acts[l].Wrote?;
        assert all[l].Wrote?;
      }
    }
  }

  lemma StatusExtends(start: Status, acts: seq<Act>, act: Act, s: Status)
    requires StatusOk(start, acts, s) && !act.Broke? && (act.Up? ==> s.current == start.current)
    ensures StatusOk(start, acts + [act], s)
  {
    hide SettingsOk;
    LastAct(start, acts, act);
    SettingsExtend(start, acts, act, s);
    if s.current != start.current { ProvenExtends(acts, act, s.current.value); }
  }

  lemma TidyExtends(start: Status, acts: seq<Act>, act: Act)
    requires act.Up? && start.current.Some? ==> Some(act.sha) == start.current
    requires !act.Up? ==> Tidy(start, acts)
    ensures Tidy(start, acts + [act])
  {
    var all := acts + [act];
    if start.current.Some? {
      forall d | 0 <= d < |all| && all[d].Up? && Quiet(all, d + 1)
        ensures Some(all[d].sha) == start.current || Proven(all, all[d].sha)
      {
        if d < |acts| {
          assert !all[|acts|].Up?;
          assert forall k :: d < k < |acts| ==> all[k] == acts[k];
          if Some(acts[d].sha) != start.current { ProvenExtends(acts, act, acts[d].sha); }
        }
      }
    }
  }

  lemma NothingToRestore(start: Status, acts: seq<Act>)
    requires start.current == None
    ensures Tidy(start, acts)
  {
  }

  lemma ProvenIsTidy(start: Status, acts: seq<Act>, sha: Sha)
    requires Proven(acts, sha)
    ensures Tidy(start, acts)
  {
    var d, e :| ProvenAt(acts, sha, d, e);
    forall k | 0 <= k < |acts| && acts[k].Up? && Quiet(acts, k + 1) ensures k == d {
    }
  }

  // A proven candidate that was started and has not failed may be written as accepted.
  lemma MayAccept(start: Status, acts: seq<Act>, s: Status)
    requires s.current.Some? && s.settings.Some? && s.failed == None && LastBroke(acts) == None
    requires Proven(acts, s.current.value) && Applied(acts, s.current.value, s.settings.value)
    requires StartedIn(acts, s.current.value)
    ensures StatusOk(start, acts, s)
  {
  }

  // Applying and verifying a ready candidate proves it.
  lemma VerifiedIsProven(acts: seq<Act>, sha: Sha, settings: string)
    requires Ready(acts, sha)
    ensures Proven(acts + [Up(sha, settings)] + [Verified(sha, Some(sha))], sha)
  {
    var all, d := acts + [Up(sha, settings)] + [Verified(sha, Some(sha))], |acts|;
    assert all[..d] == acts;
    assert ProvenAt(all, sha, d, d + 1);
  }

  lemma VerifiedIsApplied(acts: seq<Act>, sha: Sha, settings: string)
    ensures Applied(acts + [Up(sha, settings)] + [Verified(sha, Some(sha))], sha, settings)
  {
    assert AppliedAt(acts + [Up(sha, settings)] + [Verified(sha, Some(sha))], sha, settings, |acts|, |acts| + 1);
  }

  lemma BackupMakesReady(built: seq<Act>, acts: seq<Act>, sha: Sha)
    requires |built| > 0 && built[|built| - 1] == Built(sha) && CiPassed(built, sha)
    requires acts == built + [BackedUp(sha)] || acts == built + [NoDatabase(sha)]
    ensures Ready(acts, sha)
  {
    var runs: seq<CiRun>, t: int :| Passed(sha, runs, t) in built;
    var a :| 0 <= a < |built| && built[a] == Passed(sha, runs, t);
    assert ReadyAt(acts, sha, a, |built| - 1, |built|);
  }

  // A failure and the attempt to write it.
  lemma FailureExtends(branch: string, start: Status, acts: seq<Act>, sha: Sha, at: int, s: Status, ok: bool)
    requires Lawful(branch, start, acts) && Tidy(start, acts)
    requires CurrentOk(start, acts, s) && SettingsOk(start, acts, s)
    requires s.failed == Some(sha) && s.retryAfter == at + 600 && Allowed(branch, start, acts, Broke(sha, at))
    ensures var all := acts + [Broke(sha, at)] + [Wrote(s, ok)];
            && Lawful(branch, start, all) && Tidy(start, all) && Attempted(all) && StatusOk(start, all, s)
            && Disk(start, all) == (if ok then s else Disk(start, acts)) && LastBroke(all) == Some((sha, at))
  {
    var broke, wrote := Broke(sha, at), Wrote(s, ok);
    var more := acts + [broke];
    LastAct(start, acts, broke);
    LawfulExtends(branch, start, acts, broke);
    TidyExtends(start, acts, broke);
    SettingsExtend(start, acts, broke, s);
    if s.current != start.current { ProvenExtends(acts, broke, s.current.value); }
    LastAct(start, more, wrote);
    LawfulExtends(branch, start, more, wrote);
    TidyExtends(start, more, wrote);
    StatusExtends(start, more, wrote, s);
    AttemptExtends(more, wrote);
  }
}
