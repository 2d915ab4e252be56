/**
 What holds of the deployment controller: when CI counts as passed, and what any sequence of checks may
 have accepted, applied and retried, whichever commands failed and wherever a check was killed.
 */
module DeployLaws {
  import opened Base
  import opened Deploy
  import opened DeployLog

  // ---------- CI, independently of how the latest run is found ----------

  // The first matching run with the greatest ID.
  ghost predicate IsLatest(runs: seq<CiRun>, sha: Sha, branch: string, k: nat) {
    && k < |runs| && Matches(runs[k], sha, branch)
    && forall l :: 0 <= l < |runs| && Matches(runs[l], sha, branch) ==>
         runs[l].id <= runs[k].id && (l < k ==> runs[l].id < runs[k].id)
  }

  lemma {:induction false} LatestIsFound(runs: seq<CiRun>, sha: Sha, branch: string) returns (k: nat)
    ensures Matching(runs, sha, branch) == [] ==> forall l :: 0 <= l < |runs| ==> !Matches(runs[l], sha, branch)
    ensures Matching(runs, sha, branch) != [] ==>
      IsLatest(runs, sha, branch, k) && runs[k] == Latest(Matching(runs, sha, branch))
  {
    k := 0;
    if runs != [] {
      var init, last := runs[..|runs| - 1], runs[|runs| - 1];
      var matching := Matching(init, sha, branch);
      k := LatestIsFound(init, sha, branch);
      if Matches(last, sha, branch) {
        assert (matching + [last])[..|matching|] == matching;
        if matching == [] || last.id > Latest(matching).id { k := |runs| - 1; }
      }
    }
  }

  lemma LatestIsUnique(runs: seq<CiRun>, sha: Sha, branch: string, k: nat, l: nat)
    requires IsLatest(runs, sha, branch, k) && IsLatest(runs, sha, branch, l)
    ensures k == l
  {
  }

  // CI is successful exactly when the latest matching push run completed with success, whatever older runs did.
  lemma CiFollowsTheLatestRun(runs: seq<CiRun>, sha: Sha, branch: string, run: CiRun)
    ensures SuccessfulCi(runs, sha, branch) == Some(run) <==>
            && run.status == "completed" && run.conclusion == "success"
            && exists k: nat :: IsLatest(runs, sha, branch, k) && runs[k] == run
  {
    var k := LatestIsFound(runs, sha, branch);
    forall l: nat | IsLatest(runs, sha, branch, l) ensures l == k {
      LatestIsUnique(runs, sha, branch, k, l);
    }
  }

  // ---------- What was accepted and applied ----------

  // The latest matching run of a list of CI runs completed with success.
  ghost predicate CiSucceeded(runs: seq<CiRun>, sha: Sha, branch: string) {
    exists k: nat :: IsLatest(runs, sha, branch, k) && runs[k].status == "completed" && runs[k].conclusion == "success"
  }

  // The candidate's latest CI run had succeeded, it was built, the database was backed up or absent, and
  // then it was applied, in this order.
  ghost predicate PreparedAt(acts: seq<Act>, sha: Sha, branch: string, a: int, b: int, c: int, d: int) {
    && ReadyAt(acts, sha, a, b, c) && CiSucceeded(acts[a].runs, sha, branch)
    && c < d < |acts| && acts[d].Up? && acts[d].sha == sha
  }

  // It was applied and later seen running, with no other revision applied in between.
  ghost predicate AcceptedAt(acts: seq<Act>, sha: Sha, branch: string, d: int, e: int) {
    && (exists a, b, c :: PreparedAt(acts, sha, branch, a, b, c, d))
    && d < e < |acts| && acts[e] == Verified(sha, Some(sha)) && forall k :: d < k < e ==> !acts[k].Up?
  }

  ghost predicate AcceptedIn(acts: seq<Act>, sha: Sha, branch: string) {
    exists d, e :: AcceptedAt(acts, sha, branch, d, e)
  }

  lemma ActIsAllowed(branch: string, c: Check, k: nat)
    requires CheckOk(branch, c) && k < |c.acts|
    ensures Allowed(branch, c.start, c.acts[..k], c.acts[k])
  {
  }

  lemma NextPrefix(c: Check, k: nat)
    requires k < |c.acts|
    ensures var act := c.acts[k];
            && Disk(c.start, c.acts[..k + 1]) ==
               (if act.Wrote? && act.ok then act.status else Disk(c.start, c.acts[..k]))
            && LastBroke(c.acts[..k + 1]) == if act.Broke? then Some((act.sha, act.at)) else LastBroke(c.acts[..k])
  {
    assert c.acts[..k + 1] == c.acts[..k] + [c.acts[k]];
    LastAct(c.start, c.acts[..k], c.acts[k]);
  }

  lemma CiEvidence(branch: string, c: Check, k: nat)
    requires CheckOk(branch, c) && k < |c.acts| && c.acts[k].Passed?
    ensures CiSucceeded(c.acts[k].runs, c.acts[k].sha, branch)
  {
    var (runs, sha) := (c.acts[k].runs, c.acts[k].sha);
    assert Allowed(branch, c.start, c.acts[..k], c.acts[k]);
    CiFollowsTheLatestRun(runs, sha, branch, SuccessfulCi(runs, sha, branch).value);
  }

  lemma ReadyIsPrepared(branch: string, c: Check, sha: Sha, d: int) returns (a: int, b: int, e: int)
    requires CheckOk(branch, c) && 0 <= d < |c.acts| && c.acts[d].Up? && c.acts[d].sha == sha
    requires Ready(c.acts[..d], sha)
    ensures PreparedAt(c.acts, sha, branch, a, b, e, d)
  {
    hide CheckOk, CiSucceeded;
    a, b, e :| ReadyAt(c.acts[..d], sha, a, b, e);
    CiEvidence(branch, c, a);
  }

  lemma ProvenIsAccepted(branch: string, c: Check, k: nat, sha: Sha)
    requires CheckOk(branch, c) && k <= |c.acts| && Proven(c.acts[..k], sha)
    ensures AcceptedIn(c.acts, sha, branch)
  {
    var d, e :| ProvenAt(c.acts[..k], sha, d, e);
    assert c.acts[..k][..d] == c.acts[..d];
    var a, b, f := ReadyIsPrepared(branch, c, sha, d);
    forall m | d < m < e ensures !c.acts[m].Up? {
      assert c.acts[m] == c.acts[..k][m];
    }
    assert AcceptedAt(c.acts, sha, branch, d, e);
  }

  // A revision written as accepted is the one the check found or one it accepted.
  lemma WrittenIsAccepted(branch: string, c: Check, k: nat)
    requires CheckOk(branch, c) && k < |c.acts| && c.acts[k].Wrote?
    ensures var current := c.acts[k].status.current;
            current == c.start.current || (current.Some? && AcceptedIn(c.acts, current.value, branch))
  {
    assert Allowed(branch, c.start, c.acts[..k], c.acts[k]);
    if c.acts[k].status.current != c.start.current {
      ProvenIsAccepted(branch, c, k, c.acts[k].status.current.value);
    }
  }

  lemma {:induction false} DiskIsAccepted(branch: string, c: Check, k: nat)
    requires CheckOk(branch, c) && k <= |c.acts|
    ensures var current := Disk(c.start, c.acts[..k]).current;
            current == c.start.current || (current.Some? && AcceptedIn(c.acts, current.value, branch))
  {
    hide CheckOk, AcceptedIn;
    if k > 0 {
      NextPrefix(c, k - 1);
      DiskIsAccepted(branch, c, k - 1);
      if c.acts[k - 1].Wrote? { WrittenIsAccepted(branch, c, k - 1); }
    }
  }

  // Whatever fails and wherever checks are killed, the accepted revision had a successful latest CI run,
  // was built, was applied after a backup or without a database, and was then seen running.
  lemma {:induction false} AcceptedWasProven(branch: string, checks: seq<Check>, disk: Status, i: nat)
    requires History(branch, checks, disk) && i < |checks| && checks[i].end.current.Some?
    ensures exists k :: 0 <= k <= i && AcceptedIn(checks[k].acts, checks[i].end.current.value, branch)
  {
    var c := checks[i];
    assert CheckOk(branch, c) && c.acts[..|c.acts|] == c.acts;
    DiskIsAccepted(branch, c, |c.acts|);
    assert Follows(checks, i);
    if c.end.current == c.start.current {
      if i > 0 { AcceptedWasProven(branch, checks, disk, i - 1); }
    } else {
      assert AcceptedIn(checks[i].acts, c.end.current.value, branch);
    }
  }

  // A check applies only a candidate it has itself prepared, or the revision accepted before.
  lemma OnlyReadyOrAcceptedIsApplied(branch: string, checks: seq<Check>, disk: Status, i: nat, d: nat, sha: Sha)
    requires History(branch, checks, disk) && i < |checks| && d < |checks[i].acts|
    requires checks[i].acts[d].Up? && checks[i].acts[d].sha == sha
    ensures || (exists a, b, c :: PreparedAt(checks[i].acts, sha, branch, a, b, c, d))
            || (exists k :: 0 <= k < i && AcceptedIn(checks[k].acts, sha, branch))
  {
    assert CheckOk(branch, checks[i]) && Allowed(branch, checks[i].start, checks[i].acts[..d], checks[i].acts[d]);
    if Ready(checks[i].acts[..d], sha) {
      var a, b, c := ReadyIsPrepared(branch, checks[i], sha, d);
    } else {
      assert Follows(checks, i);
      if i > 0 { AcceptedWasProven(branch, checks, disk, i - 1); }
    }
  }

  // A check looks for a candidate only when the accepted revision is the one running, and a rollback is
  // over only when it is running again.
  lemma SearchAndRollbackSeeTheAccepted(branch: string, checks: seq<Check>, disk: Status, i: nat, k: nat)
    requires History(branch, checks, disk) && i < |checks| && k < |checks[i].acts|
    ensures var (start, act) := (checks[i].start, checks[i].acts[k]);
            && (act.Fetched? && start.current.Some? ==> act.live == start.current)
            && (act.Restored? ==> act.live == start.current)
  {
    assert CheckOk(branch, checks[i]) && Allowed(branch, checks[i].start, checks[i].acts[..k], checks[i].acts[k]);
  }

  // With an accepted revision to fall back on, a check that is not killed never leaves a candidate applied
  // last that it has not seen running: it ends by applying the accepted revision again.
  lemma NoUnverifiedCandidateIsLeft(branch: string, checks: seq<Check>, disk: Status, i: nat, d: nat)
    requires History(branch, checks, disk) && i < |checks| && checks[i].finished && checks[i].start.current.Some?
    requires d < |checks[i].acts| && checks[i].acts[d].Up? && Quiet(checks[i].acts, d + 1)
    ensures var (acts, sha) := (checks[i].acts, checks[i].acts[d].sha);
            Some(sha) == checks[i].start.current || exists e :: d < e < |acts| && acts[e] == Verified(sha, Some(sha))
  {
    assert CheckOk(branch, checks[i]);
    var acts, sha := checks[i].acts, checks[i].acts[d].sha;
    if Some(sha) != checks[i].start.current {
      var u, e :| ProvenAt(acts, sha, u, e);
      assert u == d;
    }
  }

  // ---------- Settings ----------

  // A status that a check writes with a revision or settings other than those it read names a revision that
  // this check has applied with these settings, and has then seen running.
  lemma WrittenSettingsWereApplied(branch: string, checks: seq<Check>, disk: Status, i: nat, k: nat)
    requires History(branch, checks, disk) && i < |checks| && k < |checks[i].acts| && checks[i].acts[k].Wrote?
    requires var (start, s) := (checks[i].start, checks[i].acts[k].status);
             s.settings != start.settings || s.current != start.current
    ensures var (acts, s) := (checks[i].acts, checks[i].acts[k].status);
            && s.current.Some? && s.settings.Some?
            && exists d, e :: 0 <= d < e < k && AppliedAt(acts, s.current.value, s.settings.value, d, e)
  {
    var acts, s := checks[i].acts, checks[i].acts[k].status;
    assert CheckOk(branch, checks[i]);
    ActIsAllowed(branch, checks[i], k);
    var d, e :| AppliedAt(acts[..k], s.current.value, s.settings.value, d, e);
    forall m | d < m < e ensures !acts[m].Up? {
      assert acts[m] == acts[..k][m];
    }
    assert AppliedAt(acts, s.current.value, s.settings.value, d, e);
  }

  // The revision and settings in the file are those the check found, or were applied together in it.
  lemma {:induction false} DiskSettings(branch: string, c: Check, k: nat)
    requires CheckOk(branch, c) && k <= |c.acts|
    ensures var s := Disk(c.start, c.acts[..k]);
            || (s.current == c.start.current && s.settings == c.start.settings)
            || (s.current.Some? && s.settings.Some? && Applied(c.acts[..k], s.current.value, s.settings.value))
  {
    hide CheckOk, Applied;
    if k > 0 {
      NextPrefix(c, k - 1);
      DiskSettings(branch, c, k - 1);
      ActIsAllowed(branch, c, k - 1);
      SettingsExtend(c.start, c.acts[..k - 1], c.acts[k - 1], Disk(c.start, c.acts[..k]));
      assert c.acts[..k] == c.acts[..k - 1] + [c.acts[k - 1]];
    }
  }

  // Whatever fails and wherever checks are killed, an accepted revision stands in the file with settings that
  // it was applied and then seen running with, in this check or in an earlier one.
  lemma {:induction false} SettingsWereApplied(branch: string, checks: seq<Check>, disk: Status, i: nat)
    requires History(branch, checks, disk) && i < |checks| && checks[i].end.current.Some?
    ensures var end := checks[i].end;
            && end.settings.Some?
            && exists m :: 0 <= m <= i && Applied(checks[m].acts, end.current.value, end.settings.value)
  {
    hide Applied;
    var c := checks[i];
    assert CheckOk(branch, c) && c.acts[..|c.acts|] == c.acts && Follows(checks, i);
    DiskSettings(branch, c, |c.acts|);
    if c.end.current == c.start.current && c.end.settings == c.start.settings && i > 0 {
      SettingsWereApplied(branch, checks, disk, i - 1);
    }
  }

  // ---------- The wait after a failure ----------

  // Some failure at or after a given time was followed by a successful write of the status file.
  ghost predicate MarkWritten(acts: seq<Act>, at: int) {
    exists k, l :: WrittenAt(acts, at, k, l)
  }

  ghost predicate WrittenAt(acts: seq<Act>, at: int, k: int, l: int) {
    0 <= k < l < |acts| && acts[k].Broke? && acts[k].at >= at && acts[l].Wrote? && acts[l].ok
  }

  // After a failure at k, the last one is of the same revision and no earlier.
  lemma {:induction false} LaterBroke(branch: string, c: Check, k: nat, l: nat)
    requires CheckOk(branch, c) && k < l <= |c.acts| && c.acts[k].Broke?
    ensures var last := LastBroke(c.acts[..l]);
            last.Some? && last.value.0 == c.acts[k].sha && last.value.1 >= c.acts[k].at
  {
    hide CheckOk, LastBroke;
    NextPrefix(c, l - 1);
    if l > k + 1 {
      LaterBroke(branch, c, k, l - 1);
      ActIsAllowed(branch, c, l - 1);
    }
  }

  lemma {:induction false} BrokeIsListed(acts: seq<Act>)
    requires LastBroke(acts).Some?
    ensures exists k :: 0 <= k < |acts| && acts[k] == Broke(LastBroke(acts).value.0, LastBroke(acts).value.1)
  {
    if !acts[|acts| - 1].Broke? {
      BrokeIsListed(acts[..|acts| - 1]);
      var k :| 0 <= k < |acts| - 1 && acts[..|acts| - 1][k] == Broke(LastBroke(acts).value.0, LastBroke(acts).value.1);
      assert acts[k] == acts[..|acts| - 1][k];
    }
  }

  // The file after a written failure names it, with a next try no earlier than 600 seconds after it.
  lemma {:induction false} WrittenMarkIsOnDisk(branch: string, c: Check, k: nat, l: nat, n: nat)
    requires CheckOk(branch, c) && k < l < n <= |c.acts| && c.acts[k].Broke? && c.acts[l].Wrote? && c.acts[l].ok
    ensures var s := Disk(c.start, c.acts[..n]); s.failed == Some(c.acts[k].sha) && s.retryAfter >= c.acts[k].at + 600
  {
    hide CheckOk, LastBroke, Disk, CurrentOk;
    var last := c.acts[n - 1];
    NextPrefix(c, n - 1);
    if last.Wrote? && last.ok {
      LaterBroke(branch, c, k, n - 1);
      ActIsAllowed(branch, c, n - 1);
    } else {
      WrittenMarkIsOnDisk(branch, c, k, l, n - 1);
    }
  }

  // Without a written failure at or after `at`, the file does not hold back a revision that failed at `at`
  // for 600 seconds.
  lemma {:induction false} UnwrittenMarkIsNotOnDisk(branch: string, c: Check, k: nat, n: nat)
    requires CheckOk(branch, c) && k < |c.acts| && c.acts[k].Broke? && n <= |c.acts|
    requires !MarkWritten(c.acts, c.acts[k].at)
    ensures var s := Disk(c.start, c.acts[..n]); s.failed == Some(c.acts[k].sha) ==> s.retryAfter < c.acts[k].at + 600
  {
    var sha, at := c.acts[k].sha, c.acts[k].at;
    if n == 0 {
      StartWasDue(branch, c, k);
    } else {
      var last := c.acts[n - 1];
      NextPrefix(c, n - 1);
      UnwrittenMarkIsNotOnDisk(branch, c, k, n - 1);
      if last.Wrote? && last.ok {
        UnwrittenStatus(branch, c, k, n - 1);
      }
    }
  }

  // A deployment that failed at a given time had been started when the old mark allowed it.
  lemma StartWasDue(branch: string, c: Check, k: nat)
    requires CheckOk(branch, c) && k < |c.acts| && c.acts[k].Broke?
    ensures c.start.failed == Some(c.acts[k].sha) ==> c.start.retryAfter <= c.acts[k].at
  {
    assert Allowed(branch, c.start, c.acts[..k], c.acts[k]);
    var t: int :| t <= c.acts[k].at && Started(c.acts[k].sha, t) in c.acts[..k];
    var m :| 0 <= m < k && c.acts[m] == Started(c.acts[k].sha, t);
    assert Allowed(branch, c.start, c.acts[..m], c.acts[m]);
  }

  lemma UnwrittenStatus(branch: string, c: Check, k: nat, l: nat)
    requires CheckOk(branch, c) && k < |c.acts| && c.acts[k].Broke? && !MarkWritten(c.acts, c.acts[k].at)
    requires l < |c.acts| && c.acts[l].Wrote? && c.acts[l].ok
    ensures c.acts[l].status.failed == Some(c.acts[k].sha) ==> c.acts[l].status.retryAfter < c.acts[k].at + 600
  {
    assert Allowed(branch, c.start, c.acts[..l], c.acts[l]);
    StartWasDue(branch, c, k);
    if LastBroke(c.acts[..l]).Some? {
      BrokeIsListed(c.acts[..l]);
      var m :| 0 <= m < l && c.acts[..l][m] == Broke(LastBroke(c.acts[..l]).value.0, LastBroke(c.acts[..l]).value.1);
      assert !WrittenAt(c.acts, c.acts[k].at, m, l);
    }
  }

  // A deployment is started only when the mark in the file allows it; and once a check that ends by itself
  // has passed CI, it starts the candidate at that time exactly when the mark allows it.
  lemma NextCheckObeysMark(branch: string, checks: seq<Check>, next: Check, sha: Sha, t: int)
    requires History(branch, checks + [next], next.end)
    ensures Started(sha, t) in next.acts ==> !BacksOff(next.start, sha, t)
    ensures next.finished && (exists runs :: Passed(sha, runs, t) in next.acts) ==>
      (Started(sha, t) in next.acts <==> !BacksOff(next.start, sha, t))
  {
    HistoryPrefix(branch, checks, next);
    if Started(sha, t) in next.acts {
      var m :| 0 <= m < |next.acts| && next.acts[m] == Started(sha, t);
      assert Allowed(branch, next.start, next.acts[..m], next.acts[m]);
    }
  }

  // The mark holds a revision back until a given time.
  ghost predicate HeldBack(s: Status, sha: Sha, until: int) {
    forall t :: t < until ==> BacksOff(s, sha, t)
  }

  // The file that a failed check leaves holds its revision back until 600 seconds after the failure if and
  // only if it was written after a failure at that time or later.
  lemma MarkHoldsExactlyWhenWritten(branch: string, c: Check, k: nat)
    requires CheckOk(branch, c) && k < |c.acts| && c.acts[k].Broke?
    ensures MarkWritten(c.acts, c.acts[k].at) <==> HeldBack(c.end, c.acts[k].sha, c.acts[k].at + 600)
  {
    var sha, at := c.acts[k].sha, c.acts[k].at;
    assert c.acts[..|c.acts|] == c.acts;
    if MarkWritten(c.acts, at) {
      var m, l :| WrittenAt(c.acts, at, m, l);
      WrittenMarkIsOnDisk(branch, c, m, l, |c.acts|);
      SameRevision(branch, c, k, m);
    } else {
      UnwrittenMarkIsNotOnDisk(branch, c, k, |c.acts|);
      assert !BacksOff(c.end, sha, at + 599);
    }
  }

  // After a failed deployment the next check waits until 600 seconds after the failure if and only if the
  // status file was written after a failure at that time or later.  Otherwise the file stops holding the
  // revision back before that, and a check that ends by itself and passes CI from then on starts it again.
  lemma RetryWaitsExactlyWhenWritten(branch: string, checks: seq<Check>, next: Check, k: nat)
    requires History(branch, checks + [next], next.end) && checks != []
    requires k < |checks[|checks| - 1].acts| && checks[|checks| - 1].acts[k].Broke?
    ensures var (acts, file) := (checks[|checks| - 1].acts, next.start);
            var (sha, at) := (acts[k].sha, acts[k].at);
            && (MarkWritten(acts, at) <==> HeldBack(file, sha, at + 600))
            && (MarkWritten(acts, at) ==> forall t :: Started(sha, t) in next.acts ==> t >= at + 600)
            && (next.finished ==> forall runs, t :: Passed(sha, runs, t) in next.acts ==>
              (Started(sha, t) in next.acts <==> !BacksOff(file, sha, t)))
  {
    hide CheckOk, Decided, MarkWritten, BacksOff;
    var c, all := checks[|checks| - 1], checks + [next];
    var sha := c.acts[k].sha;
    assert CheckOk(branch, all[|checks| - 1]) && Follows(all, |checks|);
    MarkHoldsExactlyWhenWritten(branch, c, k);
    forall t | Started(sha, t) in next.acts ensures !BacksOff(next.start, sha, t) {
      NextCheckObeysMark(branch, checks, next, sha, t);
    }
    forall runs, t | next.finished && Passed(sha, runs, t) in next.acts
      ensures Started(sha, t) in next.acts <==> !BacksOff(next.start, sha, t)
    {
      NextCheckObeysMark(branch, checks, next, sha, t);
    }
  }

  // The same of the controller itself: with the lock, a check after a failed deployment that is not paused
  // and comes to search finds its candidate held back until 600 seconds after the failure if and only if the
  // failure was written, and starts the candidate exactly if the file does not hold it back.
  method CheckAfterFailure(d: Deployer, ghost k: nat) returns (ghost search: Option<(nat, int)>)
    requires History(d.branch, d.checks, d.disk) && d.checks != []
    requires k < |d.checks[|d.checks| - 1].acts| && d.checks[|d.checks| - 1].acts[k].Broke?
    modifies d
    ensures History(d.branch, d.checks, d.disk) && d.start == old(d.disk)
    ensures d.checks == old(d.checks) + [Check(old(d.disk), d.acts, d.disk, true)]
    ensures search == None ==> d.host.found(old(d.n) + 1) || d.Hindered(old(d.n))
    ensures search.Some? ==>
      var ((m, begin), broke) := (search.value, old(d.checks[|d.checks| - 1].acts)[k]);
      var (sha, t) := (d.host.head(m), DecisionTime(d.host, m, begin));
      && old(d.clock) <= begin <= t
      && (FindsCandidate(d.host, m, d.branch, old(d.disk).current) && sha == broke.sha ==>
        && (MarkWritten(old(d.checks[|d.checks| - 1].acts), broke.at) <==> HeldBack(old(d.disk), sha, broke.at + 600))
        && (Started(sha, t) in d.acts <==> !BacksOff(old(d.disk), sha, t)))
  {
    hide MarkWritten, HeldBack, FindsCandidate, CheckOk, BacksOff;
    ghost var before := d.checks;
    ghost var failed := before[|before| - 1];
    assert CheckOk(d.branch, failed);
    MarkHoldsExactlyWhenWritten(d.branch, failed, k);
    var _, looked := d.Run(true);
    search := looked;
    assert d.checks == before + [d.checks[|before|]];
  }

  lemma SameRevision(branch: string, c: Check, k: nat, m: nat)
    requires CheckOk(branch, c) && k < |c.acts| && m < |c.acts| && c.acts[k].Broke? && c.acts[m].Broke?
    ensures c.acts[k].sha == c.acts[m].sha
  {
    LaterBroke(branch, c, k, |c.acts|);
    LaterBroke(branch, c, m, |c.acts|);
  }

  // No check between i and j starts a deployment.
  ghost predicate Idle(checks: seq<Check>, i: nat, j: nat) {
    forall m :: i < m < j && m < |checks| ==> NoStart(checks[m].acts)
  }

  lemma {:induction false} IdleCheckKeepsMark(branch: string, c: Check, n: nat)
    requires CheckOk(branch, c) && NoStart(c.acts) && n <= |c.acts|
    ensures LastBroke(c.acts[..n]) == None && SameMark(Disk(c.start, c.acts[..n]), c.start)
  {
    hide CheckOk, CurrentOk;
    if n > 0 {
      NextPrefix(c, n - 1);
      IdleCheckKeepsMark(branch, c, n - 1);
      ActIsAllowed(branch, c, n - 1);
      assert forall act :: act in c.acts[..n - 1] ==> !act.Started?;
    }
  }

  lemma {:induction false} IdleKeepsMark(branch: string, checks: seq<Check>, disk: Status, i: nat, j: nat)
    requires History(branch, checks, disk) && i < j < |checks| && Idle(checks, i, j)
    ensures SameMark(checks[j].start, checks[i].end)
    decreases j
  {
    assert Follows(checks, j);
    if i + 1 < j {
      IdleKeepsMark(branch, checks, disk, i, j - 1);
      var c := checks[j - 1];
      assert CheckOk(branch, c) && c.acts[..|c.acts|] == c.acts;
      IdleCheckKeepsMark(branch, c, |c.acts|);
    }
  }

  // Once a failure has been written to the status file, the next deployment that any later check starts is
  // of another revision, or at least 600 seconds after that failure.
  lemma FailedIsNotRetriedAtOnce(branch: string, checks: seq<Check>, disk: Status, i: nat, k: nat, j: nat, m: nat)
    requires History(branch, checks, disk) && i < j < |checks| && Idle(checks, i, j)
    requires k < |checks[i].acts| && checks[i].acts[k].Broke? && MarkWritten(checks[i].acts, checks[i].acts[k].at)
    requires m < |checks[j].acts| && checks[j].acts[m].Started? && checks[j].acts[m].sha == checks[i].acts[k].sha
    ensures checks[j].acts[m].at >= checks[i].acts[k].at + 600
  {
    var c := checks[i];
    assert CheckOk(branch, c) && c.acts[..|c.acts|] == c.acts;
    var b, l :| WrittenAt(c.acts, c.acts[k].at, b, l);
    WrittenMarkIsOnDisk(branch, c, b, l, |c.acts|);
    SameRevision(branch, c, k, b);
    IdleKeepsMark(branch, checks, disk, i, j);
    assert CheckOk(branch, checks[j]) && Allowed(branch, checks[j].start, checks[j].acts[..m], checks[j].acts[m]);
  }

  // A start that fails when the file cannot be written any more leaves it as it was.
  lemma FailedStartLeavesFile(s: Status, acts: seq<Act>, sha: Sha, at: int, end: int, failed: Status, last: Status)
    ensures Disk(s, FailedStart(acts, sha, at, end, failed, false) + [Wrote(last, false)]) == Disk(s, acts)
  {
    LastAct(s, acts, Started(sha, at));
    LastAct(s, acts + [Started(sha, at)], Broke(sha, end));
    LastAct(s, acts + [Started(sha, at)] + [Broke(sha, end)], Wrote(failed, false));
    LastAct(s, FailedStart(acts, sha, at, end, failed, false), Wrote(last, false));
  }

  lemma FailedStartLeavesNoMark(acts: seq<Act>, sha: Sha, at: int, end: int, failed: Status, last: Status)
    requires forall k :: 0 <= k < |acts| ==> !acts[k].Broke?
    ensures var all := FailedStart(acts, sha, at, end, failed, false) + [Wrote(last, false)];
            Broke(sha, end) in all && forall t :: !MarkWritten(all, t)
  {
    var all := FailedStart(acts, sha, at, end, failed, false) + [Wrote(last, false)];
    assert all[|acts| + 1] == Broke(sha, end);
    forall t, k, l ensures !WrittenAt(all, t, k, l) {
    }
  }

  // A check that cannot unpack its candidate, and then cannot write the file, leaves no mark.
  lemma UnmarkedFailure(host: Host, m: nat, live: Option<Sha>, s: Status, begin: int, last: Status)
    requires host.outcome(m + 4) != Done
    ensures var acts := UnpackFailure([], host, m, live, s, begin) + [Wrote(last, false)];
            && Broke(host.head(m), UnpackEnd(host, m, begin)) in acts
            && Disk(s, acts) == s.(observed := Some(host.head(m))) && forall t :: !MarkWritten(acts, t)
  {
    hide Disk, FailedStart, MarkWritten;
    var sha, at, end := host.head(m), DecisionTime(host, m, begin), UnpackEnd(host, m, begin);
    var noted := s.(observed := Some(sha));
    var failed := noted.(failed := Some(sha), retryAfter := end + 600);
    var two := [] + [Fetched(live)] + [Wrote(noted, true)];
    var found := two + [Passed(sha, host.runs(m + 2), at)];
    LastAct(s, [] + [Fetched(live)], Wrote(noted, true));
    LastAct(s, two, Passed(sha, host.runs(m + 2), at));
    FailedStartLeavesFile(s, found, sha, at, end, failed, last);
    FailedStartLeavesNoMark(found, sha, at, end, failed, last);
  }

  // A host with one candidate that has passed CI, on which the first check can neither unpack the candidate
  // nor write the file after that.
  function Unlucky(sha: Sha, branch: string): Host {
    Host(i => if 6 <= i < 9 then Failed else Done, i => false, i => sha,
         i => [CiRun(0, sha, branch, "push", "completed", "success")], i => None, i => 1)
  }

  lemma UnluckyFinds(sha: Sha, branch: string, m: nat)
    requires ValidSha(sha) && (m < 4 || m >= 9)
    ensures FindsCandidate(Unlucky(sha, branch), m, branch, None)
  {
    var run := CiRun(0, sha, branch, "push", "completed", "success");
    assert [run][..0] == [];
    assert Matching([run], sha, branch) == [run];
  }

  // The first check on that host.
  method FailUnmarked(sha: Sha, settings: string, branch: string) returns (d: Deployer)
    requires ValidSha(sha)
    ensures fresh(d) && d.host == Unlucky(sha, branch) && d.branch == branch && d.n == 9 && d.clock == 4
    ensures History(branch, d.checks, d.disk) && |d.checks| == 1 && d.checks[0].finished
    ensures Broke(sha, 4) in d.checks[0].acts && forall at :: !MarkWritten(d.checks[0].acts, at)
    ensures d.disk == NEW.(observed := Some(sha))
  {
    hide Disk, UnpackFailure, MarkWritten, FindsCandidate, CheckOk, Follows;
    NoChecksYet(branch);
    d := new Deployer(Unlucky(sha, branch), settings, branch, NEW, 0, []);
    var _, _ := d.Run(true);
    UnluckyFinds(sha, branch, 3);
    UnmarkedFailure(d.host, 3, None, NEW, 1, d.state);
    LastEndIsDisk(branch, d.checks, d.disk);
  }

  // Two checks of the controller: the first fails and can write no mark, and the second starts the same
  // revision three seconds later.
  method UnwrittenFailureIsRetriedAtOnce(sha: Sha, settings: string, branch: string) returns (d: Deployer)
    requires ValidSha(sha)
    ensures History(branch, d.checks, d.disk) && |d.checks| == 2 && d.checks[0].finished && d.checks[1].finished
    ensures Broke(sha, 4) in d.checks[0].acts && forall at :: !MarkWritten(d.checks[0].acts, at)
    ensures Started(sha, 7) in d.checks[1].acts
  {
    hide Disk, MarkWritten, FindsCandidate, CannotUnpack, CheckOk, History;
    d := FailUnmarked(sha, settings, branch);
    ghost var first := d.checks;
    var _, _ := d.Run(true);
    UnluckyFinds(sha, branch, 12);
    assert Passed(sha, d.host.runs(14), 7) in d.checks[1].acts;
    assert d.checks == first + [d.checks[1]] && d.disk == d.checks[1].end;
    NextCheckObeysMark(branch, first, d.checks[1], sha, 7);
  }

  lemma NoChecksYet(branch: string)
    ensures History(branch, [], NEW)
  {
  }

  lemma LastEndIsDisk(branch: string, checks: seq<Check>, disk: Status)
    requires History(branch, checks, disk) && checks != []
    ensures var c := checks[|checks| - 1]; disk == Disk(c.start, c.acts)
  {
    assert CheckOk(branch, checks[|checks| - 1]);
  }
}
