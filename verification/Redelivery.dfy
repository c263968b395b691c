/** Redelivery after a crash or an error (internal/platform/jobs/jobs.go:114-129, 154-160,
    internal/reports/service.go:166-175): two timers decide whether the next attempt finds the old claim stale or
    silently finishes the job. */
module Redelivery {
  import opened Prelude
  import opened ReportDomain
  import opened JobQueue
  import opened Protocol
  import opened Invariants
  import opened Budget
  import opened JobLock
  import opened Lifecycle
  import opened Recovery
  import opened Witness

  /** The run neither selects job `j` nor records an outcome on it, not even an earlier attempt's. */
  ghost predicate RowUntouched(c: Config, s: State, steps: seq<Step>, j: JobId)
    requires Runnable(c, s, steps)
    decreases |steps|
  {
    j in s.jobs &&
    (steps == [] ||
     (var t := Apply(c, s, steps[0]); j in t.jobs && t.jobs[j] == s.jobs[j] && RowUntouched(c, t, steps[1..], j)))
  }

  lemma {:induction false} UntouchedRowStays(c: Config, s: State, steps: seq<Step>, j: JobId)
    requires Runnable(c, s, steps) && RowUntouched(c, s, steps, j)
    ensures j in After(c, s, steps).jobs && After(c, s, steps).jobs[j] == s.jobs[j]
    decreases |steps|
  {
    if steps != [] {
      UntouchedRowStays(c, Apply(c, s, steps[0]), steps[1..], j);
    }
  }

  /** An execution id is never reused: while it is in flight it keeps its job, payload and lock time. */
  lemma {:induction false} ExecPersists(c: Config, s: State, steps: seq<Step>, e: ExecId)
    requires Runnable(c, s, steps) && e < s.nextExec && e in After(c, s, steps).execs
    ensures e in s.execs && After(c, s, steps).execs[e] == s.execs[e].(phase := After(c, s, steps).execs[e].phase)
    decreases |steps|
  {
    if steps != [] {
      var t := Apply(c, s, steps[0]);
      assert s.nextExec <= t.nextExec by { StepGrows(c, s, steps[0]); }
      ExecPersists(c, t, steps[1..], e);
      ExecIdentity(c, s, steps[0], e);
    }
  }

  lemma ReadsAfterLock(c: Config, s: State, e: ExecId)
    requires Inv(c, s) && e in s.execs && s.execs[e].phase.Read?
    ensures s.execs[e].lockedAt <= s.execs[e].phase.since
  {
    assert PhaseOk(s, s.execs[e]);
  }

  /** The run does not select job `j`. */
  ghost predicate Unselected(steps: seq<Step>, j: JobId) {
    forall i :: 0 <= i < |steps| ==> !(steps[i].Lock? && steps[i].jobId == j)
  }

  /** Execution `e` records no outcome: it has crashed, hangs, or its update is lost. */
  ghost predicate Silent(steps: seq<Step>, e: ExecId) {
    forall i :: 0 <= i < |steps| ==> steps[i] != Record(e)
  }

  /** A way a job is run again: what happens before it is selected and before it claims, and its claim. */
  datatype Retry = Retry(wait: seq<Step>, skipped: set<JobId>, work: seq<Step>, claim: Step)

  /** Anything but a selection of job `j` happens until it is selected, and the new attempt works up to its claim. */
  ghost predicate Resumes(c: Config, s: State, j: JobId, r: Retry) {
    && Runnable(c, s, r.wait) && Unselected(r.wait, j)
    && var u := After(c, s, r.wait);
       Enabled(c, u, Lock(j, r.skipped)) && Runnable(c, Apply(c, u, Lock(j, r.skipped)), r.work)
  }

  /** The state in which the new attempt claims. */
  ghost function Resumed(c: Config, s: State, j: JobId, r: Retry): State
    requires Resumes(c, s, j, r)
  {
    After(c, Apply(c, After(c, s, r.wait), Lock(j, r.skipped)), r.work)
  }

  /** The new attempt makes its claim while the report still carries the one of time `held`. */
  ghost predicate Redelivered(c: Config, s: State, j: JobId, id: ReportId, held: Time, r: Retry) {
    && Resumes(c, s, j, r)
    && var w := Resumed(c, s, j, r);
       && Enabled(c, w, r.claim) && r.claim.ClaimReport? && !r.claim.call.Refused?
       && r.claim.e == After(c, s, r.wait).nextExec && w.execs[r.claim.e].payload == Some(id)
       && id in w.reports && w.reports[id].status.Processing? && w.reports[id].processingStartedAt == Some(held)
  }

  lemma ResumedInv(c: Config, s: State, j: JobId, r: Retry)
    requires Inv(c, s) && Resumes(c, s, j, r)
    ensures Inv(c, Resumed(c, s, j, r))
  {
    RunKeepsInv(c, s, r.wait);
    StepKeepsInv(c, After(c, s, r.wait), Lock(j, r.skipped));
    RunKeepsInv(c, Apply(c, After(c, s, r.wait), Lock(j, r.skipped)), r.work);
  }

  /** The new attempt reads its clock no earlier than its job was due. */
  lemma RetryClaimsLater(c: Config, s: State, j: JobId, id: ReportId, held: Time, r: Retry)
    requires Inv(c, s) && Redelivered(c, s, j, id, held, r)
    ensures var u := After(c, s, r.wait); j in u.jobs && Due(u.jobs[j], u.now) && u.now <= r.claim.at
  {
    var u := After(c, s, r.wait);
    var v := Apply(c, u, Lock(j, r.skipped));
    assert v.execs[u.nextExec].lockedAt == u.now;
    ExecPersists(c, v, r.work, u.nextExec);
    ResumedInv(c, s, j, r);
    ReadsAfterLock(c, Resumed(c, s, j, r), r.claim.e);
  }

  // After a crash.

  /** The claim of `claim` stands when its job is redelivered, and its execution has recorded nothing. */
  ghost predicate Abandoned(c: Config, s: State, claim: Step, id: ReportId, r: Retry) {
    && ClaimTakesEffect(c, s, claim, id) && Silent(r.wait, claim.e)
    && Redelivered(c, Apply(c, s, claim), s.execs[claim.e].job, id, claim.at, r)
  }

  /** The execution claims early enough: its delay since the lock plus the lease fit into the lock window. */
  predicate ClaimsInTime(c: Config, s: State, claim: Step)
    requires claim.ClaimReport? && claim.e in s.execs
  {
    (claim.at - s.execs[claim.e].lockedAt) + c.lease <= LOCK_WINDOW
  }

  ghost predicate TakesOver(c: Config, s: State, claim: Step, id: ReportId, r: Retry)
    requires Abandoned(c, s, claim, id, r)
  {
    ClaimTakesEffect(c, Resumed(c, Apply(c, s, claim), s.execs[claim.e].job, r), r.claim, id)
  }

  /** One run: an attempt that holds its job claims in time and is not heard of again. If nobody touches the row
      before the job is selected once more, the new attempt takes the report over. */
  lemma RedeliveredClaimSucceeds(c: Config, s: State, claim: Step, id: ReportId, r: Retry)
    requires Inv(c, s) && Abandoned(c, s, claim, id, r) && ClaimsInTime(c, s, claim)
    requires s.execs[claim.e].job in s.jobs
    requires s.jobs[s.execs[claim.e].job].lockedUntil == Some(s.execs[claim.e].lockedAt + LOCK_WINDOW)
    requires RowUntouched(c, Apply(c, s, claim), r.wait, s.execs[claim.e].job)
    ensures TakesOver(c, s, claim, id, r)
  {
    var j := s.execs[claim.e].job;
    StepKeepsInv(c, s, claim);
    UntouchedRowStays(c, Apply(c, s, claim), r.wait, j);
    RetryClaimsLater(c, Apply(c, s, claim), j, id, claim.at, r);
  }

  /** No execution but `e` is for job `j`, and it has a registered handler. */
  ghost predicate OnlyExec(s: State, j: JobId, e: ExecId) {
    forall f :: f in s.execs && s.execs[f].job == j ==> f == e && s.execs[f].kind.GenerateReport?
  }

  lemma StepKeepsOnly(c: Config, s: State, step: Step, j: JobId, e: ExecId)
    requires OnlyExec(s, j, e) && Enabled(c, s, step) && !(step.Lock? && step.jobId == j) && j in s.jobs
    ensures OnlyExec(Apply(c, s, step), j, e)
    ensures step != Record(e) ==> j in Apply(c, s, step).jobs && Apply(c, s, step).jobs[j] == s.jobs[j]
  {
    forall f | f in Apply(c, s, step).execs
      ensures Apply(c, s, step).execs[f].job == j ==> f == e && Apply(c, s, step).execs[f].kind.GenerateReport?
    {
      ExecIdentity(c, s, step, f);
    }
    JobChange(c, s, step, j);
  }

  lemma {:induction false} OnlyExecLeavesRow(c: Config, s: State, steps: seq<Step>, j: JobId, e: ExecId)
    requires OnlyExec(s, j, e) && Runnable(c, s, steps) && Unselected(steps, j) && Silent(steps, e) && j in s.jobs
    ensures RowUntouched(c, s, steps, j)
    decreases |steps|
  {
    if steps != [] {
      StepKeepsOnly(c, s, steps[0], j, e);
      OnlyExecLeavesRow(c, Apply(c, s, steps[0]), steps[1..], j, e);
    }
  }

  lemma {:induction false} UnselectedAttempts(c: Config, s: State, steps: seq<Step>, j: JobId)
    requires Runnable(c, s, steps) && Unselected(steps, j) && j in s.jobs
    ensures j in After(c, s, steps).jobs && SameJob(s.jobs[j], After(c, s, steps).jobs[j])
    ensures After(c, s, steps).jobs[j].attempts == s.jobs[j].attempts
    decreases |steps|
  {
    if steps != [] {
      JobChange(c, s, steps[0], j);
      UnselectedAttempts(c, Apply(c, s, steps[0]), steps[1..], j);
    }
  }

  /** The first of two attempts is alone with its row. */
  lemma FirstIsAlone(c: Config, s: State, e: ExecId)
    requires Late(c, s) && e in s.execs && s.execs[e].kind.GenerateReport?
    requires s.execs[e].job in s.jobs && s.jobs[s.execs[e].job].attempts == 1
    ensures OnlyExec(s, s.execs[e].job, e)
    ensures s.jobs[s.execs[e].job].lockedUntil == Some(s.execs[e].lockedAt + LOCK_WINDOW)
  {
    assert ExecOk(s, s.execs[e]) && HoldsJob(s, s.execs[e]);
    forall f | f in s.execs && s.execs[f].job == s.execs[e].job
      ensures f == e
    {
      assert ExecOk(s, s.execs[f]);
    }
  }

  /** With two attempts only the first can be followed by another. */
  lemma FirstAbandoned(c: Config, s: State, claim: Step, id: ReportId, r: Retry)
    requires c.maxAttempts <= 2 && Inv(c, s) && Abandoned(c, s, claim, id, r)
    ensures s.execs[claim.e].job in s.jobs && s.jobs[s.execs[claim.e].job].attempts == 1
    ensures s.execs[claim.e].kind.GenerateReport?
  {
    var j := s.execs[claim.e].job;
    var t := Apply(c, s, claim);
    FactsOf(c, s, claim.e);
    assert t.jobs == s.jobs;
    UnselectedAttempts(c, t, r.wait, j);
    assert Due(After(c, t, r.wait).jobs[j], After(c, t, r.wait).now);
  }

  lemma SecondTakesOver(c: Config, s: State, claim: Step, id: ReportId, r: Retry)
    requires c.maxAttempts <= 2 && Late(c, s) && Abandoned(c, s, claim, id, r) && ClaimsInTime(c, s, claim)
    ensures TakesOver(c, s, claim, id, r)
  {
    var e := claim.e;
    var j := s.execs[e].job;
    var t := Apply(c, s, claim);
    FirstAbandoned(c, s, claim, id, r);
    FirstIsAlone(c, s, e);
    StepKeepsOnly(c, s, claim, j, e);
    OnlyExecLeavesRow(c, t, r.wait, j, e);
    RedeliveredClaimSucceeds(c, s, claim, id, r);
  }

  /** Whenever an attempt claims in time and is not heard of again, the next one takes the report over. */
  ghost predicate CrashTakesOver(c: Config) {
    forall s, claim, id, r :: Reachable(c, s) && Abandoned(c, s, claim, id, r) && ClaimsInTime(c, s, claim) ==>
      TakesOver(c, s, claim, id, r)
  }

  /** A lease longer than the lock window leaves no time to claim in. */
  lemma LongLeaseIsNeverInTime(c: Config, s: State, claim: Step, id: ReportId)
    requires Inv(c, s) && ClaimTakesEffect(c, s, claim, id) && c.lease > LOCK_WINDOW
    ensures !ClaimsInTime(c, s, claim)
  {
    ReadsAfterLock(c, s, claim.e);
  }

  /** The exact condition on the configuration: with three attempts the late error of the first can unlock the job
      under the second, unless the lease is so long that no claim is in time. */
  lemma CrashTakesOverIff(c: Config)
    requires ValidConfig(c)
    ensures CrashTakesOver(c) <==> c.maxAttempts <= 2 || c.lease > 5 * MINUTE
  {
    if c.maxAttempts <= 2 || c.lease > LOCK_WINDOW {
      forall s, claim, id, r | Reachable(c, s) && Abandoned(c, s, claim, id, r) && ClaimsInTime(c, s, claim)
        ensures TakesOver(c, s, claim, id, r)
      {
        ReachableLate(c, s);
        if c.lease > LOCK_WINDOW {
          LongLeaseIsNeverInTime(c, s, claim, id);
        } else {
          SecondTakesOver(c, s, claim, id, r);
        }
      }
    } else {
      var s, claim, r := LateErrorUnlocks(c);
    }
  }

  // After an error.

  /** Execution `e` for report `id` has returned an error, and the report still carries the claim of time `held`. */
  ghost predicate FailedHolding(s: State, e: ExecId, id: ReportId, held: Time) {
    && e in s.execs && s.execs[e].phase == Returned(RetryableError) && ForReport(s.execs[e], id)
    && id in s.reports && s.reports[id].status.Processing? && s.reports[id].processingStartedAt == Some(held)
    && s.execs[e].job in s.jobs
  }

  /** After a recorded error, a lease shorter than the backoff, a minute per attempt, lets the retry claim. */
  lemma RetriedClaimSucceeds(c: Config, s: State, e: ExecId, id: ReportId, held: Time, r: Retry)
    requires Inv(c, s) && FailedHolding(s, e, id, held) && c.lease < MINUTE * s.jobs[s.execs[e].job].attempts
    requires Redelivered(c, Apply(c, s, Record(e)), s.execs[e].job, id, held, r)
    ensures ClaimTakesEffect(c, Resumed(c, Apply(c, s, Record(e)), s.execs[e].job, r), r.claim, id)
  {
    assert RecordOk(s, s.reports[id]);
    StepKeepsInv(c, s, Record(e));
    BackoffLasts(c, Apply(c, s, Record(e)), r.wait, s.execs[e].job, s.now);
    RetryClaimsLater(c, Apply(c, s, Record(e)), s.execs[e].job, id, held, r);
  }

  /** Until a job that has backed off at `t` is selected, no outcome brings it forward. */
  lemma {:induction false} BackoffLasts(c: Config, s: State, steps: seq<Step>, j: JobId, t: Time)
    requires Runnable(c, s, steps) && Unselected(steps, j) && t <= s.now
    requires j in s.jobs && s.jobs[j].lockedUntil.None? && HeldBackFrom(s.jobs[j], t)
    ensures j in After(c, s, steps).jobs && After(c, s, steps).jobs[j].attempts == s.jobs[j].attempts
    ensures var row := After(c, s, steps).jobs[j]; row.lockedUntil.None? && HeldBackFrom(row, t)
    decreases |steps|
  {
    if steps != [] {
      JobChange(c, s, steps[0], j);
      StepGrows(c, s, steps[0]);
      BackoffLasts(c, Apply(c, s, steps[0]), steps[1..], j, t);
    }
  }

  /** Whenever an attempt fails while the report carries a claim, the retry that meets the claim takes it over. */
  ghost predicate RetryTakesOver(c: Config) {
    forall s, e, id, held, r ::
      (Reachable(c, s) && FailedHolding(s, e, id, held) &&
       Redelivered(c, Apply(c, s, Record(e)), s.execs[e].job, id, held, r)) ==>
        ClaimTakesEffect(c, Resumed(c, Apply(c, s, Record(e)), s.execs[e].job, r), r.claim, id)
  }

  lemma ShortLeaseTakesOver(c: Config)
    requires ValidConfig(c) && (c.lease < MINUTE || c.maxAttempts == 1)
    ensures RetryTakesOver(c)
  {
    forall s, e, id, held, r | Reachable(c, s) && FailedHolding(s, e, id, held)
      && Redelivered(c, Apply(c, s, Record(e)), s.execs[e].job, id, held, r)
      ensures ClaimTakesEffect(c, Resumed(c, Apply(c, s, Record(e)), s.execs[e].job, r), r.claim, id)
    {
      ReachableInv(c, s);
      FactsOf(c, s, e);
      if c.lease < MINUTE {
        RetriedClaimSucceeds(c, s, e, id, held, r);
      } else {
        StepKeepsInv(c, s, Record(e));
        UnselectedAttempts(c, Apply(c, s, Record(e)), r.wait, s.execs[e].job);
        RetryClaimsLater(c, Apply(c, s, Record(e)), s.execs[e].job, id, held, r);
      }
    }
  }

  /** The bound is needed: whenever delay plus lease exceeds the lock window, a crash after the claim can leave the
      report stranded. With one attempt the crash alone is enough; with more, the job is redelivered while the
      lease is fresh, and the new attempt finishes it. */
  lemma RedeliveryCanStrand(c: Config, delay: nat) returns (s: State)
    requires ValidConfig(c) && delay + c.lease > LOCK_WINDOW
    ensures Reachable(c, s) && Stranded(c, s, ID)
    ensures s.reports[ID].processingStartedAt == Some(delay)
  {
    CrashedReachable(c, delay);
    var dead := Crashed(c, delay);
    if c.maxAttempts == 1 {
      s := dead;
    } else {
      var wait := if delay > LOCK_WINDOW then 0 else LOCK_WINDOW + 1 - delay;
      var e := dead.(now := delay + wait);
      assert Apply(c, dead, Tick(wait)) == e;
      ReachableStep(c, dead, Tick(wait));
      s := StrandFrom(c, e);
    }
  }

  /** The only attempt so far claimed at `at` and died. */
  function Crashed(c: Config, at: Time): State {
    At(at, map[0 := Taken(GenerateJob(c, 0), 0)], ClaimedBy(Fresh(), at), map[], 1)
  }

  lemma CrashedReachable(c: Config, at: nat)
    requires ValidConfig(c)
    ensures Reachable(c, Crashed(c, at))
  {
    OneWorkerReachable(c);
    var a := OneWorker(c);
    var b := a.(now := at);
    assert Apply(c, a, Tick(at)) == b;
    ReachableStep(c, a, Tick(at));
    ClaimsAtOnce(c, b, 0);
    var d := b.(reports := b.reports[ID := ClaimedBy(Fresh(), at)],
                execs := b.execs[0 := b.execs[0].(phase := Claimed(at + HANDLER_TIMEOUT, TYPE_TODO_SUMMARY, at, at))]);
    ReachableStep(c, d, Crash(0));
    assert Apply(c, d, Crash(0)) == Crashed(c, at);
  }

  /** A job whose last claim is still fresh is selected, finds the report taken, and is completed. */
  lemma StrandFrom(c: Config, e: State) returns (s: State)
    requires Reachable(c, e) && e.execs == map[] && e.owed == multiset{} && e.jobs.Keys == {0}
    requires IsNext(e.jobs, e.now, {}, 0) && e.jobs[0].kind.GenerateReport? && e.jobs[0].payload == Some(ID)
    requires ID in e.reports && e.reports[ID].status.Processing? && !ClaimEligible(e.reports[ID], e.now - c.lease)
    ensures Reachable(c, s) && Stranded(c, s, ID) && s.reports == e.reports
  {
    var n := e.nextExec;
    var taken := Apply(c, e, Lock(0, {}));
    ReachableStep(c, e, Lock(0, {}));
    TurnedAwayAtOnce(c, taken, n);
    var done := taken.(execs := taken.execs[n := taken.execs[n].(phase := Returned(Nil))]);
    s := Apply(c, done, Record(n));
    ReachableStep(c, done, Record(n));
    assert s.execs == map[] && s.jobs.Keys == {0} && s.jobs[0].completedAt.Some?;
  }

  /** The completing call of the first attempt has failed at once. */
  function FailedMark(c: Config): State {
    At(0, map[0 := Taken(GenerateJob(c, 0), 0)], ClaimedBy(Fresh(), 0),
       map[0 := FirstAttempt(c, 0, 0, Returned(RetryableError))], 1)
  }

  lemma FailedMarkReachable(c: Config)
    requires ValidConfig(c)
    ensures Reachable(c, FailedMark(c))
  {
    OneWorkerReachable(c);
    var a := OneWorker(c);
    ClaimsAtOnce(c, a, 0);
    var b := a.(reports := a.reports[ID := ClaimedBy(Fresh(), 0)],
                execs := a.execs[0 := a.execs[0].(phase := Claimed(HANDLER_TIMEOUT, TYPE_TODO_SUMMARY, 0, 0))]);
    MarkRefusedAtOnce(c, b, 0);
    assert Moved(b, 0, Returned(RetryableError)) == FailedMark(c);
  }

  /** Its error recorded, the job waits for its second attempt. */
  function BackedOff(c: Config): State {
    At(0, map[0 := Backed(Taken(GenerateJob(c, 0), 0), 0)], ClaimedBy(Fresh(), 0), map[], 1)
  }

  lemma BackedOffAfterRecord(c: Config)
    ensures Enabled(c, FailedMark(c), Record(0)) && Apply(c, FailedMark(c), Record(0)) == BackedOff(c)
  {
  }

  /** Nor does it take a crash: a completing call that fails once is retried after a one minute backoff, and with a
      lease of a minute or more the retry is turned away by the execution's own claim. */
  lemma FailedMarkCanStrand(c: Config) returns (s: State)
    requires ValidConfig(c) && c.maxAttempts >= 2 && c.lease >= MINUTE
    ensures Reachable(c, s) && Stranded(c, s, ID)
  {
    FailedMarkReachable(c);
    BackedOffAfterRecord(c);
    ReachableStep(c, FailedMark(c), Record(0));
    var e := BackedOff(c).(now := MINUTE);
    assert Apply(c, BackedOff(c), Tick(MINUTE)) == e;
    ReachableStep(c, BackedOff(c), Tick(MINUTE));
    s := StrandFrom(c, e);
  }

  /** The job, alone in the queue, is selected at `now` as execution `n`, which starts, reads and claims at once. */
  function PromptRetry(wait: seq<Step>, n: ExecId, now: Time): Retry {
    Retry(wait, {}, [Start(n), ReadReport(n, Acked)], ClaimReport(n, now, Acked))
  }

  lemma PromptWork(c: Config, u: State)
    requires IsNext(u.jobs, u.now, {}, 0) && Names(u.jobs[0], ID)
    requires ID in u.reports && u.reports[ID].status.Processing?
    ensures var n, d := u.nextExec, Apply(c, u, Lock(0, {}));
            var work := [Start(n), ReadReport(n, Acked)];
            && Runnable(c, d, work)
            && After(c, d, work) == Advance(d, n, u.reports, Read(u.now + HANDLER_TIMEOUT, u.reports[ID].kind, u.now))
  {
    var n, d := u.nextExec, Apply(c, u, Lock(0, {}));
    var f := Apply(c, d, Start(n));
    OneStep(c, f, ReadReport(n, Acked));
    MoreSteps(c, d, Start(n), [ReadReport(n, Acked)]);
    assert [Start(n)] + [ReadReport(n, Acked)] == [Start(n), ReadReport(n, Acked)];
    assert Apply(c, f, ReadReport(n, Acked)).execs ==
           d.execs[n := d.execs[n].(phase := Read(u.now + HANDLER_TIMEOUT, u.reports[ID].kind, u.now))];
  }

  lemma PromptRetryResumes(c: Config, s: State, wait: seq<Step>, u: State, held: Time)
    requires Runnable(c, s, wait) && Unselected(wait, 0) && After(c, s, wait) == u
    requires IsNext(u.jobs, u.now, {}, 0) && Names(u.jobs[0], ID)
    requires ID in u.reports && u.reports[ID].status.Processing? && u.reports[ID].processingStartedAt == Some(held)
    ensures Redelivered(c, s, 0, ID, held, PromptRetry(wait, u.nextExec, u.now))
    ensures Resumed(c, s, 0, PromptRetry(wait, u.nextExec, u.now)).reports == u.reports
  {
    PromptWork(c, u);
    var r := PromptRetry(wait, u.nextExec, u.now);
    assert Resumes(c, s, 0, r);
    assert Resumed(c, s, 0, r).execs[u.nextExec].phase == Read(u.now + HANDLER_TIMEOUT, u.reports[ID].kind, u.now);
  }

  /** The exact condition on the configuration: a retry takes over the claim its job left behind, in every run, if
      and only if the lease is under a minute or there are no retries. */
  lemma RetryTakesOverIff(c: Config)
    requires ValidConfig(c)
    ensures RetryTakesOver(c) <==> c.lease < MINUTE || c.maxAttempts == 1
  {
    if c.lease < MINUTE || c.maxAttempts == 1 {
      ShortLeaseTakesOver(c);
    } else {
      FailedMarkReachable(c);
      BackedOffAfterRecord(c);
      OneStep(c, BackedOff(c), Tick(MINUTE));
      PromptRetryResumes(c, BackedOff(c), [Tick(MINUTE)], BackedOff(c).(now := MINUTE), 0);
      assert FailedHolding(FailedMark(c), 0, ID, 0);
      var r := PromptRetry([Tick(MINUTE)], 1, MINUTE);
      assert !ClaimTakesEffect(c, Resumed(c, BackedOff(c), 0, r), r.claim, ID);
    }
  }

  // A late error under a second attempt.

  const SECOND: Time := LOCK_WINDOW + 1

  /** How long the second attempt waits before it claims, so that the third, two minutes after the second was
      locked, meets a fresh lease. */
  function Pause(c: Config): nat {
    if c.lease >= 2 * MINUTE then 0 else 2 * MINUTE
  }

  /** The job after the late error of its first attempt, recorded the instant the second was locked. */
  function Unlocked(c: Config): Jobs {
    map[0 := Backed(Taken(Taken(GenerateJob(c, 0), 0), SECOND), SECOND)]
  }

  /** The second attempt is about to claim. */
  function Unfenced(c: Config): State {
    var at := SECOND + Pause(c);
    At(at, Unlocked(c), Fresh(),
       map[1 := FirstAttempt(c, 0, SECOND, Read(at + HANDLER_TIMEOUT, TYPE_TODO_SUMMARY, at)).(attempt := 2)], 2)
  }

  lemma UnfencedReachable(c: Config)
    requires ValidConfig(c) && c.maxAttempts >= 3
    ensures Reachable(c, Unfenced(c))
  {
    SecondAttemptReachable(c);
    FailsAtOnce(c, SecondAttempt(c), 0);
    var failed := Moved(SecondAttempt(c), 0, Returned(RetryableError));
    var a := At(SECOND, Unlocked(c), Fresh(), map[1 := FirstAttempt(c, 0, SECOND, Locked).(attempt := 2)], 2);
    assert Apply(c, failed, Record(0)) == a;
    ReachableStep(c, failed, Record(0));
    var b := a.(now := SECOND + Pause(c));
    assert Apply(c, a, Tick(Pause(c))) == b;
    ReachableStep(c, a, Tick(Pause(c)));
    ReadsAtOnce(c, b, 1);
    assert Unfenced(c) == Moved(b, 1, Read(b.now + HANDLER_TIMEOUT, TYPE_TODO_SUMMARY, b.now));
  }

  /** The second attempt claims and crashes; its job is due as soon as the backoff of the first ends. */
  function UnfencedClaim(c: Config): Step {
    ClaimReport(1, SECOND + Pause(c), Acked)
  }

  function UnfencedWait(c: Config): seq<Step> {
    [Crash(1), Tick(2 * MINUTE - Pause(c))]
  }

  function DueEarly(c: Config): State {
    At(SECOND + 2 * MINUTE, Unlocked(c), ClaimedBy(Fresh(), SECOND + Pause(c)), map[], 2)
  }

  lemma UnfencedRun(c: Config)
    requires ValidConfig(c)
    ensures ClaimTakesEffect(c, Unfenced(c), UnfencedClaim(c), ID)
    ensures Apply(c, Unfenced(c), UnfencedClaim(c)).jobs == Unlocked(c)
    ensures Runnable(c, Apply(c, Unfenced(c), UnfencedClaim(c)), UnfencedWait(c))
    ensures After(c, Apply(c, Unfenced(c), UnfencedClaim(c)), UnfencedWait(c)) == DueEarly(c)
  {
    var t := Apply(c, Unfenced(c), UnfencedClaim(c));
    var u := Apply(c, t, Crash(1));
    assert u == DueEarly(c).(now := SECOND + Pause(c));
    OneStep(c, u, Tick(2 * MINUTE - Pause(c)));
    MoreSteps(c, t, Crash(1), [Tick(2 * MINUTE - Pause(c))]);
    assert [Crash(1)] + [Tick(2 * MINUTE - Pause(c))] == UnfencedWait(c);
  }

  /** The third attempt is turned away by a claim made in time. */
  lemma LateErrorUnlocks(c: Config) returns (s: State, claim: Step, r: Retry)
    requires ValidConfig(c) && c.maxAttempts >= 3 && c.lease <= LOCK_WINDOW
    ensures Reachable(c, s) && Abandoned(c, s, claim, ID, r) && ClaimsInTime(c, s, claim)
    ensures !TakesOver(c, s, claim, ID, r)
  {
    s, claim := Unfenced(c), UnfencedClaim(c);
    r := PromptRetry(UnfencedWait(c), 2, SECOND + 2 * MINUTE);
    UnfencedReachable(c);
    UnfencedRun(c);
    PromptRetryResumes(c, Apply(c, s, claim), UnfencedWait(c), DueEarly(c), SECOND + Pause(c));
  }

  /** And it closes the job: the report is stranded although its claim was made in time. */
  lemma LateErrorCanStrand(c: Config) returns (s: State)
    requires ValidConfig(c) && c.maxAttempts >= 3 && c.lease <= LOCK_WINDOW
    ensures Reachable(c, s) && Stranded(c, s, ID)
    ensures s.reports[ID].processingStartedAt == Some(SECOND + Pause(c)) && Pause(c) + c.lease <= LOCK_WINDOW
  {
    UnfencedReachable(c);
    UnfencedRun(c);
    ReachableStep(c, Unfenced(c), UnfencedClaim(c));
    ReachableRun(c, Apply(c, Unfenced(c), UnfencedClaim(c)), UnfencedWait(c));
    s := StrandFrom(c, DueEarly(c));
  }

  /** No configuration is safe: under every lease and every budget some run reaches a report that no continuation
      completes. */
  lemma EveryConfigCanStrand(c: Config) returns (s: State)
    requires ValidConfig(c)
    ensures Reachable(c, s) && Stranded(c, s, ID) && !Recovers(c, s, ID)
  {
    s := RedeliveryCanStrand(c, LOCK_WINDOW);
    RecoversIffNotStranded(c, s, ID);
  }

  /** Under the shipped defaults, a five minute lease against a five minute lock, a nanosecond between locking and
      claiming is enough. */
  lemma DefaultsCanStrand() returns (s: State)
    ensures Reachable(Config(5 * MINUTE, MINUTE, 5), s) && Stranded(Config(5 * MINUTE, MINUTE, 5), s, ID)
    ensures s.reports[ID].processingStartedAt == Some(1) && !Recovers(Config(5 * MINUTE, MINUTE, 5), s, ID)
  {
    var c := Config(5 * MINUTE, MINUTE, 5);
    s := RedeliveryCanStrand(c, 1);
    RecoversIffNotStranded(c, s, ID);
  }
}
