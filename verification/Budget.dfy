/** The attempt budget of the job queue over whole runs (internal/platform/jobs/jobs.go:110-160): how often a job
    is selected, how often its handler runs and with which AttemptInfo, how far apart, and how long a due job can
    be overtaken. */
module Budget {
  import opened Prelude
  import opened JobQueue
  import opened Protocol
  import opened Invariants
  import opened Sums

  /** What a step does to job row `j`: it is selected, an outcome is recorded on it, or it stays. */
  lemma JobChange(c: Config, s: State, step: Step, j: JobId)
    requires Enabled(c, s, step) && j in s.jobs
    ensures j in Apply(c, s, step).jobs
    ensures step.Lock? && step.jobId == j ==>
              Apply(c, s, step).jobs[j] == Taken(s.jobs[j], s.now) && Due(s.jobs[j], s.now)
    ensures !(step.Lock? && step.jobId == j) && Apply(c, s, step).jobs[j] != s.jobs[j] ==>
              (step.NoHandler? || step.Record?) && s.execs[step.e].job == j &&
              Apply(c, s, step).jobs[j] in {Closed(s.jobs[j], s.now), Backed(s.jobs[j], s.now)}
  {
  }

  // Selections.

  /** The instants at which a run selects job `j`. */
  ghost function LockTimes(c: Config, s: State, steps: seq<Step>, j: JobId): seq<Time>
    requires Runnable(c, s, steps)
    decreases |steps|
  {
    if steps == [] then [] else
      (if steps[0].Lock? && steps[0].jobId == j then [s.now] else []) +
      LockTimes(c, Apply(c, s, steps[0]), steps[1..], j)
  }

  /** `attempts` counts the selections, neither more nor fewer, and they stay within the budget. */
  lemma {:induction false} AttemptsCountSelections(c: Config, s: State, steps: seq<Step>, j: JobId)
    requires Inv(c, s) && Runnable(c, s, steps)
    ensures j in s.jobs ==> j in After(c, s, steps).jobs
    ensures j in After(c, s, steps).jobs ==>
              var before := if j in s.jobs then s.jobs[j].attempts else 0;
              && After(c, s, steps).jobs[j].attempts == before + |LockTimes(c, s, steps, j)|
              && before + |LockTimes(c, s, steps, j)| <= c.maxAttempts
    ensures j !in After(c, s, steps).jobs ==> LockTimes(c, s, steps, j) == []
    decreases |steps|
  {
    if steps == [] {
      assert j in s.jobs ==> JobOk(c, s, s.jobs[j]);
    } else {
      StepKeepsInv(c, s, steps[0]);
      AttemptsCountSelections(c, Apply(c, s, steps[0]), steps[1..], j);
      SelectionCounts(c, s, steps[0], j);
    }
  }

  lemma SelectionCounts(c: Config, s: State, step: Step, j: JobId)
    requires Enabled(c, s, step)
    ensures j in s.jobs ==> j in Apply(c, s, step).jobs
    ensures j in Apply(c, s, step).jobs ==>
              Apply(c, s, step).jobs[j].attempts ==
              (if j in s.jobs then s.jobs[j].attempts else 0) + (if step.Lock? && step.jobId == j then 1 else 0)
    ensures step.Lock? && step.jobId == j ==> j in s.jobs
  {
  }

  // Backoff.

  function Min(a: int, b: int): int {
    if a < b then a else b
  }

  /** The delays, in minutes, that follow the attempts `a`, `a + 1`, ..., `n` of them. */
  function Spacing(a: nat, n: nat): nat
    decreases n
  {
    if n == 0 then 0 else Min(a, 5) + Spacing(a + 1, n - 1)
  }

  lemma {:induction false} SpacingGrows(a: nat, n: nat)
    ensures Spacing(a, n + 1) == Spacing(a, n) + Min(a + n, 5)
    decreases n
  {
    if n > 0 {
      SpacingGrows(a + 1, n - 1);
    }
  }

  /** The first six selections are at least 0, 1, 3, 6, 10 and 15 minutes after the first; later ones 5 apart. */
  lemma {:induction false} SpacingClosedForm(k: nat)
    ensures k <= 5 ==> 2 * Spacing(1, k) == k * (k + 1)
    ensures k >= 5 ==> Spacing(1, k) == 15 + 5 * (k - 5)
  {
    if k > 0 {
      SpacingClosedForm(k - 1);
      SpacingGrows(1, k - 1);
    }
  }

  /** The row was last selected at `t`: it is still locked from then, or an outcome recorded since has closed it
      or pushed its run time out by a minute per attempt. */
  ghost predicate HeldBackFrom(row: Job, t: Time) {
    if row.lockedUntil.Some? then row.lockedUntil.value >= t + LOCK_WINDOW
    else row.completedAt.Some? || row.runAt >= t + MINUTE * row.attempts
  }

  lemma DueAfterBackoff(row: Job, t: Time, now: Time)
    requires HeldBackFrom(row, t) && Due(row, now)
    ensures now >= t + MINUTE * Min(row.attempts, 5)
  {
  }

  lemma HeldBackStep(c: Config, s: State, step: Step, j: JobId, t: Time)
    requires Enabled(c, s, step) && j in s.jobs && t <= s.now && HeldBackFrom(s.jobs[j], t)
    ensures j in Apply(c, s, step).jobs && s.now <= Apply(c, s, step).now
    ensures step.Lock? && step.jobId == j ==>
              && s.now >= t + MINUTE * Min(s.jobs[j].attempts, 5)
              && HeldBackFrom(Apply(c, s, step).jobs[j], s.now)
              && Apply(c, s, step).jobs[j].attempts == s.jobs[j].attempts + 1
    ensures !(step.Lock? && step.jobId == j) ==>
              && HeldBackFrom(Apply(c, s, step).jobs[j], t)
              && Apply(c, s, step).jobs[j].attempts == s.jobs[j].attempts
  {
    JobChange(c, s, step, j);
    StepGrows(c, s, step);
    if step.Lock? && step.jobId == j {
      DueAfterBackoff(s.jobs[j], t, s.now);
    }
  }

  lemma {:induction false} SpacedFrom(c: Config, s: State, steps: seq<Step>, j: JobId, t: Time, k: nat)
    requires Runnable(c, s, steps) && j in s.jobs && t <= s.now && HeldBackFrom(s.jobs[j], t)
    requires k < |LockTimes(c, s, steps, j)|
    ensures LockTimes(c, s, steps, j)[k] >= t + MINUTE * Spacing(s.jobs[j].attempts, k + 1)
    decreases |steps|
  {
    var u := Apply(c, s, steps[0]);
    HeldBackStep(c, s, steps[0], j, t);
    var a := s.jobs[j].attempts;
    if steps[0].Lock? && steps[0].jobId == j {
      assert LockTimes(c, s, steps, j)[0] == s.now;
      if k > 0 {
        SpacedFrom(c, u, steps[1..], j, s.now, k - 1);
        assert Spacing(a, k + 1) == Min(a, 5) + Spacing(a + 1, k);
      } else {
        assert Spacing(a, 1) == Min(a, 5) + Spacing(a + 1, 0);
      }
    } else {
      assert LockTimes(c, s, steps, j) == LockTimes(c, u, steps[1..], j);
      SpacedFrom(c, u, steps[1..], j, t, k);
    }
  }

  /** Backoff bound: however attempts fail, finish late or crash, the (k+1)-th selection of a job comes at least
      1 + 2 + ... (each at most 5) minutes after its first. */
  lemma {:induction false} SelectionsAreSpaced(c: Config, s: State, steps: seq<Step>, j: JobId, k: nat)
    requires Runnable(c, s, steps) && (j in s.jobs ==> s.jobs[j].attempts == 0)
    requires k < |LockTimes(c, s, steps, j)|
    ensures LockTimes(c, s, steps, j)[k] - LockTimes(c, s, steps, j)[0] >= MINUTE * Spacing(1, k)
    decreases |steps|
  {
    var u := Apply(c, s, steps[0]);
    SelectionCounts(c, s, steps[0], j);
    if steps[0].Lock? && steps[0].jobId == j {
      JobChange(c, s, steps[0], j);
      if k > 0 {
        SpacedFrom(c, u, steps[1..], j, s.now, k - 1);
      }
    } else {
      SelectionsAreSpaced(c, u, steps[1..], j, k);
    }
  }

  // Handler invocations.

  /** The AttemptInfo.Attempt values that job `j`'s handler is started with, in order of starting. */
  ghost function Invocations(c: Config, s: State, steps: seq<Step>, j: JobId): seq<nat>
    requires Runnable(c, s, steps)
    decreases |steps|
  {
    if steps == [] then [] else
      (if StartsJob(s, steps[0], j) then [s.execs[steps[0].e].attempt] else [])
      + Invocations(c, Apply(c, s, steps[0]), steps[1..], j)
  }

  predicate StartsJob(s: State, step: Step, j: JobId) {
    step.Start? && step.e in s.execs && s.execs[step.e].job == j
  }

  /** Executions of one job carry different attempt numbers. */
  ghost predicate DistinctAttempts(s: State) {
    forall e, f ::
      (e in s.execs && f in s.execs && s.execs[e].job == s.execs[f].job &&
       s.execs[e].attempt == s.execs[f].attempt) ==> e == f
  }

  /** A job of a type without a handler never runs one. */
  lemma {:induction false} UnregisteredIsNeverInvoked(c: Config, s: State, steps: seq<Step>, j: JobId)
    requires Inv(c, s) && Runnable(c, s, steps) && j in s.jobs && s.jobs[j].kind.Unregistered?
    ensures Invocations(c, s, steps, j) == []
    decreases |steps|
  {
    if steps != [] {
      StepKeepsInv(c, s, steps[0]);
      StepGrows(c, s, steps[0]);
      assert SameJob(s.jobs[j], Apply(c, s, steps[0]).jobs[j]);
      assert steps[0].Start? ==> ExecOk(s, s.execs[steps[0].e]);
      UnregisteredIsNeverInvoked(c, Apply(c, s, steps[0]), steps[1..], j);
    }
  }

  /** An attempt number that some handler of `j` may still be started with. */
  ghost predicate MayStart(s: State, j: JobId, v: nat) {
    || (exists e :: e in s.execs && s.execs[e].job == j && s.execs[e].attempt == v && s.execs[e].phase.Locked?)
    || v > (if j in s.jobs then s.jobs[j].attempts else 0)
  }

  lemma StepKeepsDistinct(c: Config, s: State, step: Step)
    requires ExecsInv(s) && DistinctAttempts(s) && Enabled(c, s, step)
    ensures DistinctAttempts(Apply(c, s, step))
  {
  }

  /** What may still start after a step might have started before it, except the invocation the step itself is. */
  lemma MayStartBefore(c: Config, s: State, step: Step, j: JobId, v: nat)
    requires ExecsInv(s) && DistinctAttempts(s) && Enabled(c, s, step) && MayStart(Apply(c, s, step), j, v)
    ensures MayStart(s, j, v)
    ensures StartsJob(s, step, j) ==> s.execs[step.e].attempt != v
  {
    var t := Apply(c, s, step);
    SelectionCounts(c, s, step, j);
    if e :| e in t.execs && t.execs[e].job == j && t.execs[e].attempt == v && t.execs[e].phase.Locked? {
      ExecIdentity(c, s, step, e);
    }
    if StartsJob(s, step, j) {
      assert ExecOk(s, s.execs[step.e]);
    }
  }

  /** Handler invocations of a job: each sees its own attempt number, within 1..attempts, so there are no more of
      them than selections. */
  lemma {:induction false} InvocationsAreDistinct(c: Config, s: State, steps: seq<Step>, j: JobId)
    requires Inv(c, s) && DistinctAttempts(s) && Runnable(c, s, steps)
    ensures forall i, k :: 0 <= i < k < |Invocations(c, s, steps, j)| ==>
              Invocations(c, s, steps, j)[i] != Invocations(c, s, steps, j)[k]
    ensures forall v :: v in Invocations(c, s, steps, j) ==>
              && MayStart(s, j, v) && 1 <= v
              && j in After(c, s, steps).jobs && v <= After(c, s, steps).jobs[j].attempts
    decreases |steps|
  {
    if steps != [] {
      var t := Apply(c, s, steps[0]);
      StepKeepsInv(c, s, steps[0]);
      StepKeepsDistinct(c, s, steps[0]);
      InvocationsAreDistinct(c, t, steps[1..], j);
      var rest := Invocations(c, t, steps[1..], j);
      forall v | v in rest
        ensures MayStart(s, j, v) && (StartsJob(s, steps[0], j) ==> s.execs[steps[0].e].attempt != v)
      {
        MayStartBefore(c, s, steps[0], j, v);
      }
      if StartsJob(s, steps[0], j) {
        var x := s.execs[steps[0].e];
        assert ExecOk(s, x);
        StepGrows(c, s, steps[0]);
        RunGrows(c, t, steps[1..]);
        assert SameJob(t.jobs[j], After(c, t, steps[1..]).jobs[j]);
        assert Invocations(c, s, steps, j) == [x.attempt] + rest;
        assert MayStart(s, j, x.attempt);
      } else {
        assert Invocations(c, s, steps, j) == rest;
      }
    }
  }

  /** Distinct numbers from 1..n: at most n of them. */
  lemma {:induction false} Pigeonhole(vs: seq<nat>, n: nat)
    requires forall i, k :: 0 <= i < k < |vs| ==> vs[i] != vs[k]
    requires forall v :: v in vs ==> 1 <= v <= n
    ensures |vs| <= n
    decreases n
  {
    if vs != [] {
      assert vs[0] in vs;
      var at := if n in vs then (var i :| 0 <= i < |vs| && vs[i] == n; i) else 0;
      var rest := vs[..at] + vs[at + 1..];
      assert forall v :: v in rest ==> v in vs;
      assert forall i :: 0 <= i < |rest| ==> rest[i] == vs[if i < at then i else i + 1];
      if n in vs {
        Pigeonhole(rest, n - 1);
      } else {
        Pigeonhole(vs, n - 1);
      }
    }
  }

  /** Handler invocations of a job number at most its `attempts`, hence at most `max_attempts`. */
  lemma InvocationsWithinBudget(c: Config, s: State, steps: seq<Step>, j: JobId)
    requires ValidConfig(c) && Initial(s) && Runnable(c, s, steps) && j in After(c, s, steps).jobs
    ensures |Invocations(c, s, steps, j)| <= After(c, s, steps).jobs[j].attempts <= c.maxAttempts
  {
    InvocationsAreDistinct(c, s, steps, j);
    AttemptsCountSelections(c, s, steps, j);
    Pigeonhole(Invocations(c, s, steps, j), After(c, s, steps).jobs[j].attempts);
  }

  // Conservation of attempts.

  function Left(row: Job): nat {
    if row.attempts < row.maxAttempts then row.maxAttempts - row.attempts else 0
  }

  ghost function Lefts(jobs: Jobs): map<JobId, nat> {
    map j | j in jobs :: Left(jobs[j])
  }

  ghost function Remaining(jobs: Jobs): nat {
    Sum(Lefts(jobs))
  }

  lemma RemainingUpdate(jobs: Jobs, j: JobId, row: Job)
    ensures Remaining(jobs[j := row]) + (if j in jobs then Left(jobs[j]) else 0) == Remaining(jobs) + Left(row)
  {
    SumUpdate(Lefts(jobs), j, Left(row));
    assert Lefts(jobs[j := row]) == Lefts(jobs)[j := Left(row)];
  }

  predicate Enqueues(step: Step) {
    step.EnqueueGenerate? || step.EnqueueOther?
  }

  function Selections(steps: seq<Step>): nat {
    if steps == [] then 0 else (if steps[0].Lock? then 1 else 0) + Selections(steps[1..])
  }

  /** The attempts that the enqueues of a run bring into the queue. */
  function Granted(c: Config, steps: seq<Step>): nat {
    if steps == [] then 0 else (if Enqueues(steps[0]) then c.maxAttempts else 0) + Granted(c, steps[1..])
  }

  lemma StepConserves(c: Config, s: State, step: Step)
    requires JobsInv(c, s) && Enabled(c, s, step)
    ensures Remaining(Apply(c, s, step).jobs) + (if step.Lock? then 1 else 0)
            == Remaining(s.jobs) + (if Enqueues(step) then c.maxAttempts else 0)
  {
    var t := Apply(c, s, step);
    if step.Lock? || Enqueues(step) {
      RemainingUpdate(s.jobs, step.jobId, t.jobs[step.jobId]);
    } else if step.Record? || step.NoHandler? {
      var j := s.execs[step.e].job;
      RemainingUpdate(s.jobs, j, t.jobs[j]);
    }
  }

  /** Attempts are conserved: every selection spends one, every enqueue brings a fresh budget, and nothing else
      changes the total. With no new enqueues the total bounds the number of selections ever made. */
  lemma {:induction false} AttemptsAreConserved(c: Config, s: State, steps: seq<Step>)
    requires Inv(c, s) && Runnable(c, s, steps)
    ensures Remaining(After(c, s, steps).jobs) + Selections(steps) == Remaining(s.jobs) + Granted(c, steps)
    ensures Granted(c, steps) == 0 ==> Selections(steps) <= Remaining(s.jobs)
    decreases |steps|
  {
    if steps != [] {
      StepKeepsInv(c, s, steps[0]);
      StepConserves(c, s, steps[0]);
      AttemptsAreConserved(c, Apply(c, s, steps[0]), steps[1..]);
    }
  }

  // Overtaking.

  /** What `row` may still spend ahead of a job with run time `r`. */
  function AheadOf(row: Job, r: Time): nat {
    if row.completedAt.None? && row.runAt <= r then Left(row) else 0
  }

  ghost function Aheads(jobs: Jobs, j: JobId, r: Time): map<JobId, nat> {
    map k | k in jobs && k != j :: AheadOf(jobs[k], r)
  }

  /** The remaining attempts of the other incomplete jobs with no later run time. */
  ghost function Ahead(jobs: Jobs, j: JobId): nat
    requires j in jobs
  {
    Sum(Aheads(jobs, j, jobs[j].runAt))
  }

  lemma AheadUpdate(jobs: Jobs, j: JobId, k: JobId, row: Job)
    requires j in jobs && k != j
    ensures Ahead(jobs[k := row], j) + (if k in jobs then AheadOf(jobs[k], jobs[j].runAt) else 0)
            == Ahead(jobs, j) + AheadOf(row, jobs[j].runAt)
  {
    var r := jobs[j].runAt;
    SumUpdate(Aheads(jobs, j, r), k, AheadOf(row, r));
    assert Aheads(jobs[k := row], j, r) == Aheads(jobs, j, r)[k := AheadOf(row, r)];
  }

  /** Selections that could have chosen `j`: its row was not held by another transaction. */
  function Overtakes(steps: seq<Step>, j: JobId): nat {
    if steps == [] then 0 else (if steps[0].Lock? && j !in steps[0].skipped then 1 else 0) + Overtakes(steps[1..], j)
  }

  /** The run neither selects `j` nor records an outcome on it. */
  ghost predicate Bypasses(c: Config, s: State, steps: seq<Step>, j: JobId)
    requires Runnable(c, s, steps)
    decreases |steps|
  {
    steps == [] ||
    (var t := Apply(c, s, steps[0]);
     j in s.jobs && j in t.jobs && t.jobs[j] == s.jobs[j] && Bypasses(c, t, steps[1..], j))
  }

  /** The step enqueues a job with a run time no later than `r`. */
  predicate CutsIn(step: Step, r: Time) {
    Enqueues(step) && step.runAt <= r
  }

  /** The attempts that a run enqueues with run times no later than `r`. */
  function CutIn(c: Config, steps: seq<Step>, r: Time): nat {
    if steps == [] then 0 else (if CutsIn(steps[0], r) then c.maxAttempts else 0) + CutIn(c, steps[1..], r)
  }

  lemma StepOvertakes(c: Config, s: State, step: Step, j: JobId)
    requires Enabled(c, s, step) && j in s.jobs && Due(s.jobs[j], s.now) && s.now > s.jobs[j].runAt
    requires Apply(c, s, step).jobs[j] == s.jobs[j]
    ensures Due(s.jobs[j], Apply(c, s, step).now) && Apply(c, s, step).now > s.jobs[j].runAt
    ensures Ahead(Apply(c, s, step).jobs, j) + (if step.Lock? && j !in step.skipped then 1 else 0)
            <= Ahead(s.jobs, j) + (if CutsIn(step, s.jobs[j].runAt) then c.maxAttempts else 0)
  {
    var t := Apply(c, s, step);
    if step.Lock? || Enqueues(step) {
      AheadUpdate(s.jobs, j, step.jobId, t.jobs[step.jobId]);
    } else if step.Record? || step.NoHandler? {
      var k := s.execs[step.e].job;
      if k != j {
        AheadUpdate(s.jobs, j, k, t.jobs[k]);
      }
    }
  }

  /** Bounded overtaking: once the clock is past a due job's run time, the selections made before it is selected, or
      finished or rescheduled by a late outcome, are at most the remaining attempts of the jobs with no later run
      time, those in the queue and those the run still enqueues, whatever fails or crashes meanwhile. */
  lemma {:induction false} OvertakingIsBounded(c: Config, s: State, steps: seq<Step>, j: JobId)
    requires Runnable(c, s, steps) && j in s.jobs && Due(s.jobs[j], s.now) && s.now > s.jobs[j].runAt
    requires Bypasses(c, s, steps, j)
    ensures Overtakes(steps, j) <= Ahead(s.jobs, j) + CutIn(c, steps, s.jobs[j].runAt)
    ensures After(c, s, steps).jobs.Keys >= s.jobs.Keys && After(c, s, steps).jobs[j] == s.jobs[j]
    ensures Ahead(After(c, s, steps).jobs, j) + Overtakes(steps, j) <=
              Ahead(s.jobs, j) + CutIn(c, steps, s.jobs[j].runAt)
    decreases |steps|
  {
    if steps != [] {
      StepOvertakes(c, s, steps[0], j);
      StepGrows(c, s, steps[0]);
      OvertakingIsBounded(c, Apply(c, s, steps[0]), steps[1..], j);
    }
  }

  /** When every enqueue of the run carries a later run time, as a clock read during the wait does, only what was
      already ahead can overtake. */
  lemma OvertakingByOldJobsOnly(c: Config, s: State, steps: seq<Step>, j: JobId)
    requires Runnable(c, s, steps) && j in s.jobs && Due(s.jobs[j], s.now) && s.now > s.jobs[j].runAt
    requires Bypasses(c, s, steps, j)
    requires forall i :: 0 <= i < |steps| && Enqueues(steps[i]) ==> steps[i].runAt > s.jobs[j].runAt
    ensures Overtakes(steps, j) <= Ahead(s.jobs, j)
  {
    OvertakingIsBounded(c, s, steps, j);
    NothingCutsIn(c, steps, s.jobs[j].runAt);
  }

  lemma {:induction false} NothingCutsIn(c: Config, steps: seq<Step>, r: Time)
    requires forall i :: 0 <= i < |steps| && Enqueues(steps[i]) ==> steps[i].runAt > r
    ensures CutIn(c, steps, r) == 0
  {
    if steps != [] {
      NothingCutsIn(c, steps[1..], r);
    }
  }

  /** The second term is needed: an insert whose run time was read before the waiting job's goes ahead of the job
      whose turn it was. */
  lemma StaleReadingOvertakes(c: Config, s: State, j: JobId, k: JobId)
    requires c.maxAttempts > 0 && IsNext(s.jobs, s.now, {}, j) && k !in s.jobs
    ensures var insert := EnqueueOther(k, AuditTodo, None, s.jobs[j].runAt - 1);
            && Enabled(c, s, insert)
            && Enabled(c, Apply(c, s, insert), Lock(k, {})) && !Enabled(c, Apply(c, s, insert), Lock(j, {}))
  {
    var insert := EnqueueOther(k, AuditTodo, None, s.jobs[j].runAt - 1);
    var t := Apply(c, s, insert);
    assert k in t.jobs && Due(t.jobs[k], t.now);
  }
}
