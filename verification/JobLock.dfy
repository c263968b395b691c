/** The job lock (internal/platform/jobs/jobs.go:113-168): what holds when executions record their outcome within
    their lock window, and what a late outcome can undo. */
module JobLock {
  import opened Prelude
  import opened ReportDomain
  import opened TodoTable
  import opened JobQueue
  import opened ResultText
  import opened Protocol
  import opened Invariants
  import opened Budget
  import opened Witness

  /** In flight, and its lock has not lapsed. */
  predicate InWindow(s: State, e: ExecId) {
    e in s.execs && s.now <= s.execs[e].lockedAt + LOCK_WINDOW
  }

  /** The row carries this execution's lock and attempt number, and is open. */
  ghost predicate HoldsJob(s: State, x: Exec) {
    && x.job in s.jobs
    && s.jobs[x.job].lockedUntil == Some(x.lockedAt + LOCK_WINDOW)
    && s.jobs[x.job].completedAt.None?
    && s.jobs[x.job].attempts == x.attempt
  }

  /** An execution in its window holds its job. */
  ghost predicate WindowInv(s: State) {
    forall e :: InWindow(s, e) ==> HoldsJob(s, s.execs[e])
  }

  /** All that timely runs keep. */
  ghost predicate Calm(c: Config, s: State) {
    Inv(c, s) && WindowInv(s) && DistinctAttempts(s)
  }

  lemma InitialIsCalm(c: Config, s: State)
    requires ValidConfig(c) && Initial(s)
    ensures Calm(c, s)
  {
  }

  /** An outcome is recorded before the lock lapses, or never. */
  ghost predicate Timely(s: State, step: Step) {
    step.Record? || step.NoHandler? ==> InWindow(s, step.e)
  }

  ghost predicate TimelyRun(c: Config, s: State, steps: seq<Step>)
    requires Runnable(c, s, steps)
    decreases |steps|
  {
    steps == [] || (Timely(s, steps[0]) && TimelyRun(c, Apply(c, s, steps[0]), steps[1..]))
  }

  /** At most one execution of a job is in its window. */
  ghost predicate OneInFlight(s: State) {
    forall e, f :: InWindow(s, e) && InWindow(s, f) && s.execs[e].job == s.execs[f].job ==> e == f
  }

  lemma StepKeepsHeld(c: Config, s: State, step: Step, e: ExecId)
    requires WindowInv(s) && DistinctAttempts(s) && Enabled(c, s, step) && Timely(s, step)
    requires InWindow(s, e) && e in Apply(c, s, step).execs
    ensures HoldsJob(Apply(c, s, step), s.execs[e])
  {
  }

  lemma StepKeepsWindow(c: Config, s: State, step: Step)
    requires ExecsInv(s) && WindowInv(s) && DistinctAttempts(s) && Enabled(c, s, step) && Timely(s, step)
    ensures WindowInv(Apply(c, s, step))
  {
    var t := Apply(c, s, step);
    forall e | InWindow(t, e)
      ensures HoldsJob(t, t.execs[e])
    {
      ExecIdentity(c, s, step, e);
      if e in s.execs {
        assert InWindow(s, e) by { StepGrows(c, s, step); }
        StepKeepsHeld(c, s, step, e);
      }
    }
  }

  lemma StepKeepsCalm(c: Config, s: State, step: Step)
    requires Calm(c, s) && Enabled(c, s, step) && Timely(s, step)
    ensures Calm(c, Apply(c, s, step))
  {
    StepKeepsInv(c, s, step);
    StepKeepsWindow(c, s, step);
    StepKeepsDistinct(c, s, step);
  }

  lemma StepKeepsClosed(c: Config, s: State, step: Step, j: JobId)
    requires WindowInv(s) && Enabled(c, s, step) && Timely(s, step)
    requires j in s.jobs && s.jobs[j].completedAt.Some?
    ensures j in Apply(c, s, step).jobs && Apply(c, s, step).jobs[j] == s.jobs[j]
    ensures !(step.Lock? && step.jobId == j)
  {
  }

  /** With timely outcomes, every state of the run has at most one in-window execution per job, and a completed
      job is frozen and never selected again. */
  lemma {:induction false} TimelyRunsAreExclusive(c: Config, s: State, steps: seq<Step>, j: JobId)
    requires Calm(c, s) && Runnable(c, s, steps) && TimelyRun(c, s, steps)
    ensures Calm(c, After(c, s, steps)) && OneInFlight(After(c, s, steps))
    ensures j in s.jobs && s.jobs[j].completedAt.Some? ==>
              && j in After(c, s, steps).jobs && After(c, s, steps).jobs[j] == s.jobs[j]
              && LockTimes(c, s, steps, j) == []
    decreases |steps|
  {
    if steps != [] {
      StepKeepsCalm(c, s, steps[0]);
      TimelyRunsAreExclusive(c, Apply(c, s, steps[0]), steps[1..], j);
      if j in s.jobs && s.jobs[j].completedAt.Some? {
        StepKeepsClosed(c, s, steps[0], j);
      }
    }
  }

  // Order of invocations.

  /** Handlers too are started before the lock lapses. */
  ghost predicate PromptRun(c: Config, s: State, steps: seq<Step>)
    requires Runnable(c, s, steps)
    decreases |steps|
  {
    steps == [] ||
    (Timely(s, steps[0]) && (steps[0].Start? ==> InWindow(s, steps[0].e)) &&
     PromptRun(c, Apply(c, s, steps[0]), steps[1..]))
  }

  function AttemptsOf(s: State, j: JobId): nat {
    if j in s.jobs then s.jobs[j].attempts else 0
  }

  /** A prompt invocation still to come is of a later attempt, or of the current one waiting to start. */
  ghost predicate NextPrompt(s: State, j: JobId, v: nat) {
    || v > AttemptsOf(s, j)
    || (v == AttemptsOf(s, j) &&
        exists e :: InWindow(s, e) && s.execs[e].job == j && s.execs[e].attempt == v && s.execs[e].phase.Locked?)
  }

  lemma NextPromptBefore(c: Config, s: State, step: Step, j: JobId, v: nat)
    requires ExecsInv(s) && Enabled(c, s, step) && NextPrompt(Apply(c, s, step), j, v)
    ensures NextPrompt(s, j, v)
  {
  }

  lemma NextPromptAfterStart(c: Config, s: State, step: Step, j: JobId, v: nat)
    requires Calm(c, s) && Enabled(c, s, step) && NextPrompt(Apply(c, s, step), j, v)
    requires StartsJob(s, step, j) && InWindow(s, step.e)
    ensures v > s.execs[step.e].attempt
  {
  }

  ghost predicate Increasing(vs: seq<nat>) {
    forall i, k :: 0 <= i < k < |vs| ==> vs[i] < vs[k]
  }

  lemma IncreasingCons(a: nat, vs: seq<nat>)
    requires Increasing(vs) && forall v :: v in vs ==> a < v
    ensures Increasing([a] + vs)
  {
    var ws := [a] + vs;
    forall i, k | 0 <= i < k < |ws|
      ensures ws[i] < ws[k]
    {
      assert ws[k] == vs[k - 1] && vs[k - 1] in vs;
    }
  }

  /** When handlers start and outcomes are recorded within the lock window, the handler sees its attempt numbers in
      strictly increasing order. */
  lemma {:induction false} PromptInvocationsIncrease(c: Config, s: State, steps: seq<Step>, j: JobId)
    requires Calm(c, s) && Runnable(c, s, steps) && PromptRun(c, s, steps)
    ensures Increasing(Invocations(c, s, steps, j))
    ensures forall v :: v in Invocations(c, s, steps, j) ==> NextPrompt(s, j, v)
    decreases |steps|
  {
    if steps != [] {
      var t := Apply(c, s, steps[0]);
      StepKeepsCalm(c, s, steps[0]);
      PromptInvocationsIncrease(c, t, steps[1..], j);
      var rest := Invocations(c, t, steps[1..], j);
      forall v | v in rest
        ensures NextPrompt(s, j, v)
        ensures StartsJob(s, steps[0], j) ==> v > s.execs[steps[0].e].attempt
      {
        NextPromptBefore(c, s, steps[0], j, v);
        if StartsJob(s, steps[0], j) {
          NextPromptAfterStart(c, s, steps[0], j, v);
        }
      }
      if StartsJob(s, steps[0], j) {
        assert Invocations(c, s, steps, j) == [s.execs[steps[0].e].attempt] + rest;
        IncreasingCons(s.execs[steps[0].e].attempt, rest);
        assert NextPrompt(s, j, s.execs[steps[0].e].attempt);
      } else {
        assert Invocations(c, s, steps, j) == rest;
      }
    }
  }

  /** From the empty queue on: timely outcomes keep executions of a job apart, and prompt starts keep their order. */
  lemma PromptQueue(c: Config, s: State, steps: seq<Step>, j: JobId)
    requires ValidConfig(c) && Initial(s) && Runnable(c, s, steps)
    ensures TimelyRun(c, s, steps) ==> OneInFlight(After(c, s, steps))
    ensures PromptRun(c, s, steps) ==> Increasing(Invocations(c, s, steps, j))
  {
    InitialIsCalm(c, s);
    if TimelyRun(c, s, steps) {
      TimelyRunsAreExclusive(c, s, steps, j);
    }
    if PromptRun(c, s, steps) {
      PromptInvocationsIncrease(c, s, steps, j);
    }
  }

  lemma {:induction false} InvocationsConcatenate(c: Config, s: State, a: seq<Step>, b: seq<Step>, j: JobId)
    requires Runnable(c, s, a) && Runnable(c, After(c, s, a), b)
    ensures Runnable(c, s, a + b)
    ensures Invocations(c, s, a + b, j) == Invocations(c, s, a, j) + Invocations(c, After(c, s, a), b, j)
    decreases |a|
  {
    Concatenate(c, s, a, b);
    if a == [] {
      assert a + b == b;
    } else {
      assert (a + b)[1..] == a[1..] + b;
      InvocationsConcatenate(c, Apply(c, s, a[0]), a[1..], b, j);
    }
  }

  /** A first attempt that pauses past its lock before starting its handler is started after the second. */
  lemma LateStartIsOutOfOrder(c: Config)
    requires ValidConfig(c) && c.maxAttempts >= 2
    ensures Runnable(c, OneWorker(c), LateStart())
    ensures Invocations(c, OneWorker(c), LateStart(), 0) == [2, 1]
  {
    var s0 := OneWorker(c);
    var steps := LateStart();
    var s1 := Apply(c, s0, steps[0]);
    var s2 := Apply(c, s1, steps[1]);
    var s3 := Apply(c, s2, steps[2]);
    var s4 := Apply(c, s3, steps[3]);
    assert steps[1..] == [Lock(0, {}), Start(1), Start(0)];
    assert steps[1..][1..] == [Start(1), Start(0)];
    assert steps[1..][1..][1..] == [Start(0)];
    assert steps[1..][1..][1..][1..] == [];
    assert Invocations(c, s4, [], 0) == [];
    assert Invocations(c, s3, [Start(0)], 0) == [1];
    assert Invocations(c, s2, [Start(1), Start(0)], 0) == [2, 1];
    assert Invocations(c, s1, steps[1..], 0) == [2, 1];
  }

  function LateStart(): seq<Step> {
    [Tick(LOCK_WINDOW + 1), Lock(0, {}), Start(1), Start(0)]
  }

  /** In every run each job's handler sees increasing attempt numbers. */
  ghost predicate InvocationsAreOrdered(c: Config) {
    forall s, steps, j :: Initial(s) && Runnable(c, s, steps) ==> Increasing(Invocations(c, s, steps, j))
  }

  lemma SingleAttemptIsOrdered(c: Config, s: State, steps: seq<Step>, j: JobId)
    requires ValidConfig(c) && c.maxAttempts <= 1 && Initial(s) && Runnable(c, s, steps)
    ensures Increasing(Invocations(c, s, steps, j))
  {
    InvocationsAreDistinct(c, s, steps, j);
    var vs := Invocations(c, s, steps, j);
    if |vs| > 1 {
      assert vs[0] in vs;
      InvocationsWithinBudget(c, s, steps, j);
    }
  }

  /** Attempt numbers are seen in increasing order in every run exactly when there is only one to see. */
  lemma InvocationsAreOrderedIff(c: Config)
    requires ValidConfig(c)
    ensures InvocationsAreOrdered(c) <==> c.maxAttempts <= 1
  {
    if c.maxAttempts <= 1 {
      forall s, steps, j | Initial(s) && Runnable(c, s, steps)
        ensures Increasing(Invocations(c, s, steps, j))
      {
        SingleAttemptIsOrdered(c, s, steps, j);
      }
    } else {
      OneWorkerReachable(c);
      var s, a :| Initial(s) && Runnable(c, s, a) && After(c, s, a) == OneWorker(c);
      LateStartIsOutOfOrder(c);
      InvocationsConcatenate(c, s, a, LateStart(), 0);
      var vs := Invocations(c, s, a + LateStart(), 0);
      assert vs[|vs| - 2] == 2 && vs[|vs| - 1] == 1;
    }
  }

  // Late outcomes.

  /** An execution of a job that has been selected once still holds it. */
  ghost predicate FirstHolds(s: State) {
    forall e :: e in s.execs && s.execs[e].job in s.jobs && s.jobs[s.execs[e].job].attempts == 1 ==>
      HoldsJob(s, s.execs[e])
  }

  /** All that every run keeps of the lock, however late outcomes are. */
  ghost predicate Late(c: Config, s: State) {
    Inv(c, s) && DistinctAttempts(s) && FirstHolds(s)
  }

  lemma FirstStaysHeld(c: Config, s: State, step: Step, e: ExecId)
    requires ExecsInv(s) && DistinctAttempts(s) && FirstHolds(s) && Enabled(c, s, step)
    requires e in s.execs && e in Apply(c, s, step).execs && s.execs[e].job in s.jobs
    requires Apply(c, s, step).jobs[s.execs[e].job].attempts == 1
    ensures HoldsJob(Apply(c, s, step), s.execs[e])
  {
    assert ExecOk(s, s.execs[e]);
    JobChange(c, s, step, s.execs[e].job);
  }

  lemma SelectedHolds(c: Config, s: State, step: Step)
    requires Enabled(c, s, step) && step.Lock?
    ensures HoldsJob(Apply(c, s, step), Apply(c, s, step).execs[s.nextExec])
  {
  }

  lemma StepKeepsFirst(c: Config, s: State, step: Step)
    requires Late(c, s) && Enabled(c, s, step)
    ensures FirstHolds(Apply(c, s, step))
  {
    var t := Apply(c, s, step);
    forall e | e in t.execs && t.execs[e].job in t.jobs && t.jobs[t.execs[e].job].attempts == 1
      ensures HoldsJob(t, t.execs[e])
    {
      ExecIdentity(c, s, step, e);
      if e in s.execs {
        assert ExecOk(s, s.execs[e]);
        FirstStaysHeld(c, s, step, e);
      } else {
        SelectedHolds(c, s, step);
      }
    }
  }

  lemma {:induction false} RunKeepsLate(c: Config, s: State, steps: seq<Step>)
    requires Late(c, s) && Runnable(c, s, steps)
    ensures Late(c, After(c, s, steps))
    decreases |steps|
  {
    if steps != [] {
      var t := Apply(c, s, steps[0]);
      assert Late(c, t) by {
        StepKeepsInv(c, s, steps[0]);
        StepKeepsDistinct(c, s, steps[0]);
        StepKeepsFirst(c, s, steps[0]);
      }
      RunKeepsLate(c, t, steps[1..]);
    }
  }

  lemma ReachableLate(c: Config, s: State)
    requires ValidConfig(c) && Reachable(c, s)
    ensures Late(c, s)
  {
    var s0, steps :| Initial(s0) && Runnable(c, s0, steps) && After(c, s0, steps) == s;
    RunKeepsLate(c, s0, steps);
  }

  /** No step from a reachable state sets a completed job's `completed_at` back to NULL. */
  ghost predicate CompletionIsFinal(c: Config) {
    forall s, step, j :: Reachable(c, s) && Enabled(c, s, step) && j in s.jobs && s.jobs[j].completedAt.Some? ==>
      j in Apply(c, s, step).jobs && Apply(c, s, step).jobs[j].completedAt.Some?
  }

  lemma SmallBudgetIsFinal(c: Config, s: State, step: Step, j: JobId)
    requires ValidConfig(c) && c.maxAttempts <= 2 && Reachable(c, s) && Enabled(c, s, step)
    requires j in s.jobs && s.jobs[j].completedAt.Some?
    ensures j in Apply(c, s, step).jobs && Apply(c, s, step).jobs[j].completedAt.Some?
  {
    ReachableLate(c, s);
    JobChange(c, s, step, j);
    assert JobOk(c, s, s.jobs[j]);
  }

  /** A first attempt that outlives its lock fails after the second has completed the job: its late error clears
      `completed_at`, and the job is due again. */
  lemma LateErrorReopens(c: Config) returns (s: State, step: Step, j: JobId)
    requires ValidConfig(c) && c.maxAttempts >= 3
    ensures Reachable(c, s) && Enabled(c, s, step)
    ensures j in s.jobs && s.jobs[j].completedAt.Some?
    ensures j in Apply(c, s, step).jobs && Apply(c, s, step).jobs[j].completedAt.None?
  {
    SecondAttemptReachable(c);
    j := 0;
    s, step := ReopenFrom(c, SecondAttempt(c));
  }

  lemma ReopenFrom(c: Config, b: State) returns (s: State, step: Step)
    requires Reachable(c, b) && 0 in b.jobs && b.jobs[0].attempts == 2 < b.jobs[0].maxAttempts
    requires 0 in b.execs && 1 in b.execs && b.execs[0].job == b.execs[1].job == 0
    requires b.execs[0].phase.Locked? && b.execs[1].phase.Locked?
    requires ForReport(b.execs[0], ID) && ForReport(b.execs[1], ID)
    requires ID in b.reports && b.reports[ID].status.Pending? && SupportedType(b.reports[ID].kind)
    ensures Reachable(c, s) && Enabled(c, s, step)
    ensures 0 in s.jobs && s.jobs[0].completedAt.Some?
    ensures 0 in Apply(c, s, step).jobs && Apply(c, s, step).jobs[0].completedAt.None?
  {
    ClaimsAtOnce(c, b, 1);
    var d := b.(reports := b.reports[ID := ClaimedBy(b.reports[ID], b.now)],
                execs := b.execs[1 := b.execs[1].(phase :=
                  Claimed(b.now + HANDLER_TIMEOUT, b.reports[ID].kind, b.now, b.now))]);
    CompletesAtOnce(c, d, 1);
    var e := d.(reports := d.reports[ID := CompletedWith(d.reports[ID], FormatResult(Count(d.todos)), d.now)],
                execs := d.execs[1 := d.execs[1].(phase := Returned(Nil))]);
    ReachableStep(c, e, Record(1));
    var f := Apply(c, e, Record(1));
    FailsAtOnce(c, f, 0);
    s := f.(execs := f.execs[0 := f.execs[0].(phase := Returned(RetryableError))]);
    step := Record(0);
  }

  /** A completed job stays completed in every run exactly when the budget is at most two attempts. */
  lemma CompletionIsFinalIff(c: Config)
    requires ValidConfig(c)
    ensures CompletionIsFinal(c) <==> c.maxAttempts <= 2
  {
    if c.maxAttempts <= 2 {
      forall s, step, j | Reachable(c, s) && Enabled(c, s, step) && j in s.jobs && s.jobs[j].completedAt.Some?
        ensures j in Apply(c, s, step).jobs && Apply(c, s, step).jobs[j].completedAt.Some?
      {
        SmallBudgetIsFinal(c, s, step, j);
      }
    } else {
      var s, step, j := LateErrorReopens(c);
    }
  }
}
