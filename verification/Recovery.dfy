/** Which reports can still complete (internal/reports/service.go:102-108, 147-230), by the work of a single worker
    that finishes each job before it takes the next. Reconciliation repairs pending reports only; a processing report
    depends on a job, an execution or an enqueue still under way. The boundary is exact: a report that has not settled
    can complete if and only if it is not stranded, and what can complete at all can complete without further faults. */
module Recovery {
  import opened Prelude
  import opened ReportDomain
  import opened TodoTable
  import opened JobQueue
  import opened Protocol
  import opened Invariants
  import opened ReportService

  /** Store calls and summaries succeed, nobody crashes, no enqueue fails. */
  predicate Succeeds(step: Step) {
    match step
    case EnqueueFails(_) => false
    case Crash(_) => false
    case Summarise(_, ok) => ok
    case ReadReport(_, call) => call.Acked?
    case ClaimReport(_, _, call) => call.Acked?
    case RejectType(_, _, call) => call.Acked?
    case CompleteReport(_, _, call) => call.Acked?
    case GiveUp(_, _, call) => call.Acked?
    case _ => true
  }

  /** A call under an expired handler context: it can only fail. */
  predicate Forced(s: State, step: Step) {
    && (step.ReadReport? || step.Summarise? || Writes(step))
    && step.e in s.execs && Working(s.execs[step.e].phase) && s.execs[step.e].phase.deadline < s.now
  }

  /** No fault, and selection in run-time order, with no row held by another transaction. */
  predicate Clean(s: State, step: Step) {
    (Succeeds(step) || Forced(s, step)) && (step.Lock? ==> step.skipped == {})
  }

  /** A clean run of one worker beside the executions in `others`: it takes a job only when none of its own is in
      flight. */
  ghost predicate Serial(c: Config, s: State, steps: seq<Step>, others: set<ExecId>)
    requires Runnable(c, s, steps)
    decreases |steps|
  {
    steps == [] ||
    (Clean(s, steps[0]) && (steps[0].Lock? ==> s.execs.Keys <= others) &&
     Serial(c, Apply(c, s, steps[0]), steps[1..], others))
  }

  ghost predicate EndsCompleted(c: Config, s: State, steps: seq<Step>, id: ReportId) {
    Runnable(c, s, steps) && id in After(c, s, steps).reports && After(c, s, steps).reports[id].status.Completed?
  }

  /** Some run completes the report, with any faults and any number of workers. */
  ghost predicate CanComplete(c: Config, s: State, id: ReportId) {
    exists steps :: EndsCompleted(c, s, steps, id)
  }

  ghost predicate RecoversBeside(c: Config, s: State, id: ReportId, others: set<ExecId>) {
    exists steps :: EndsCompleted(c, s, steps, id) && Serial(c, s, steps, others)
  }

  /** Some run without any further fault completes the report, with one worker beside the executions already in
      flight. */
  ghost predicate Recovers(c: Config, s: State, id: ReportId) {
    RecoversBeside(c, s, id, s.execs.Keys)
  }

  lemma SerialLonger(c: Config, s: State, step: Step, rest: seq<Step>, id: ReportId, others: set<ExecId>)
    requires Enabled(c, s, step) && Clean(s, step) && (step.Lock? ==> s.execs.Keys <= others)
    requires EndsCompleted(c, Apply(c, s, step), rest, id) && Serial(c, Apply(c, s, step), rest, others)
    ensures EndsCompleted(c, s, [step] + rest, id) && Serial(c, s, [step] + rest, others)
  {
    assert ([step] + rest)[1..] == rest;
  }

  lemma FirstStep(c: Config, s: State, step: Step, id: ReportId, others: set<ExecId>)
    requires Enabled(c, s, step) && Clean(s, step) && (step.Lock? ==> s.execs.Keys <= others)
    requires RecoversBeside(c, Apply(c, s, step), id, others)
    ensures RecoversBeside(c, s, id, others)
  {
    var rest :| EndsCompleted(c, Apply(c, s, step), rest, id) && Serial(c, Apply(c, s, step), rest, others);
    SerialLonger(c, s, step, rest, id, others);
  }

  /** Successful, and not a selection. */
  ghost predicate Tame(steps: seq<Step>) {
    forall i :: 0 <= i < |steps| ==> Succeeds(steps[i]) && !steps[i].Lock?
  }

  lemma {:induction false} FirstSteps(c: Config, s: State, steps: seq<Step>, id: ReportId, others: set<ExecId>)
    requires Runnable(c, s, steps) && Tame(steps) && RecoversBeside(c, After(c, s, steps), id, others)
    ensures RecoversBeside(c, s, id, others)
    decreases |steps|
  {
    if steps != [] {
      FirstSteps(c, Apply(c, s, steps[0]), steps[1..], id, others);
      FirstStep(c, s, steps[0], id, others);
    }
  }

  /** Not settled, and of a type that can be generated. */
  predicate Unsettled(s: State, id: ReportId) {
    && id in s.reports && SupportedType(s.reports[id].kind)
    && (s.reports[id].status.Pending? || s.reports[id].status.Processing?)
  }

  /** The first instant at which a claim is granted. */
  function ClaimableFrom(c: Config, r: Report): Time {
    if r.status.Processing? && r.processingStartedAt.Some? then r.processingStartedAt.value + c.lease + 1 else 0
  }

  // From an execution under way.

  lemma SummarisedRecovers(c: Config, s: State, e: ExecId, id: ReportId, others: set<ExecId>)
    requires e in s.execs && ForReport(s.execs[e], id) && s.execs[e].phase.Summarised?
    requires id in s.reports && s.reports[id].status.Processing?
    requires s.execs[e].phase.since <= s.now <= s.execs[e].phase.deadline
    ensures RecoversBeside(c, s, id, others)
  {
    var step := CompleteReport(e, s.now, Acked);
    var t := Apply(c, s, step);
    assert t.reports[id].status.Completed?;
    assert EndsCompleted(c, t, [], id) && Serial(c, t, [], others);
    FirstStep(c, s, step, id, others);
  }

  lemma ClaimedRecovers(c: Config, s: State, e: ExecId, id: ReportId, others: set<ExecId>)
    requires e in s.execs && ForReport(s.execs[e], id) && s.execs[e].phase.Claimed?
    requires SupportedType(s.execs[e].phase.kind) && id in s.reports && s.reports[id].status.Processing?
    requires s.now <= s.execs[e].phase.deadline
    ensures RecoversBeside(c, s, id, others)
  {
    SummarisedRecovers(c, Apply(c, s, Summarise(e, true)), e, id, others);
    FirstStep(c, s, Summarise(e, true), id, others);
  }

  lemma ReadRecovers(c: Config, s: State, e: ExecId, id: ReportId, others: set<ExecId>)
    requires e in s.execs && ForReport(s.execs[e], id) && s.execs[e].phase.Read? && SupportedType(s.execs[e].phase.kind)
    requires id in s.reports && ClaimEligible(s.reports[id], s.now - c.lease)
    requires s.execs[e].phase.since <= s.now <= s.execs[e].phase.deadline
    ensures RecoversBeside(c, s, id, others)
  {
    var step := ClaimReport(e, s.now, Acked);
    ClaimedRecovers(c, Apply(c, s, step), e, id, others);
    FirstStep(c, s, step, id, others);
  }

  lemma StartedRecovers(c: Config, s: State, e: ExecId, id: ReportId, others: set<ExecId>)
    requires e in s.execs && ForReport(s.execs[e], id) && s.execs[e].phase.Started? && Unsettled(s, id)
    requires ClaimEligible(s.reports[id], s.now - c.lease) && s.now <= s.execs[e].phase.deadline
    ensures RecoversBeside(c, s, id, others)
  {
    var step := ReadReport(e, Acked);
    ReadRecovers(c, Apply(c, s, step), e, id, others);
    FirstStep(c, s, step, id, others);
  }

  /** Waiting until an instant. */
  function WaitUntil(s: State, at: Time): Step {
    Tick(if at > s.now then at - s.now else 0)
  }

  lemma LockedRecovers(c: Config, s: State, e: ExecId, id: ReportId, others: set<ExecId>)
    requires e in s.execs && ForReport(s.execs[e], id) && s.execs[e].phase.Locked? && Unsettled(s, id)
    ensures RecoversBeside(c, s, id, others)
  {
    var wait := WaitUntil(s, ClaimableFrom(c, s.reports[id]));
    var t := Apply(c, s, wait);
    var u := Apply(c, t, Start(e));
    StartedRecovers(c, u, e, id, others);
    FirstStep(c, t, Start(e), id, others);
    FirstStep(c, s, wait, id, others);
  }

  /** Inside the handler, before the claim: it is enough that the claim opens before the deadline. */
  lemma UnclaimedRecovers(c: Config, s: State, e: ExecId, id: ReportId, others: set<ExecId>)
    requires e in s.execs && ForReport(s.execs[e], id) && Unsettled(s, id)
    requires || s.execs[e].phase.Started?
             || (s.execs[e].phase.Read? && SupportedType(s.execs[e].phase.kind) && s.execs[e].phase.since <= s.now)
    requires s.now <= s.execs[e].phase.deadline && ClaimableFrom(c, s.reports[id]) <= s.execs[e].phase.deadline
    ensures RecoversBeside(c, s, id, others)
  {
    var wait := WaitUntil(s, ClaimableFrom(c, s.reports[id]));
    var t := Apply(c, s, wait);
    if s.execs[e].phase.Started? {
      StartedRecovers(c, t, e, id, others);
    } else {
      ReadRecovers(c, t, e, id, others);
    }
    FirstStep(c, s, wait, id, others);
  }

  // From a job: the worker serves the earlier ones first.

  predicate Names(row: Job, id: ReportId) {
    row.kind.GenerateReport? && row.payload == Some(id)
  }

  /** The job names the report, is open, and has an attempt left. */
  predicate RunnableFor(row: Job, id: ReportId) {
    Names(row, id) && row.completedAt.None? && row.attempts < row.maxAttempts
  }

  lemma HandlerStepsAreTame(c: Config, s: State, e: ExecId, sum: Summary)
    requires e in s.execs && s.execs[e].payload.Some?
    ensures Tame(HandlerSteps(c, s, e, Quiet(Some(sum)), 0))
  {
  }

  /** One faultless Generate of execution `e` at this instant. */
  function Generation(c: Config, s: State, e: ExecId): (ReportTable, Result)
    requires e in s.execs && s.execs[e].payload.Some?
  {
    var x := s.execs[e];
    Generated(c.lease, s.reports, x.payload.value, LastAttempt(x), Quiet(Some(Count(s.todos))), s.now, s.now)
  }

  lemma GenerationReturnsNil(c: Config, s: State, e: ExecId)
    requires ValidConfig(c) && e in s.execs && s.execs[e].payload.Some?
    ensures Generation(c, s, e).1 == Nil
    ensures forall r :: r in s.reports && s.execs[e].payload != Some(r) ==>
              r in Generation(c, s, e).0 && Generation(c, s, e).0[r] == s.reports[r]
  {
    var x := s.execs[e];
    QuietGenerate(c.lease, s.reports, x.payload.value, LastAttempt(x), Some(Count(s.todos)), s.now, s.now);
  }

  lemma GenerateReturns(c: Config, s: State, e: ExecId) returns (steps: seq<Step>)
    requires e in s.execs && s.execs[e].phase.Locked? && s.execs[e].kind.GenerateReport? && s.execs[e].payload.Some?
    ensures Runnable(c, s, steps) && Tame(steps)
    ensures After(c, s, steps) == Advance(s, e, Generation(c, s, e).0, Returned(Generation(c, s, e).1))
  {
    var t := Apply(c, s, Start(e));
    var f := Quiet(Some(Count(s.todos)));
    var rest := HandlerSteps(c, t, e, f, 0);
    assert Generation(c, t, e) == Generation(c, s, e);
    HandlerIsGenerate(c, t, e, f, 0);
    HandlerStepsAreTame(c, t, e, Count(s.todos));
    steps := [Start(e)] + rest;
    MoreSteps(c, s, Start(e), rest);
    var g := Generation(c, s, e);
    AdvanceTwice(s, e, s.reports, t.execs[e].phase, s.now, g.0, Returned(g.1));
  }

  /** Without faults a handler returns nil, at the same instant, and touches no report but its own. */
  lemma HandlerReturns(c: Config, s: State, e: ExecId) returns (steps: seq<Step>, m: ReportTable)
    requires ValidConfig(c) && e in s.execs && s.execs[e].phase.Locked? && !s.execs[e].kind.Unregistered?
    ensures Runnable(c, s, steps) && Tame(steps) && After(c, s, steps) == Advance(s, e, m, Returned(Nil))
    ensures forall r :: r in s.reports && !ForReport(s.execs[e], r) ==> r in m && m[r] == s.reports[r]
  {
    if s.execs[e].kind.GenerateReport? && s.execs[e].payload.Some? {
      steps := GenerateReturns(c, s, e);
      GenerationReturnsNil(c, s, e);
      m := Generation(c, s, e).0;
    } else {
      OneStep(c, s, Start(e));
      steps, m := [Start(e)], s.reports;
    }
  }

  /** One poll of job `j`: select, start, run the handler, record. `d` passes inside the handler. */
  ghost function Poll(c: Config, s: State, j: JobId, skipped: set<JobId>, f: Fates, d: nat): seq<Step>
    requires IsNext(s.jobs, s.now, skipped, j) && s.jobs[j].kind.GenerateReport? && s.jobs[j].payload.Some?
  {
    var e := s.nextExec;
    var t := Apply(c, s, Lock(j, skipped));
    [Lock(j, skipped)] + ([Start(e)] + (HandlerSteps(c, Apply(c, t, Start(e)), e, f, d) + [Record(e)]))
  }

  /** Handing the outcome of a quiet Generate to the queue leaves the job runnable exactly when it left the report
      pending. */
  lemma RecordKeepsPending(c: Config, s: State, e: ExecId, id: ReportId)
    requires e in s.execs && s.execs[e].phase.Returned? && s.execs[e].job in s.jobs
    requires Names(s.jobs[s.execs[e].job], id)
    requires s.execs[e].phase.result.RetryableError? ==>
               s.jobs[s.execs[e].job].attempts < s.jobs[s.execs[e].job].maxAttempts
    requires s.execs[e].phase.result.RetryableError? <==> id in s.reports && s.reports[id].status.Pending?
    ensures Runnable(c, s, [Record(e)])
    ensures var t := After(c, s, [Record(e)]);
            s.execs[e].job in t.jobs &&
            (RunnableFor(t.jobs[s.execs[e].job], id) <==> id in t.reports && t.reports[id].status.Pending?)
  {
    OneStep(c, s, Record(e));
  }

  lemma HandlerKeepsPending(c: Config, s: State, e: ExecId, id: ReportId, summary: Option<Summary>, d: nat)
    requires ValidConfig(c) && e in s.execs && s.execs[e].phase.Started? && s.execs[e].payload == Some(id)
    requires s.now + d <= s.execs[e].phase.deadline && (summary.Some? ==> summary.value == Count(s.todos))
    requires s.execs[e].job in s.jobs && Names(s.jobs[s.execs[e].job], id)
    requires s.execs[e].attempt == s.jobs[s.execs[e].job].attempts
    requires s.execs[e].maxAttempts == s.jobs[s.execs[e].job].maxAttempts
    ensures var steps := HandlerSteps(c, s, e, Quiet(summary), d) + [Record(e)];
            && Runnable(c, s, steps) && s.execs[e].job in After(c, s, steps).jobs
            && var t := After(c, s, steps);
               (RunnableFor(t.jobs[s.execs[e].job], id) <==> id in t.reports && t.reports[id].status.Pending?)
  {
    var last := LastAttempt(s.execs[e]);
    HandlerIsGenerate(c, s, e, Quiet(summary), d);
    QuietGenerate(c.lease, s.reports, id, last, summary, s.now, s.now + d);
    var steps := HandlerSteps(c, s, e, Quiet(summary), d);
    RecordKeepsPending(c, After(c, s, steps), e, id);
    Concatenate(c, s, steps, [Record(e)]);
  }

  /** The queue never drops a pending report by completing its job: after a poll on a quiet store the job is still
      runnable exactly when the report is left pending. */
  lemma PollKeepsPending(c: Config, s: State, j: JobId, skipped: set<JobId>, id: ReportId,
                         summary: Option<Summary>, d: nat)
    requires ValidConfig(c) && IsNext(s.jobs, s.now, skipped, j) && Names(s.jobs[j], id)
    requires d <= HANDLER_TIMEOUT && (summary.Some? ==> summary.value == Count(s.todos))
    ensures var steps := Poll(c, s, j, skipped, Quiet(summary), d);
            && Runnable(c, s, steps) && j in After(c, s, steps).jobs
            && var t := After(c, s, steps);
               (RunnableFor(t.jobs[j], id) <==> id in t.reports && t.reports[id].status.Pending?)
  {
    var e := s.nextExec;
    var t := Apply(c, s, Lock(j, skipped));
    var u := Apply(c, t, Start(e));
    var steps := HandlerSteps(c, u, e, Quiet(summary), d) + [Record(e)];
    HandlerKeepsPending(c, u, e, id, summary, d);
    MoreSteps(c, t, Start(e), steps);
    MoreSteps(c, s, Lock(j, skipped), [Start(e)] + steps);
  }

  /** The state after one job has been selected, served and closed at one instant, leaving reports `m`. */
  function Served(s: State, k: JobId, m: ReportTable): State
    requires k in s.jobs
  {
    s.(jobs := s.jobs[k := Closed(Taken(s.jobs[k], s.now), s.now)], reports := m,
       execs := s.execs - {s.nextExec}, nextExec := s.nextExec + 1)
  }

  lemma ServedAfterRecord(c: Config, s: State, k: JobId, m: ReportTable)
    requires IsNext(s.jobs, s.now, {}, k)
    ensures var t := Apply(c, s, Lock(k, {}));
            var u := Advance(t, s.nextExec, m, Returned(Nil));
            Enabled(c, u, Record(s.nextExec)) && Apply(c, u, Record(s.nextExec)) == Served(s, k, m)
  {
    var t := Apply(c, s, Lock(k, {}));
    var u := Advance(t, s.nextExec, m, Returned(Nil));
    var v := Apply(c, u, Record(s.nextExec));
    assert v.execs == s.execs - {s.nextExec};
    assert v.jobs == s.jobs[k := Closed(Taken(s.jobs[k], s.now), s.now)];
  }

  lemma ServedWithoutHandler(c: Config, s: State, k: JobId)
    requires IsNext(s.jobs, s.now, {}, k) && s.jobs[k].kind.Unregistered?
    ensures var t := Apply(c, s, Lock(k, {}));
            Enabled(c, t, NoHandler(s.nextExec)) && Apply(c, t, NoHandler(s.nextExec)) == Served(s, k, s.reports)
  {
    var u := Apply(c, Apply(c, s, Lock(k, {})), NoHandler(s.nextExec));
    assert u.execs == s.execs - {s.nextExec};
    assert u.jobs == s.jobs[k := Closed(Taken(s.jobs[k], s.now), s.now)];
  }

  /** The worker serves a job that is not for the report, and goes on from there. */
  lemma ServeOther(c: Config, s: State, k: JobId, id: ReportId, others: set<ExecId>)
    requires ValidConfig(c) && IsNext(s.jobs, s.now, {}, k) && !Names(s.jobs[k], id) && id in s.reports
    requires s.execs.Keys <= others
    requires forall m :: id in m && m[id] == s.reports[id] ==> RecoversBeside(c, Served(s, k, m), id, others)
    ensures RecoversBeside(c, s, id, others)
  {
    var t := Apply(c, s, Lock(k, {}));
    if s.jobs[k].kind.Unregistered? {
      ServedWithoutHandler(c, s, k);
      FirstStep(c, t, NoHandler(s.nextExec), id, others);
    } else {
      var steps, m := HandlerReturns(c, t, s.nextExec);
      assert id in m && m[id] == s.reports[id];
      ServeHandled(c, s, k, steps, m, id, others);
    }
    FirstStep(c, s, Lock(k, {}), id, others);
  }

  lemma ServeHandled(c: Config, s: State, k: JobId, steps: seq<Step>, m: ReportTable, id: ReportId, others: set<ExecId>)
    requires IsNext(s.jobs, s.now, {}, k) && RecoversBeside(c, Served(s, k, m), id, others)
    requires var t := Apply(c, s, Lock(k, {}));
             Runnable(c, t, steps) && Tame(steps) && After(c, t, steps) == Advance(t, s.nextExec, m, Returned(Nil))
    ensures RecoversBeside(c, Apply(c, s, Lock(k, {})), id, others)
  {
    var t := Apply(c, s, Lock(k, {}));
    ServedAfterRecord(c, s, k, m);
    FirstStep(c, After(c, t, steps), Record(s.nextExec), id, others);
    FirstSteps(c, t, steps, id, others);
  }

  function DueJobs(s: State): set<JobId> {
    set k | k in s.jobs && Due(s.jobs[k], s.now)
  }

  lemma NextExists(jobs: Jobs, now: Time, due: set<JobId>) returns (k: JobId)
    requires due != {} && forall j :: j in due <==> j in jobs && Due(jobs[j], now)
    ensures IsNext(jobs, now, {}, k)
  {
    k :| k in due;
    var rest := due;
    while rest != {}
      invariant k in due && rest <= due
      invariant forall j :: j in due - rest ==> jobs[k].runAt <= jobs[j].runAt
    {
      var j :| j in rest;
      if jobs[j].runAt < jobs[k].runAt {
        k := j;
      }
      rest := rest - {j};
    }
  }

  /** The worker keeps taking the earliest due job; after finitely many it is the turn of one for this report. */
  lemma DueJobRecovers(c: Config, s: State, j: JobId, id: ReportId, others: set<ExecId>)
    requires ValidConfig(c) && j in s.jobs && RunnableFor(s.jobs[j], id) && Due(s.jobs[j], s.now) && Unsettled(s, id)
    requires ClaimEligible(s.reports[id], s.now - c.lease) && s.execs.Keys <= others
    ensures RecoversBeside(c, s, id, others)
    decreases |DueJobs(s)|
  {
    assert j in DueJobs(s);
    var k := NextExists(s.jobs, s.now, DueJobs(s));
    if Names(s.jobs[k], id) {
      var t := Apply(c, s, Lock(k, {}));
      StartedRecovers(c, Apply(c, t, Start(s.nextExec)), s.nextExec, id, others);
      FirstStep(c, t, Start(s.nextExec), id, others);
      FirstStep(c, s, Lock(k, {}), id, others);
    } else {
      forall m | id in m && m[id] == s.reports[id]
        ensures RecoversBeside(c, Served(s, k, m), id, others)
      {
        var t := Served(s, k, m);
        assert DueJobs(t) == DueJobs(s) - {k} && k in DueJobs(s);
        DueJobRecovers(c, t, j, id, others);
      }
      ServeOther(c, s, k, id, others);
    }
  }

  function DueFrom(row: Job): Time {
    if row.lockedUntil.Some? && row.lockedUntil.value >= row.runAt then row.lockedUntil.value + 1 else row.runAt
  }

  function Later(a: Time, b: Time): Time {
    if a < b then b else a
  }

  lemma RunnableJobRecovers(c: Config, s: State, j: JobId, id: ReportId, others: set<ExecId>)
    requires ValidConfig(c) && j in s.jobs && RunnableFor(s.jobs[j], id) && Unsettled(s, id) && s.execs.Keys <= others
    ensures RecoversBeside(c, s, id, others)
  {
    var wait := WaitUntil(s, Later(DueFrom(s.jobs[j]), ClaimableFrom(c, s.reports[id])));
    DueJobRecovers(c, Apply(c, s, wait), j, id, others);
    FirstStep(c, s, wait, id, others);
  }

  // From an enqueue, and from reconciliation.

  lemma OwedRecovers(c: Config, s: State, id: ReportId, others: set<ExecId>)
    requires ValidConfig(c) && id in s.owed && Unsettled(s, id) && s.execs.Keys <= others
    ensures RecoversBeside(c, s, id, others)
  {
    var j := FreshId(s.jobs.Keys);
    var step := EnqueueGenerate(j, id, s.now);
    RunnableJobRecovers(c, Apply(c, s, step), j, id, others);
    FirstStep(c, s, step, id, others);
  }

  /** Every pending report can complete without any further fault, even if its enqueue failed and all jobs naming
      it are spent: wait, reconcile, enqueue, serve the queue in order, generate. */
  lemma PendingRecovers(c: Config, s: State, id: ReportId, others: set<ExecId>)
    requires ValidConfig(c) && Unsettled(s, id) && s.reports[id].status.Pending? && s.execs.Keys <= others
    ensures RecoversBeside(c, s, id, others)
  {
    var wait := WaitUntil(s, s.reports[id].updatedAt + c.reconcileAfter + 1);
    var t := Apply(c, s, wait);
    var step := ReconcileList(t.now);
    assert id in Listed(c, t, t.now);
    OwedRecovers(c, Apply(c, t, step), id, others);
    FirstStep(c, t, step, id, others);
    FirstStep(c, s, wait, id, others);
  }

  // From an execution about to return an error: a failure reopens its job.

  lemma ErrorRecovers(c: Config, s: State, e: ExecId, id: ReportId, others: set<ExecId>)
    requires ValidConfig(c) && e in s.execs && s.execs[e].phase == Returned(RetryableError) && Unsettled(s, id)
    requires s.execs.Keys <= others && s.execs[e].job in s.jobs && Names(s.jobs[s.execs[e].job], id)
    requires s.jobs[s.execs[e].job].attempts < s.jobs[s.execs[e].job].maxAttempts
    ensures RecoversBeside(c, s, id, others)
  {
    var t := Apply(c, s, Record(e));
    assert t.execs.Keys <= s.execs.Keys;
    RunnableJobRecovers(c, t, s.execs[e].job, id, others);
    FirstStep(c, s, Record(e), id, others);
  }

  /** Inside the handler of a job that has an attempt to spare. */
  ghost predicate CanFail(s: State, x: Exec, id: ReportId) {
    && ForReport(x, id) && Working(x.phase) && (!x.phase.Started? ==> x.phase.since <= s.now)
    && x.job in s.jobs && Names(s.jobs[x.job], id)
    && x.attempt <= s.jobs[x.job].attempts < s.jobs[x.job].maxAttempts == x.maxAttempts
  }

  /** The step by which the handler of `e` fails. */
  function FailingStep(s: State, x: Exec, e: ExecId): Step {
    match x.phase
    case Started(_) => ReadReport(e, Refused)
    case Read(_, _, _) => ClaimReport(e, s.now, Refused)
    case Summarised(_, _, _, _) => CompleteReport(e, s.now, Refused)
    case _ => GiveUp(e, s.now, Refused)
  }

  lemma FailureRecovers(c: Config, s: State, e: ExecId, id: ReportId, others: set<ExecId>)
    requires ValidConfig(c) && e in s.execs && CanFail(s, s.execs[e], id) && !s.execs[e].phase.Claimed?
    requires s.execs[e].phase.deadline < s.now && Unsettled(s, id) && s.execs.Keys <= others
    ensures RecoversBeside(c, s, id, others)
  {
    var step := FailingStep(s, s.execs[e], e);
    var t := Apply(c, s, step);
    assert t.execs.Keys == s.execs.Keys;
    ErrorRecovers(c, t, e, id, others);
    FirstStep(c, s, step, id, others);
  }

  lemma ClaimedFailureRecovers(c: Config, s: State, e: ExecId, id: ReportId, others: set<ExecId>)
    requires ValidConfig(c) && e in s.execs && CanFail(s, s.execs[e], id) && s.execs[e].phase.Claimed?
    requires s.execs[e].phase.deadline < s.now && Unsettled(s, id) && s.execs.Keys <= others
    requires SupportedType(s.execs[e].phase.kind)
    ensures RecoversBeside(c, s, id, others)
  {
    var t := Apply(c, s, Summarise(e, false));
    assert t.execs.Keys == s.execs.Keys;
    FailureRecovers(c, t, e, id, others);
    FirstStep(c, s, Summarise(e, false), id, others);
  }

  /** A handler with an attempt to spare need only outlive its context. */
  lemma ExpiryRecovers(c: Config, s: State, e: ExecId, id: ReportId, others: set<ExecId>)
    requires ValidConfig(c) && e in s.execs && CanFail(s, s.execs[e], id)
    requires s.execs[e].phase.Claimed? ==> SupportedType(s.execs[e].phase.kind)
    requires Unsettled(s, id) && s.execs.Keys <= others
    ensures RecoversBeside(c, s, id, others)
  {
    var wait := WaitUntil(s, s.execs[e].phase.deadline + 1);
    var t := Apply(c, s, wait);
    if s.execs[e].phase.Claimed? {
      ClaimedFailureRecovers(c, t, e, id, others);
    } else {
      FailureRecovers(c, t, e, id, others);
    }
    FirstStep(c, s, wait, id, others);
  }

  // The boundary.

  /** The execution can still bring the report to completion: by completing it, by handing it back to pending, or,
      with an attempt to spare, by an error that reopens its job. */
  predicate Helpful(c: Config, s: State, x: Exec, id: ReportId) {
    && ForReport(x, id) && x.job in s.jobs && id in s.reports
    && var spare := s.jobs[x.job].attempts < s.jobs[x.job].maxAttempts;
       match x.phase
       case Locked => true
       case Returned(result) => result.RetryableError? && spare
       case Started(deadline) => spare || (s.now <= deadline && ClaimableFrom(c, s.reports[id]) <= deadline)
       case Read(deadline, _, _) => spare || (s.now <= deadline && ClaimableFrom(c, s.reports[id]) <= deadline)
       case Claimed(deadline, _, _, _) => spare || s.now <= deadline
       case Summarised(deadline, _, _, _) => spare || s.now <= deadline
       case SummaryFailed(deadline, _, _) => spare || (s.now <= deadline && !LastAttempt(x))
  }

  /** Processing, with no enqueue owed, no runnable job and no helpful execution. */
  ghost predicate Stranded(c: Config, s: State, id: ReportId) {
    && id in s.reports && s.reports[id].status.Processing? && id !in s.owed
    && (forall j :: j in s.jobs ==> !RunnableFor(s.jobs[j], id))
    && (forall e :: e in s.execs ==> !Helpful(c, s, s.execs[e], id))
  }

  lemma HelpfulRecovers(c: Config, s: State, e: ExecId, id: ReportId)
    requires Inv(c, s) && e in s.execs && Helpful(c, s, s.execs[e], id)
    requires Unsettled(s, id) && s.reports[id].status.Processing?
    ensures Recovers(c, s, id)
  {
    FactsOf(c, s, e);
    var x := s.execs[e];
    var others := s.execs.Keys;
    if Working(x.phase) && s.jobs[x.job].attempts < s.jobs[x.job].maxAttempts {
      ExpiryRecovers(c, s, e, id, others);
      return;
    }
    match x.phase {
      case Locked => LockedRecovers(c, s, e, id, others);
      case Returned(_) => ErrorRecovers(c, s, e, id, others);
      case Claimed(_, _, _, _) => ClaimedRecovers(c, s, e, id, others);
      case Summarised(_, _, _, _) => SummarisedRecovers(c, s, e, id, others);
      case SummaryFailed(_, _, _) => HandedBackRecovers(c, s, e, id);
      case _ => UnclaimedRecovers(c, s, e, id, others);
    }
  }

  lemma HandedBackRecovers(c: Config, s: State, e: ExecId, id: ReportId)
    requires ValidConfig(c) && e in s.execs && ForReport(s.execs[e], id) && s.execs[e].phase.SummaryFailed?
    requires s.execs[e].phase.since <= s.now <= s.execs[e].phase.deadline && !LastAttempt(s.execs[e])
    requires Unsettled(s, id) && s.reports[id].status.Processing?
    ensures Recovers(c, s, id)
  {
    var step := GiveUp(e, s.now, Acked);
    var t := Apply(c, s, step);
    assert t.execs.Keys == s.execs.Keys;
    PendingRecovers(c, t, id, s.execs.Keys);
    FirstStep(c, s, step, id, s.execs.Keys);
  }

  /** An unsettled report that is not stranded has a continuation that completes it. */
  lemma NotStrandedRecovers(c: Config, s: State, id: ReportId)
    requires Inv(c, s) && id in s.reports && !Terminal(s.reports[id]) && !Stranded(c, s, id)
    ensures Recovers(c, s, id)
  {
    assert RecordOk(s, s.reports[id]);
    if s.reports[id].status.Pending? {
      PendingRecovers(c, s, id, s.execs.Keys);
    } else if id in s.owed {
      OwedRecovers(c, s, id, s.execs.Keys);
    } else if j :| j in s.jobs && RunnableFor(s.jobs[j], id) {
      RunnableJobRecovers(c, s, j, id, s.execs.Keys);
    } else {
      var e :| e in s.execs && Helpful(c, s, s.execs[e], id);
      HelpfulRecovers(c, s, e, id);
    }
  }

  // Stranded reports stay so.

  lemma UnhelpfulWrite(c: Config, s: State, step: Step, id: ReportId)
    requires Enabled(c, s, step) && Writes(step) && step.e in s.execs && !Helpful(c, s, s.execs[step.e], id)
    requires s.execs[step.e].kind.GenerateReport? && s.execs[step.e].job in s.jobs
    requires id in s.reports && s.reports[id].status.Processing? && s.reports[id].processingStartedAt.Some?
    ensures id in Apply(c, s, step).reports
    ensures Apply(c, s, step).reports[id] == s.reports[id] || Apply(c, s, step).reports[id].status.Failed?
  {
  }

  /** The only change a stranded report can undergo is to be failed by a worker on its last attempt. */
  lemma StrandedReport(c: Config, s: State, step: Step, id: ReportId)
    requires Stranded(c, s, id) && Enabled(c, s, step) && ExecsInv(s)
    requires s.reports[id].processingStartedAt.Some?
    ensures id in Apply(c, s, step).reports
    ensures Apply(c, s, step).reports[id] == s.reports[id] || Apply(c, s, step).reports[id].status.Failed?
  {
    StepKeepsTable(c, s, step, id);
    if Writes(step) {
      assert ExecOk(s, s.execs[step.e]) && PhaseOk(s, s.execs[step.e]);
      UnhelpfulWrite(c, s, step, id);
    }
  }

  lemma StrandedOwed(c: Config, s: State, step: Step, id: ReportId)
    requires id in s.reports && s.reports[id].status.Processing? && id !in s.owed && Enabled(c, s, step)
    ensures id !in Apply(c, s, step).owed
  {
  }

  lemma StrandedJobs(c: Config, s: State, step: Step, id: ReportId, j: JobId)
    requires Stranded(c, s, id) && ExecsInv(s) && Enabled(c, s, step) && j in Apply(c, s, step).jobs
    ensures !RunnableFor(Apply(c, s, step).jobs[j], id)
  {
    if j in s.jobs && (step.Record? || step.NoHandler?) && s.execs[step.e].job == j {
      assert ExecOk(s, s.execs[step.e]);
      assert !Helpful(c, s, s.execs[step.e], id);
    }
  }

  /** Tables only grow and the report is as it was: an execution that does not move gains nothing. */
  lemma UnhelpfulFrame(c: Config, s: State, t: State, x: Exec, id: ReportId)
    requires Grows(s, t) && id in s.reports && t.reports[id] == s.reports[id]
    requires x.job in s.jobs && !Helpful(c, s, x, id)
    ensures !Helpful(c, t, x, id)
  {
    assert SameJob(s.jobs[x.job], t.jobs[x.job]);
  }

  /** A move does not make an unhelpful execution helpful. */
  lemma UnhelpfulMove(c: Config, s: State, step: Step, e: ExecId, id: ReportId)
    requires Enabled(c, s, step) && e in s.execs && e < s.nextExec && e in Apply(c, s, step).execs
    requires Facts(c, s, s.execs[e]) && id in s.reports && s.reports[id].status.Processing?
    requires !Helpful(c, s, s.execs[e], id) && Apply(c, s, step).execs[e] != s.execs[e]
    ensures !Helpful(c, s, Apply(c, s, step).execs[e], id)
  {
  }

  lemma ExecKeepsJob(c: Config, s: State, step: Step, e: ExecId)
    requires Enabled(c, s, step) && e in s.execs && e < s.nextExec && e in Apply(c, s, step).execs
    ensures Apply(c, s, step).execs[e].job == s.execs[e].job
  {
  }

  lemma StrandedExec(c: Config, s: State, step: Step, id: ReportId, e: ExecId)
    requires Enabled(c, s, step) && e in s.execs && e < s.nextExec && e in Apply(c, s, step).execs
    requires Facts(c, s, s.execs[e]) && !Helpful(c, s, s.execs[e], id)
    requires id in s.reports && s.reports[id].status.Processing? && Apply(c, s, step).reports[id] == s.reports[id]
    ensures !Helpful(c, Apply(c, s, step), Apply(c, s, step).execs[e], id)
  {
    var t := Apply(c, s, step);
    if t.execs[e] != s.execs[e] {
      UnhelpfulMove(c, s, step, e, id);
    }
    ExecKeepsJob(c, s, step, e);
    StepGrows(c, s, step);
    UnhelpfulFrame(c, s, t, t.execs[e], id);
  }

  /** Nothing runnable names the report, so no new execution is for it. */
  lemma StrandedNewExec(c: Config, s: State, step: Step, id: ReportId, e: ExecId)
    requires Stranded(c, s, id) && Enabled(c, s, step) && e in Apply(c, s, step).execs && e !in s.execs
    ensures !ForReport(Apply(c, s, step).execs[e], id)
  {
    assert step.Lock? && Due(s.jobs[step.jobId], s.now);
  }

  lemma StrandedExecs(c: Config, s: State, step: Step, id: ReportId, e: ExecId)
    requires Inv(c, s) && Stranded(c, s, id) && Enabled(c, s, step)
    requires e in Apply(c, s, step).execs && id in Apply(c, s, step).reports
    requires Apply(c, s, step).reports[id] == s.reports[id]
    ensures !Helpful(c, Apply(c, s, step), Apply(c, s, step).execs[e], id)
  {
    if e in s.execs {
      FactsOf(c, s, e);
      StrandedExec(c, s, step, id, e);
    } else {
      StrandedNewExec(c, s, step, id, e);
    }
  }

  /** Failed, or stranded: a set no step leaves. */
  ghost predicate Doomed(c: Config, s: State, id: ReportId) {
    (id in s.reports && s.reports[id].status.Failed?) || Stranded(c, s, id)
  }

  lemma StepKeepsStranded(c: Config, s: State, step: Step, id: ReportId)
    requires Inv(c, s) && Stranded(c, s, id) && Enabled(c, s, step)
    requires id in Apply(c, s, step).reports && Apply(c, s, step).reports[id] == s.reports[id]
    ensures Stranded(c, Apply(c, s, step), id)
  {
    var t := Apply(c, s, step);
    StrandedOwed(c, s, step, id);
    forall j | j in t.jobs
      ensures !RunnableFor(t.jobs[j], id)
    {
      StrandedJobs(c, s, step, id, j);
    }
    forall e | e in t.execs
      ensures !Helpful(c, t, t.execs[e], id)
    {
      StrandedExecs(c, s, step, id, e);
    }
  }

  lemma StepKeepsDoomed(c: Config, s: State, step: Step, id: ReportId)
    requires Inv(c, s) && Doomed(c, s, id) && Enabled(c, s, step)
    ensures Doomed(c, Apply(c, s, step), id)
  {
    if s.reports[id].status.Failed? {
      StepGrows(c, s, step);
    } else {
      assert RecordOk(s, s.reports[id]);
      StrandedReport(c, s, step, id);
      if Apply(c, s, step).reports[id] == s.reports[id] {
        StepKeepsStranded(c, s, step, id);
      }
    }
  }

  /** No run, with any faults and any number of workers, completes a doomed report. */
  lemma {:induction false} DoomedForever(c: Config, s: State, steps: seq<Step>, id: ReportId)
    requires Inv(c, s) && Doomed(c, s, id) && Runnable(c, s, steps)
    ensures Doomed(c, After(c, s, steps), id) && !EndsCompleted(c, s, steps, id)
    decreases |steps|
  {
    if steps != [] {
      StepKeepsInv(c, s, steps[0]);
      StepKeepsDoomed(c, s, steps[0], id);
      DoomedForever(c, Apply(c, s, steps[0]), steps[1..], id);
    }
  }

  lemma StrandedCannotComplete(c: Config, s: State, id: ReportId)
    requires Inv(c, s) && Stranded(c, s, id)
    ensures !CanComplete(c, s, id)
  {
    forall steps | Runnable(c, s, steps)
      ensures !EndsCompleted(c, s, steps, id)
    {
      DoomedForever(c, s, steps, id);
    }
  }

  /** The exact boundary: a reachable report that has not settled can complete if and only if it is not stranded, and
      then one worker can complete it without any further fault. A pending report is never stranded. */
  lemma RecoversIffNotStranded(c: Config, s: State, id: ReportId)
    requires ValidConfig(c) && Reachable(c, s) && id in s.reports && !Terminal(s.reports[id])
    ensures CanComplete(c, s, id) <==> !Stranded(c, s, id)
    ensures Recovers(c, s, id) <==> !Stranded(c, s, id)
    ensures s.reports[id].status.Pending? ==> Recovers(c, s, id)
  {
    ReachableInv(c, s);
    if Stranded(c, s, id) {
      StrandedCannotComplete(c, s, id);
    } else {
      NotStrandedRecovers(c, s, id);
    }
  }
}
