/** What every step of the protocol keeps, whatever the configuration. */
module Invariants {
  import opened Prelude
  import opened ReportDomain
  import opened JobQueue
  import opened ResultText
  import opened Protocol

  /** Rows carry the configured budget and never overspend it; a reports.generate row names a report. */
  ghost predicate JobOk(c: Config, s: State, row: Job) {
    && row.attempts <= row.maxAttempts == c.maxAttempts
    && (row.kind.GenerateReport? && row.payload.Some? ==> row.payload.value in s.reports)
  }

  /** An execution's copy of its row is current but for the attempt counter, which only grows. */
  ghost predicate ExecOk(s: State, x: Exec) {
    && x.job in s.jobs
    && x.kind == s.jobs[x.job].kind && x.payload == s.jobs[x.job].payload
    && 1 <= x.attempt <= s.jobs[x.job].attempts && x.maxAttempts == s.jobs[x.job].maxAttempts
    && x.lockedAt <= s.now
  }

  /** The clock discipline of a handler: start, then read, then claim, each no earlier than the last, and what the
      claim left behind in the report. */
  ghost predicate PhaseOk(s: State, x: Exec) {
    && (Working(x.phase) ==>
        && x.kind.GenerateReport? && x.payload.Some? && x.payload.value in s.reports
        && x.lockedAt + HANDLER_TIMEOUT <= x.phase.deadline <= s.now + HANDLER_TIMEOUT)
    && (x.phase.Read? ==>
        && x.phase.kind == s.reports[x.payload.value].kind
        && s.reports[x.payload.value].createdAt <= x.phase.since <= s.now
        && x.phase.deadline - HANDLER_TIMEOUT <= x.phase.since)
    && (x.phase.Claimed? ==> x.phase.kind == s.reports[x.payload.value].kind)
    && (PastClaim(x.phase) ==>
        && x.phase.deadline - HANDLER_TIMEOUT <= x.phase.claimAt <= x.phase.since <= s.now
        && s.reports[x.payload.value].startedAt.Some?
        && s.reports[x.payload.value].startedAt.value <= x.phase.since)
  }

  /** Each status fixes exactly which fields are set, and creation <= first claim <= completion. */
  ghost predicate RecordOk(s: State, r: Report) {
    && SupportedType(r.kind)
    && r.createdAt <= s.now
    && (r.startedAt.Some? ==> r.createdAt <= r.startedAt.value <= s.now)
    && (r.completedAt.Some? ==> r.startedAt.Some? && r.startedAt.value <= r.completedAt.value <= s.now)
    && r.updatedAt <= s.now
    && match r.status
       case Pending =>
         && r.processingStartedAt.None? && r.completedAt.None?
         && r.result == "" && r.failureCode == "" && r.failureReason == ""
       case Processing =>
         && r.processingStartedAt.Some? && r.createdAt <= r.processingStartedAt.value <= s.now
         && r.startedAt.Some? && r.completedAt.None? && r.result == "" && r.failureCode == "" && r.failureReason == ""
       case Completed =>
         && r.processingStartedAt.None? && r.startedAt.Some?
         && r.completedAt.Some? && r.updatedAt == r.completedAt.value
         && r.failureCode == "" && r.failureReason == "" && r.result != ""
       case Failed =>
         && r.processingStartedAt.None? && r.startedAt.Some?
         && r.completedAt.Some? && r.updatedAt == r.completedAt.value
         && r.result == "" && r.failureCode == FAILURE_RETRY_EXHAUSTED && r.failureReason == REASON_RETRY_EXHAUSTED
       case Unrecognised(_) => false
  }

  /** A failed report has used up the whole budget of some job naming it. */
  ghost predicate Exhausted(s: State, id: ReportId) {
    exists j :: j in s.jobs && s.jobs[j].kind.GenerateReport? && s.jobs[j].payload == Some(id)
      && s.jobs[j].attempts == s.jobs[j].maxAttempts
  }

  ghost predicate JobsInv(c: Config, s: State) {
    forall j :: j in s.jobs ==> JobOk(c, s, s.jobs[j])
  }

  ghost predicate ExecsInv(s: State) {
    forall e :: e in s.execs ==> e < s.nextExec && ExecOk(s, s.execs[e]) && PhaseOk(s, s.execs[e])
  }

  ghost predicate ReportsInv(s: State) {
    && (forall id :: id in s.reports ==> s.reports[id].id == id && RecordOk(s, s.reports[id]))
    && (forall id :: id in s.reports && s.reports[id].status.Failed? ==> Exhausted(s, id))
    && (forall id :: id in s.owed ==> id in s.reports)
  }

  ghost predicate Inv(c: Config, s: State) {
    ValidConfig(c) && JobsInv(c, s) && ExecsInv(s) && ReportsInv(s)
  }

  /** All that the invariant says about one execution, its job row and its report. */
  ghost predicate Facts(c: Config, s: State, x: Exec) {
    && ExecOk(s, x) && PhaseOk(s, x) && JobOk(c, s, s.jobs[x.job])
    && (x.payload.Some? && x.payload.value in s.reports ==>
        s.reports[x.payload.value].id == x.payload.value && RecordOk(s, s.reports[x.payload.value]))
  }

  lemma FactsOf(c: Config, s: State, e: ExecId)
    requires Inv(c, s) && e in s.execs
    ensures Facts(c, s, s.execs[e])
  {
  }

  /** What never changes: identities of rows, a report's owner, type and creation time, its first start, and its
      whole record once terminal; clocks, attempt counters and tables only grow. */
  ghost predicate Grows(s: State, t: State) {
    && s.now <= t.now && s.nextExec <= t.nextExec
    && (forall j :: j in s.jobs ==> j in t.jobs && SameJob(s.jobs[j], t.jobs[j]))
    && (forall id :: id in s.reports ==> id in t.reports && SameReport(s.reports[id], t.reports[id]))
  }

  ghost predicate SameJob(a: Job, b: Job) {
    a.kind == b.kind && a.payload == b.payload && a.maxAttempts == b.maxAttempts && a.attempts <= b.attempts
  }

  ghost predicate SameReport(a: Report, b: Report) {
    && a.id == b.id && a.owner == b.owner && a.kind == b.kind && a.createdAt == b.createdAt
    && (a.startedAt.Some? ==> b.startedAt == a.startedAt)
    && (Terminal(a) ==> b == a)
  }

  lemma StepGrows(c: Config, s: State, step: Step)
    requires Enabled(c, s, step)
    ensures Grows(s, Apply(c, s, step))
  {
  }

  lemma StepKeepsJobs(c: Config, s: State, step: Step)
    requires Inv(c, s) && Enabled(c, s, step)
    ensures JobsInv(c, Apply(c, s, step))
  {
    StepGrows(c, s, step);
  }

  /** An execution keeps its job, attempt and lock time; a locked one was locked before, or is new. */
  lemma ExecIdentity(c: Config, s: State, step: Step, e: ExecId)
    requires Enabled(c, s, step) && e in Apply(c, s, step).execs
    ensures e in s.execs && (step.Lock? ==> e != s.nextExec) ==>
              && Apply(c, s, step).execs[e] == s.execs[e].(phase := Apply(c, s, step).execs[e].phase)
              && (Apply(c, s, step).execs[e].phase.Locked? ==>
                  s.execs[e].phase.Locked? && !(step.Start? && step.e == e))
    ensures e !in s.execs || (step.Lock? && e == s.nextExec) ==>
              && step.Lock? && e == s.nextExec && step.jobId in s.jobs
              && Apply(c, s, step).execs[e] == NewExec(s, step.jobId)
  {
  }

  /** An execution that does not move stays in order, whoever else does. */
  lemma ExecFrame(s: State, t: State, x: Exec)
    requires Grows(s, t) && ExecOk(s, x) && PhaseOk(s, x)
    ensures ExecOk(t, x) && PhaseOk(t, x)
  {
  }

  /** A new execution is one attempt ahead of what the row was. */
  lemma LockedExecOk(c: Config, s: State, j: JobId, skipped: set<JobId>)
    requires Inv(c, s) && Enabled(c, s, Lock(j, skipped))
    ensures var t := Apply(c, s, Lock(j, skipped));
            var x := t.execs[s.nextExec];
            ExecOk(t, x) && PhaseOk(t, x)
  {
    assert JobOk(c, s, s.jobs[j]);
  }

  /** An execution that moves to `phase` while the tables grow is in order if the new phase is. */
  lemma AdvancedExecOk(s: State, t: State, x: Exec, phase: Phase)
    requires Grows(s, t) && ExecOk(s, x) && PhaseOk(t, x.(phase := phase))
    ensures ExecOk(t, x.(phase := phase))
  {
  }

  /** A move of an execution: the phase it enters is in order in the state it leaves behind. */
  lemma MovedPhaseOk(c: Config, s: State, step: Step, e: ExecId)
    requires Enabled(c, s, step) && e in s.execs && e in Apply(c, s, step).execs && Facts(c, s, s.execs[e])
    requires e < s.nextExec && Apply(c, s, step).execs[e] != s.execs[e]
    ensures PhaseOk(Apply(c, s, step), Apply(c, s, step).execs[e])
  {
  }

  lemma StepKeepsMover(c: Config, s: State, step: Step, e: ExecId)
    requires Inv(c, s) && Enabled(c, s, step) && e in s.execs && e in Apply(c, s, step).execs
    ensures ExecOk(Apply(c, s, step), Apply(c, s, step).execs[e])
    ensures PhaseOk(Apply(c, s, step), Apply(c, s, step).execs[e])
  {
    var t := Apply(c, s, step);
    StepGrows(c, s, step);
    if t.execs[e] == s.execs[e] {
      ExecFrame(s, t, s.execs[e]);
    } else {
      FactsOf(c, s, e);
      ExecIdentity(c, s, step, e);
      MovedPhaseOk(c, s, step, e);
      AdvancedExecOk(s, t, s.execs[e], t.execs[e].phase);
    }
  }

  lemma StepKeepsExecs(c: Config, s: State, step: Step)
    requires Inv(c, s) && Enabled(c, s, step)
    ensures ExecsInv(Apply(c, s, step))
  {
    var t := Apply(c, s, step);
    forall e | e in t.execs
      ensures e < t.nextExec && ExecOk(t, t.execs[e]) && PhaseOk(t, t.execs[e])
    {
      if e in s.execs {
        StepKeepsMover(c, s, step, e);
      } else {
        LockedExecOk(c, s, step.jobId, step.skipped);
      }
    }
  }

  /** A store call of an execution in order leaves well-formed records, and a failed one only when the
      execution's job has spent its budget. */
  lemma ClaimCallOk(c: Config, s: State, x: Exec, at: Time, call: Call)
    requires PhaseOk(s, x) && x.phase.Read? && CallOk(s, x, at, call) && RecordOk(s, s.reports[x.payload.value])
    requires s.reports[x.payload.value].id == x.payload.value
    ensures var r := Called(s.reports, ClaimOp(c, x, at), call)[x.payload.value];
            && r.id == x.payload.value && RecordOk(s, r)
            && (r.status.Failed? ==> s.reports[x.payload.value].status.Failed?)
  {
  }

  lemma CompleteCallOk(s: State, x: Exec, at: Time, call: Call)
    requires PhaseOk(s, x) && x.phase.Summarised? && CallOk(s, x, at, call) && RecordOk(s, s.reports[x.payload.value])
    requires s.reports[x.payload.value].id == x.payload.value
    ensures var r := Called(s.reports, CompleteOp(x, at), call)[x.payload.value];
            && r.id == x.payload.value && RecordOk(s, r)
            && (r.status.Failed? ==> s.reports[x.payload.value].status.Failed?)
  {
    ResultRoundTrip(x.phase.summary);
  }

  lemma GiveUpCallOk(c: Config, s: State, x: Exec, at: Time, call: Call)
    requires ExecOk(s, x) && JobOk(c, s, s.jobs[x.job])
    requires PhaseOk(s, x) && x.phase.SummaryFailed? && CallOk(s, x, at, call)
    requires RecordOk(s, s.reports[x.payload.value])
    requires s.reports[x.payload.value].id == x.payload.value
    ensures var r := Called(s.reports, GiveUpOp(x, at), call)[x.payload.value];
            && r.id == x.payload.value && RecordOk(s, r)
            && (r.status.Failed? ==> s.reports[x.payload.value].status.Failed? || Exhausted(s, x.payload.value))
  {
  }

  /** Reports are created with a supported type and read back with it, so RejectType never runs. */
  lemma NeverRejected(c: Config, s: State, e: ExecId, at: Time, call: Call)
    requires Inv(c, s)
    ensures !Enabled(c, s, RejectType(e, at, call))
  {
    if e in s.execs && s.execs[e].phase.Claimed? {
      assert PhaseOk(s, s.execs[e]) && RecordOk(s, s.reports[s.execs[e].payload.value]);
    }
  }

  lemma ChangedRecordOk(c: Config, s: State, step: Step, id: ReportId)
    requires Enabled(c, s, step) && id in s.reports && Apply(c, s, step).reports[id] != s.reports[id]
    requires !step.RejectType? && Facts(c, s, s.execs[step.e])
    ensures Apply(c, s, step).reports[id].id == id && RecordOk(s, Apply(c, s, step).reports[id])
    ensures Apply(c, s, step).reports[id].status.Failed? ==> s.reports[id].status.Failed? || Exhausted(s, id)
  {
    match step {
      case ClaimReport(e, at, call) => ClaimCallOk(c, s, s.execs[e], at, call);
      case CompleteReport(e, at, call) => CompleteCallOk(s, s.execs[e], at, call);
      case GiveUp(e, at, call) => GiveUpCallOk(c, s, s.execs[e], at, call);
    }
  }

  lemma StepKeepsRecord(c: Config, s: State, step: Step, id: ReportId)
    requires Inv(c, s) && Enabled(c, s, step) && id in s.reports
    ensures id in Apply(c, s, step).reports && Apply(c, s, step).reports[id].id == id
    ensures RecordOk(s, Apply(c, s, step).reports[id])
    ensures Apply(c, s, step).reports[id].status.Failed? ==> Exhausted(s, id)
  {
    if id in Apply(c, s, step).reports && Apply(c, s, step).reports[id] == s.reports[id] {
      return;
    }
    StepKeepsTable(c, s, step, id);
    forall e, at, call
      ensures !Enabled(c, s, RejectType(e, at, call))
    {
      NeverRejected(c, s, e, at, call);
    }
    FactsOf(c, s, step.e);
    ChangedRecordOk(c, s, step, id);
  }

  /** A report stays in the table, and only a store call by an execution changes it. */
  lemma StepKeepsTable(c: Config, s: State, step: Step, id: ReportId)
    requires Enabled(c, s, step) && id in s.reports
    ensures id in Apply(c, s, step).reports
    ensures Apply(c, s, step).reports[id] != s.reports[id] ==> Writes(step) && step.e in s.execs
  {
  }

  lemma OwedOk(c: Config, s: State, step: Step)
    requires Enabled(c, s, step) && forall id :: id in s.owed ==> id in s.reports
    ensures forall id :: id in Apply(c, s, step).owed ==> id in Apply(c, s, step).reports
  {
  }

  lemma StepKeepsReports(c: Config, s: State, step: Step)
    requires Inv(c, s) && Enabled(c, s, step)
    ensures ReportsInv(Apply(c, s, step))
  {
    var t := Apply(c, s, step);
    forall id | id in s.reports
      ensures id in t.reports && t.reports[id].id == id && RecordOk(s, t.reports[id])
      ensures t.reports[id].status.Failed? ==> Exhausted(s, id)
    {
      StepKeepsRecord(c, s, step, id);
    }
    StepGrows(c, s, step);
    StepKeepsJobs(c, s, step);
    OwedOk(c, s, step);
    forall id | id in t.reports && id !in s.reports
      ensures t.reports[id].id == id && RecordOk(t, t.reports[id]) && !t.reports[id].status.Failed?
    {
      NewRecordOk(c, s, step, id);
    }
    RecordsCarryOver(c, s, t);
  }

  lemma NewRecordOk(c: Config, s: State, step: Step, id: ReportId)
    requires Enabled(c, s, step) && id in Apply(c, s, step).reports && id !in s.reports
    requires forall e :: e in s.execs && Working(s.execs[e].phase) ==>
               s.execs[e].payload.Some? && s.execs[e].payload.value in s.reports
    ensures var t := Apply(c, s, step);
            t.reports[id].id == id && RecordOk(t, t.reports[id]) && !t.reports[id].status.Failed?
  {
  }

  lemma RecordsCarryOver(c: Config, s: State, t: State)
    requires Grows(s, t) && JobsInv(c, t)
    requires forall id :: id in s.reports ==>
               && t.reports[id].id == id && RecordOk(s, t.reports[id])
               && (t.reports[id].status.Failed? ==> Exhausted(s, id))
    requires forall id :: id in t.reports && id !in s.reports ==>
               t.reports[id].id == id && RecordOk(t, t.reports[id]) && !t.reports[id].status.Failed?
    requires forall id :: id in t.owed ==> id in t.reports
    ensures ReportsInv(t)
  {
  }

  lemma StepKeepsInv(c: Config, s: State, step: Step)
    requires Inv(c, s) && Enabled(c, s, step)
    ensures Inv(c, Apply(c, s, step))
  {
    StepKeepsJobs(c, s, step);
    StepKeepsExecs(c, s, step);
    StepKeepsReports(c, s, step);
  }

  lemma GrowsTransitive(s: State, t: State, u: State)
    requires Grows(s, t) && Grows(t, u)
    ensures Grows(s, u)
  {
  }

  lemma {:induction false} RunKeepsInv(c: Config, s: State, steps: seq<Step>)
    requires Inv(c, s) && Runnable(c, s, steps)
    ensures Inv(c, After(c, s, steps))
    decreases |steps|
  {
    if steps != [] {
      StepKeepsInv(c, s, steps[0]);
      RunKeepsInv(c, Apply(c, s, steps[0]), steps[1..]);
    }
  }

  /** Exactly-once effect, first half: over every run a report's identity, owner, type and creation time are
      fixed, its first start is written once, and a terminal record is frozen. */
  lemma {:induction false} RunGrows(c: Config, s: State, steps: seq<Step>)
    requires Runnable(c, s, steps)
    ensures Grows(s, After(c, s, steps))
    decreases |steps|
  {
    if steps != [] {
      var t := Apply(c, s, steps[0]);
      StepGrows(c, s, steps[0]);
      RunGrows(c, t, steps[1..]);
      GrowsTransitive(s, t, After(c, t, steps[1..]));
    }
  }

  lemma ReachableInv(c: Config, s: State)
    requires ValidConfig(c) && Reachable(c, s)
    ensures Inv(c, s)
  {
    var s0, steps :| Initial(s0) && Runnable(c, s0, steps) && After(c, s0, steps) == s;
    RunKeepsInv(c, s0, steps);
  }
}
