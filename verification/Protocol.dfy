/** The whole protocol as a transition system: job rows, report rows, the todo table, and any number of handler
    executions interleaving store call by store call (internal/platform/jobs/jobs.go:96-169,
    internal/reports/service.go:73-230, internal/app/app.go:46-116).

    Postgres' NOW() is the clock at the instant of the statement. A Go clock reading passed to a store call was
    taken at some instant between the end of the previous call and the call itself. */
module Protocol {
  import opened Prelude
  import opened ReportDomain
  import opened TodoTable
  import opened JobQueue
  import opened ResultText

  datatype Config = Config(lease: Time, reconcileAfter: Time, maxAttempts: nat)

  /** What NewService and NewQueue guarantee by replacing non-positive settings with defaults. */
  predicate ValidConfig(c: Config) {
    c.lease > 0 && c.reconcileAfter > 0 && c.maxAttempts > 0
  }

  /** A store call takes effect and returns, takes effect but returns an error (the acknowledgement is lost), or
      returns an error without effect. Under an expired handler context only the last is possible. */
  datatype Call = Acked | AckLost | Refused

  /** What a handler returns to the queue: nil or an error. */
  datatype Result = Nil | RetryableError

  /** How far one execution of processOne has got. `deadline` is the handler context's, `since` the instant the
      phase was entered. */
  datatype Phase =
    | Locked
    | Started(deadline: Time)
    | Read(deadline: Time, kind: string, since: Time)
    | Claimed(deadline: Time, kind: string, claimAt: Time, since: Time)
    | Summarised(deadline: Time, claimAt: Time, summary: Summary, since: Time)
    | SummaryFailed(deadline: Time, claimAt: Time, since: Time)
    | Returned(result: Result)

  type ExecId = nat

  /** An execution: the columns scanned from the job row, and its phase. */
  datatype Exec = Exec(
    job: JobId,
    kind: JobKind,
    payload: Option<ReportId>,
    attempt: nat,
    maxAttempts: nat,
    lockedAt: Time,
    phase: Phase)

  /** `owed` counts, per report, the Enqueue calls that CreateReport and ReconcilePending are about to make. */
  datatype State = State(
    now: Time,
    jobs: Jobs,
    reports: ReportTable,
    todos: Todos,
    execs: map<ExecId, Exec>,
    nextExec: ExecId,
    owed: multiset<ReportId>)

  predicate Working(p: Phase) {
    !p.Locked? && !p.Returned?
  }

  predicate PastClaim(p: Phase) {
    p.Claimed? || p.Summarised? || p.SummaryFailed?
  }

  /** Inside its handler, with the handler context not yet expired. */
  predicate Live(s: State, x: Exec) {
    Working(x.phase) && s.now <= x.phase.deadline
  }

  datatype Step =
    // environment
    | Tick(d: nat)
    | PutTodo(todo: Todo)
    | DeleteTodo(todoId: TodoId)
    // service calls
    | CreateReport(id: ReportId, owner: string, kind: string, at: Time)
    | ReconcileList(at: Time)
    | EnqueueGenerate(jobId: JobId, id: ReportId, runAt: Time)
    | EnqueueFails(id: ReportId)
    | EnqueueOther(jobId: JobId, jobKind: JobKind, payload: Option<ReportId>, runAt: Time)
    // one worker
    | Lock(jobId: JobId, skipped: set<JobId>)
    | Start(e: ExecId)
    | NoHandler(e: ExecId)
    | ReadReport(e: ExecId, call: Call)
    | ClaimReport(e: ExecId, at: Time, call: Call)
    | RejectType(e: ExecId, at: Time, call: Call)
    | Summarise(e: ExecId, ok: bool)
    | CompleteReport(e: ExecId, at: Time, call: Call)
    | GiveUp(e: ExecId, at: Time, call: Call)
    | Record(e: ExecId)
    | Crash(e: ExecId)

  /** A store call of execution `x`: its clock reading is recent enough, and it has no effect once the context
      has expired. */
  predicate CallOk(s: State, x: Exec, at: Time, call: Call)
    requires Working(x.phase) && !x.phase.Started?
  {
    x.phase.since <= at <= s.now && (s.now <= x.phase.deadline || call.Refused?)
  }

  /** A handler execution for a report: its job is reports.generate and its payload decoded. */
  predicate ForReport(x: Exec, id: ReportId) {
    x.kind.GenerateReport? && x.payload == Some(id)
  }

  ghost predicate Enabled(c: Config, s: State, step: Step) {
    match step
    case Tick(_) => true
    case PutTodo(_) => true
    case DeleteTodo(_) => true
    case CreateReport(id, owner, kind, at) => id !in s.reports && SupportedType(kind) && at <= s.now
    case ReconcileList(at) => at <= s.now
    case EnqueueGenerate(j, id, runAt) => j !in s.jobs && id in s.owed && runAt <= s.now
    case EnqueueFails(id) => id in s.owed
    case EnqueueOther(j, kind, payload, runAt) => j !in s.jobs && (kind.GenerateReport? ==> payload.None?)
    case Lock(j, skipped) => IsNext(s.jobs, s.now, skipped, j)
    case Start(e) => e in s.execs && s.execs[e].phase.Locked? && !s.execs[e].kind.Unregistered?
    case NoHandler(e) =>
      e in s.execs && s.execs[e].phase.Locked? && s.execs[e].kind.Unregistered? && s.execs[e].job in s.jobs
    case ReadReport(e, call) =>
      e in s.execs && s.execs[e].phase.Started? && s.execs[e].payload.Some? && (Live(s, s.execs[e]) || call.Refused?)
    case ClaimReport(e, at, call) =>
      e in s.execs && s.execs[e].phase.Read? && s.execs[e].payload.Some? && CallOk(s, s.execs[e], at, call)
    case RejectType(e, at, call) =>
      && e in s.execs && s.execs[e].phase.Claimed? && s.execs[e].payload.Some?
      && !SupportedType(s.execs[e].phase.kind) && CallOk(s, s.execs[e], at, call)
    case Summarise(e, ok) =>
      && e in s.execs && s.execs[e].phase.Claimed? && s.execs[e].payload.Some?
      && SupportedType(s.execs[e].phase.kind) && (Live(s, s.execs[e]) || !ok)
    case CompleteReport(e, at, call) =>
      e in s.execs && s.execs[e].phase.Summarised? && s.execs[e].payload.Some? && CallOk(s, s.execs[e], at, call)
    case GiveUp(e, at, call) =>
      e in s.execs && s.execs[e].phase.SummaryFailed? && s.execs[e].payload.Some? && CallOk(s, s.execs[e], at, call)
    case Record(e) => e in s.execs && s.execs[e].phase.Returned? && s.execs[e].job in s.jobs
    case Crash(e) => e in s.execs
  }

  /** The table after a store call with this fate. */
  function Called(m: ReportTable, op: StoreOp, call: Call): ReportTable {
    if call.Refused? then m else Perform(m, op)
  }

  function Returns(call: Call): Result {
    if call.Acked? then Nil else RetryableError
  }

  /** The handler's first instant: a bad payload and the audit job return nil at once. */
  function StartPhase(s: State, x: Exec): Phase {
    if x.kind.GenerateReport? && x.payload.Some? then Started(s.now + HANDLER_TIMEOUT) else Returned(Nil)
  }

  function ReadPhase(s: State, x: Exec, call: Call): Phase
    requires x.phase.Started? && x.payload.Some?
  {
    var id := x.payload.value;
    if !call.Acked? then Returned(RetryableError)
    else if id !in s.reports then Returned(Nil)
    else match s.reports[id].status
      case Pending => Read(x.phase.deadline, s.reports[id].kind, s.now)
      case Processing => Read(x.phase.deadline, s.reports[id].kind, s.now)
      case _ => Returned(Nil)
  }

  function ClaimOp(c: Config, x: Exec, at: Time): StoreOp
    requires x.payload.Some?
  {
    Claim(x.payload.value, at, at - c.lease)
  }

  function ClaimPhase(c: Config, s: State, x: Exec, at: Time, call: Call): Phase
    requires x.phase.Read? && x.payload.Some?
  {
    if !call.Acked? then Returned(RetryableError)
    else if Written(s.reports, ClaimOp(c, x, at)).None? then Returned(Nil)
    else Claimed(x.phase.deadline, x.phase.kind, at, s.now)
  }

  function SummaryPhase(s: State, x: Exec, ok: bool): Phase
    requires x.phase.Claimed?
  {
    if ok then Summarised(x.phase.deadline, x.phase.claimAt, Count(s.todos), s.now)
    else SummaryFailed(x.phase.deadline, x.phase.claimAt, s.now)
  }

  /** handleRetryable: the last attempt marks the report failed and returns nil; an earlier one hands the report
      back and returns an error in every case. */
  predicate LastAttempt(x: Exec) {
    x.attempt >= x.maxAttempts
  }

  function GiveUpOp(x: Exec, at: Time): StoreOp
    requires x.payload.Some?
  {
    if LastAttempt(x) then Fail(x.payload.value, FAILURE_RETRY_EXHAUSTED, REASON_RETRY_EXHAUSTED, at)
    else PendingRetry(x.payload.value, at)
  }

  function CompleteOp(x: Exec, at: Time): StoreOp
    requires x.payload.Some? && x.phase.Summarised?
  {
    Complete(x.payload.value, FormatResult(x.phase.summary), at)
  }

  function RejectOp(x: Exec, at: Time): StoreOp
    requires x.payload.Some?
  {
    Fail(x.payload.value, FAILURE_UNSUPPORTED_TYPE, REASON_UNSUPPORTED_TYPE, at)
  }

  /** The pending rows a reconcile pass lists. */
  function Listed(c: Config, s: State, at: Time): set<ReportId> {
    set id | id in s.reports && OlderPending(s.reports[id], at - c.reconcileAfter)
  }

  function NewExec(s: State, j: JobId): Exec
    requires j in s.jobs
  {
    var row := s.jobs[j];
    Exec(j, row.kind, row.payload, row.attempts + 1, row.maxAttempts, s.now, Locked)
  }

  function Outcome(s: State, x: Exec): Job
    requires x.phase.Returned? && x.job in s.jobs
  {
    if x.phase.result.Nil? then Closed(s.jobs[x.job], s.now) else Backed(s.jobs[x.job], s.now)
  }

  /** Execution `e` moves to another phase, with a store call on the way. */
  function Advance(s: State, e: ExecId, reports: ReportTable, phase: Phase): State
    requires e in s.execs
  {
    s.(reports := reports, execs := s.execs[e := s.execs[e].(phase := phase)])
  }

  ghost function Apply(c: Config, s: State, step: Step): State
    requires Enabled(c, s, step)
  {
    match step
    case Tick(d) => s.(now := s.now + d)
    case PutTodo(t) => s.(todos := s.todos[t.id := t])
    case DeleteTodo(t) => s.(todos := s.todos - {t})
    case CreateReport(id, owner, kind, at) =>
      s.(reports := s.reports[id := NewReport(id, owner, kind, at)], owed := s.owed + multiset{id})
    case ReconcileList(at) => s.(owed := s.owed + multiset(Listed(c, s, at)))
    case EnqueueGenerate(j, id, runAt) =>
      s.(jobs := s.jobs[j := NewJob(GenerateReport, Some(id), runAt, c.maxAttempts)], owed := s.owed - multiset{id})
    case EnqueueFails(id) => s.(owed := s.owed - multiset{id})
    case EnqueueOther(j, kind, payload, runAt) => s.(jobs := s.jobs[j := NewJob(kind, payload, runAt, c.maxAttempts)])
    case Lock(j, _) =>
      s.(jobs := s.jobs[j := Taken(s.jobs[j], s.now)],
         execs := s.execs[s.nextExec := NewExec(s, j)], nextExec := s.nextExec + 1)
    case Start(e) => Advance(s, e, s.reports, StartPhase(s, s.execs[e]))
    case NoHandler(e) =>
      s.(jobs := s.jobs[s.execs[e].job := Closed(s.jobs[s.execs[e].job], s.now)], execs := s.execs - {e})
    case ReadReport(e, call) => Advance(s, e, s.reports, ReadPhase(s, s.execs[e], call))
    case ClaimReport(e, at, call) =>
      Advance(s, e, Called(s.reports, ClaimOp(c, s.execs[e], at), call), ClaimPhase(c, s, s.execs[e], at, call))
    case RejectType(e, at, call) =>
      Advance(s, e, Called(s.reports, RejectOp(s.execs[e], at), call), Returned(Nil))
    case Summarise(e, ok) => Advance(s, e, s.reports, SummaryPhase(s, s.execs[e], ok))
    case CompleteReport(e, at, call) =>
      Advance(s, e, Called(s.reports, CompleteOp(s.execs[e], at), call), Returned(Returns(call)))
    case GiveUp(e, at, call) =>
      Advance(s, e, Called(s.reports, GiveUpOp(s.execs[e], at), call),
              Returned(if LastAttempt(s.execs[e]) then Nil else RetryableError))
    case Record(e) => s.(jobs := s.jobs[s.execs[e].job := Outcome(s, s.execs[e])], execs := s.execs - {e})
    case Crash(e) => s.(execs := s.execs - {e})
  }

  /** Steps that call a writing operation of the report store. */
  predicate Writes(step: Step) {
    step.ClaimReport? || step.RejectType? || step.CompleteReport? || step.GiveUp?
  }

  ghost predicate Initial(s: State) {
    s.jobs == map[] && s.reports == map[] && s.execs == map[] && s.nextExec == 0 && s.owed == multiset{}
  }

  // Runs.

  ghost predicate Runnable(c: Config, s: State, steps: seq<Step>)
    decreases |steps|
  {
    steps == [] || (Enabled(c, s, steps[0]) && Runnable(c, Apply(c, s, steps[0]), steps[1..]))
  }

  ghost function After(c: Config, s: State, steps: seq<Step>): State
    requires Runnable(c, s, steps)
    decreases |steps|
  {
    if steps == [] then s else After(c, Apply(c, s, steps[0]), steps[1..])
  }

  ghost predicate Reachable(c: Config, s: State) {
    exists s0, steps :: Initial(s0) && Runnable(c, s0, steps) && After(c, s0, steps) == s
  }

  lemma OneStep(c: Config, s: State, step: Step)
    requires Enabled(c, s, step)
    ensures Runnable(c, s, [step]) && After(c, s, [step]) == Apply(c, s, step)
  {
    assert [step][1..] == [];
  }

  lemma MoreSteps(c: Config, s: State, step: Step, rest: seq<Step>)
    requires Enabled(c, s, step) && Runnable(c, Apply(c, s, step), rest)
    ensures Runnable(c, s, [step] + rest) && After(c, s, [step] + rest) == After(c, Apply(c, s, step), rest)
  {
    assert ([step] + rest)[1..] == rest;
  }

  /** Runs compose. */
  lemma {:induction false} Concatenate(c: Config, s: State, a: seq<Step>, b: seq<Step>)
    requires Runnable(c, s, a) && Runnable(c, After(c, s, a), b)
    ensures Runnable(c, s, a + b) && After(c, s, a + b) == After(c, After(c, s, a), b)
    decreases |a|
  {
    if a == [] {
      assert a + b == b;
    } else {
      assert (a + b)[1..] == a[1..] + b;
      Concatenate(c, Apply(c, s, a[0]), a[1..], b);
    }
  }

  /** Runs can be cut anywhere. */
  lemma {:induction false} Split(c: Config, s: State, steps: seq<Step>, k: nat)
    requires Runnable(c, s, steps) && k <= |steps|
    ensures Runnable(c, s, steps[..k]) && Runnable(c, After(c, s, steps[..k]), steps[k..])
    ensures After(c, s, steps) == After(c, After(c, s, steps[..k]), steps[k..])
    decreases |steps|
  {
    if k == 0 {
      assert steps[..0] == [] && steps[0..] == steps;
    } else {
      Split(c, Apply(c, s, steps[0]), steps[1..], k - 1);
      assert steps[1..][..k - 1] == steps[..k][1..] && steps[1..][k - 1..] == steps[k..];
    }
  }

  lemma ReachableRun(c: Config, s: State, steps: seq<Step>)
    requires Reachable(c, s) && Runnable(c, s, steps)
    ensures Reachable(c, After(c, s, steps))
  {
    var s0, a :| Initial(s0) && Runnable(c, s0, a) && After(c, s0, a) == s;
    Concatenate(c, s0, a, steps);
  }

  /** A reachable state's successors are reachable. */
  lemma ReachableStep(c: Config, s: State, step: Step)
    requires Reachable(c, s) && Enabled(c, s, step)
    ensures Reachable(c, Apply(c, s, step))
  {
    OneStep(c, s, step);
    ReachableRun(c, s, [step]);
  }
}
