/** Mutual exclusion by lease (internal/reports/service.go:166-212): the stores have no fencing token, so that
    only the current claim holder marks a report rests on the lease outlasting the handler deadline. */
module LeaseExclusion {
  import opened Prelude
  import opened ReportDomain
  import opened JobQueue
  import opened Protocol
  import opened Invariants
  import opened Witness

  // The handler's deadline.

  /** A call of the handler can be acknowledged up to two minutes after its start, to the nanosecond. */
  lemma HandlerHasTwoMinutes(c: Config, s: State, e: ExecId, d: nat)
    requires Enabled(c, s, Start(e)) && s.execs[e].kind.GenerateReport? && s.execs[e].payload.Some?
    ensures Enabled(c, Apply(c, Apply(c, s, Start(e)), Tick(d)), ReadReport(e, Acked)) <==> d <= 120_000_000_000
  {
  }

  /** A call by `e` that takes effect, or a summary that succeeds. */
  predicate Effective(step: Step, e: ExecId) {
    match step
    case ReadReport(f, call) => f == e && call.Acked?
    case Summarise(f, ok) => f == e && ok
    case ClaimReport(f, _, call) => f == e && !call.Refused?
    case RejectType(f, _, call) => f == e && !call.Refused?
    case CompleteReport(f, _, call) => f == e && !call.Refused?
    case GiveUp(f, _, call) => f == e && !call.Refused?
    case _ => false
  }

  /** Once started, execution `e` keeps its deadline as long as it works. */
  predicate WorksUntil(s: State, e: ExecId, deadline: Time) {
    && e < s.nextExec
    && (e in s.execs ==>
        !s.execs[e].phase.Locked? && (Working(s.execs[e].phase) ==> s.execs[e].phase.deadline == deadline))
  }

  lemma StepKeepsDeadline(c: Config, s: State, step: Step, e: ExecId, deadline: Time)
    requires WorksUntil(s, e, deadline) && Enabled(c, s, step)
    ensures WorksUntil(Apply(c, s, step), e, deadline)
  {
    var t := Apply(c, s, step);
    if e in t.execs {
      ExecIdentity(c, s, step, e);
    }
  }

  lemma {:induction false} RunKeepsDeadline(c: Config, s: State, steps: seq<Step>, e: ExecId, deadline: Time)
    requires WorksUntil(s, e, deadline) && Runnable(c, s, steps)
    ensures WorksUntil(After(c, s, steps), e, deadline)
    decreases |steps|
  {
    if steps != [] {
      StepKeepsDeadline(c, s, steps[0], e, deadline);
      RunKeepsDeadline(c, Apply(c, s, steps[0]), steps[1..], e, deadline);
    }
  }

  /** And nothing the handler does takes effect any later, whatever runs in between. */
  lemma NoEffectAfterTwoMinutes(c: Config, s: State, e: ExecId, steps: seq<Step>, step: Step)
    requires Enabled(c, s, Start(e)) && e < s.nextExec && Runnable(c, Apply(c, s, Start(e)), steps)
    requires Enabled(c, After(c, Apply(c, s, Start(e)), steps), step) && Effective(step, e)
    ensures After(c, Apply(c, s, Start(e)), steps).now <= s.now + 120_000_000_000
  {
    RunKeepsDeadline(c, Apply(c, s, Start(e)), steps, e, s.now + HANDLER_TIMEOUT);
  }

  // Mutual exclusion.

  /** Execution `e` has claimed its report, has not marked it, and its store calls still take effect. */
  predicate Holds(s: State, e: ExecId) {
    e in s.execs && PastClaim(s.execs[e].phase) && s.now <= s.execs[e].phase.deadline && s.execs[e].payload.Some?
  }

  function ReportOf(s: State, e: ExecId): ReportId
    requires Holds(s, e)
  {
    s.execs[e].payload.value
  }

  /** The report is processing under this very execution's claim. */
  predicate Owns(s: State, e: ExecId)
    requires Holds(s, e)
  {
    && ReportOf(s, e) in s.reports
    && s.reports[ReportOf(s, e)].status.Processing?
    && s.reports[ReportOf(s, e)].processingStartedAt == Some(s.execs[e].phase.claimAt)
  }

  /** Every holder owns its report, and no report has two holders. */
  ghost predicate Exclusive(s: State) {
    && (forall e :: Holds(s, e) ==> Owns(s, e))
    && (forall e, f :: Holds(s, e) && Holds(s, f) && ReportOf(s, e) == ReportOf(s, f) ==> e == f)
  }

  /** The step is a claim of `e` that was granted and acknowledged. */
  predicate Grants(c: Config, s: State, step: Step, e: ExecId) {
    && step.ClaimReport? && step.e == e && step.call.Acked?
    && e in s.execs && s.execs[e].payload.Some?
    && Written(s.reports, ClaimOp(c, s.execs[e], step.at)).Some?
  }

  /** A holder was a holder of the same claim before the step, or has just been granted it. */
  lemma HolderBefore(c: Config, s: State, step: Step, e: ExecId)
    requires Enabled(c, s, step) && Holds(Apply(c, s, step), e)
    ensures e in s.execs && Apply(c, s, step).execs[e] == s.execs[e].(phase := Apply(c, s, step).execs[e].phase)
    ensures Grants(c, s, step, e) ==>
              Apply(c, s, step).execs[e].phase.claimAt == step.at && s.now <= s.execs[e].phase.deadline
    ensures !Grants(c, s, step, e) ==>
              Holds(s, e) && s.execs[e].phase.claimAt == Apply(c, s, step).execs[e].phase.claimAt
  {
  }

  /** Whoever is inside a handler knows its report. */
  ghost predicate HavePayloads(s: State) {
    forall e :: e in s.execs && Working(s.execs[e].phase) ==> s.execs[e].payload.Some?
  }

  /** What a step does to one report: nothing, creation, a claim, or a mark by a holder. */
  lemma ReportChange(c: Config, s: State, step: Step, id: ReportId)
    requires Enabled(c, s, step) && id in s.reports
    requires HavePayloads(s)
    requires Apply(c, s, step).reports[id] != s.reports[id]
    ensures Writes(step) && step.e in s.execs && s.execs[step.e].payload == Some(id)
    ensures step.ClaimReport? ==>
              && ClaimEligible(s.reports[id], step.at - c.lease) && step.at <= s.now <= s.execs[step.e].phase.deadline
              && Apply(c, s, step).reports[id] == ClaimedBy(s.reports[id], step.at)
    ensures !step.ClaimReport? ==> Holds(s, step.e) && ReportOf(s, step.e) == id && !Holds(Apply(c, s, step), step.e)
  {
  }

  lemma ExecsHavePayload(c: Config, s: State)
    requires Inv(c, s)
    ensures HavePayloads(s)
  {
    forall e | e in s.execs && Working(s.execs[e].phase)
      ensures s.execs[e].payload.Some?
    {
      assert PhaseOk(s, s.execs[e]);
    }
  }

  /** While its claim is live, the lease keeps everyone else from claiming the report. */
  lemma LeaseProtects(c: Config, s: State, e: ExecId, at: Time)
    requires c.lease >= HANDLER_TIMEOUT && Holds(s, e) && Owns(s, e) && PhaseOk(s, s.execs[e]) && at <= s.now
    ensures !ClaimEligible(s.reports[ReportOf(s, e)], at - c.lease)
  {
  }

  lemma StepKeepsOwner(c: Config, s: State, step: Step, e: ExecId)
    requires c.lease >= HANDLER_TIMEOUT && ExecsInv(s) && HavePayloads(s) && Exclusive(s) && Enabled(c, s, step)
    requires Holds(Apply(c, s, step), e)
    ensures Owns(Apply(c, s, step), e)
  {
    var t := Apply(c, s, step);
    HolderBefore(c, s, step, e);
    assert ExecOk(s, s.execs[e]) && PhaseOk(s, s.execs[e]);
    var id := ReportOf(t, e);
    if Grants(c, s, step, e) {
      assert id in t.reports && t.reports[id] == ClaimedBy(s.reports[id], step.at);
    } else {
      assert Owns(s, e) && id in s.reports;
      StepGrows(c, s, step);
      if t.reports[id] != s.reports[id] {
        ReportChange(c, s, step, id);
        LeaseProtects(c, s, e, s.now);
        assert false;
      }
    }
  }

  lemma StepKeepsSingle(c: Config, s: State, step: Step, e: ExecId, f: ExecId)
    requires c.lease >= HANDLER_TIMEOUT && ExecsInv(s) && Exclusive(s) && Enabled(c, s, step)
    requires Holds(Apply(c, s, step), e) && Holds(Apply(c, s, step), f)
    requires ReportOf(Apply(c, s, step), e) == ReportOf(Apply(c, s, step), f)
    ensures e == f
  {
    HolderBefore(c, s, step, e);
    HolderBefore(c, s, step, f);
    if e != f && Grants(c, s, step, e) {
      assert PhaseOk(s, s.execs[f]);
      LeaseProtects(c, s, f, step.at);
    } else if e != f && Grants(c, s, step, f) {
      assert PhaseOk(s, s.execs[e]);
      LeaseProtects(c, s, e, step.at);
    }
  }

  lemma StepKeepsExclusive(c: Config, s: State, step: Step)
    requires c.lease >= HANDLER_TIMEOUT && Inv(c, s) && Exclusive(s) && Enabled(c, s, step)
    ensures Exclusive(Apply(c, s, step))
  {
    var t := Apply(c, s, step);
    ExecsHavePayload(c, s);
    forall e | Holds(t, e)
      ensures Owns(t, e)
    {
      StepKeepsOwner(c, s, step, e);
    }
    forall e, f | Holds(t, e) && Holds(t, f) && ReportOf(t, e) == ReportOf(t, f)
      ensures e == f
    {
      StepKeepsSingle(c, s, step, e, f);
    }
  }

  lemma {:induction false} RunKeepsExclusive(c: Config, s: State, steps: seq<Step>)
    requires c.lease >= HANDLER_TIMEOUT && Inv(c, s) && Exclusive(s) && Runnable(c, s, steps)
    ensures Exclusive(After(c, s, steps))
    decreases |steps|
  {
    if steps != [] {
      StepKeepsInv(c, s, steps[0]);
      StepKeepsExclusive(c, s, steps[0]);
      RunKeepsExclusive(c, Apply(c, s, steps[0]), steps[1..]);
    }
  }

  lemma ReachableExclusive(c: Config, s: State)
    requires ValidConfig(c) && c.lease >= 2 * MINUTE && Reachable(c, s)
    ensures Exclusive(s)
  {
    var s0, steps :| Initial(s0) && Runnable(c, s0, steps) && After(c, s0, steps) == s;
    RunKeepsExclusive(c, s0, steps);
  }

  /** The step takes the report out of processing. */
  ghost predicate Marks(c: Config, s: State, step: Step, id: ReportId) {
    && Enabled(c, s, step) && id in s.reports && s.reports[id].status.Processing?
    && id in Apply(c, s, step).reports && !Apply(c, s, step).reports[id].status.Processing?
  }

  /** The step is taken by the execution whose claim the report carries, and no other execution can mark it. */
  ghost predicate ByHolder(s: State, step: Step, id: ReportId) {
    && Writes(step) && step.e in s.execs && PastClaim(s.execs[step.e].phase)
    && id in s.reports && s.reports[id].processingStartedAt == Some(s.execs[step.e].phase.claimAt)
    && forall e :: Holds(s, e) && ReportOf(s, e) == id ==> e == step.e
  }

  /** No mark is written by a superseded worker: whoever takes a report out of processing is the execution whose
      claim the report carries. */
  lemma NoSupersededMark(c: Config, s: State, step: Step, id: ReportId)
    requires ValidConfig(c) && c.lease >= 2 * MINUTE && Reachable(c, s) && Marks(c, s, step, id)
    ensures ByHolder(s, step, id)
  {
    ReachableInv(c, s);
    ReachableExclusive(c, s);
    ExecsHavePayload(c, s);
    ReportChange(c, s, step, id);
    assert Owns(s, step.e);
  }

  /** With a shorter lease a second worker takes over a report from a worker that is still able to mark it. */
  lemma ShortLeaseIsUnsafe(c: Config) returns (s: State)
    requires ValidConfig(c) && c.lease < 2 * MINUTE
    ensures Reachable(c, s) && !Exclusive(s) && Holds(s, 0) && !Owns(s, 0) && s.execs[0].phase.Claimed?
    ensures ForReport(s.execs[0], ID) && SupportedType(s.execs[0].phase.kind) && s.execs[0].phase.since <= s.now
    ensures ID in s.reports && s.reports[ID].status.Processing?
  {
    TwoWorkersReachable(c);
    var a := TwoWorkers(c);
    ClaimsAtOnce(c, a, 0);
    var first := Claimed(a.now + HANDLER_TIMEOUT, TYPE_TODO_SUMMARY, a.now, a.now);
    var b := a.(reports := a.reports[ID := ClaimedBy(Fresh(), a.now)],
                execs := a.execs[0 := a.execs[0].(phase := first)]);
    var later := b.(now := b.now + c.lease + 1);
    assert Apply(c, b, Tick(c.lease + 1)) == later;
    ReachableStep(c, b, Tick(c.lease + 1));
    ClaimsAtOnce(c, later, 1);
    s := later.(reports := later.reports[ID := ClaimedBy(later.reports[ID], later.now)],
                execs := later.execs[1 := later.execs[1].(phase :=
                  Claimed(later.now + HANDLER_TIMEOUT, TYPE_TODO_SUMMARY, later.now, later.now))]);
    assert Holds(s, 0) && !Owns(s, 0);
  }

  /** Exactly the configurations whose lease is at least the two minute handler timeout keep reports to one holder. */
  lemma ExclusiveIffLeaseCoversHandler(c: Config)
    requires ValidConfig(c)
    ensures (forall s :: Reachable(c, s) ==> Exclusive(s)) <==> c.lease >= 2 * MINUTE
  {
    if c.lease >= 2 * MINUTE {
      forall s | Reachable(c, s)
        ensures Exclusive(s)
      {
        ReachableExclusive(c, s);
      }
    } else {
      var s := ShortLeaseIsUnsafe(c);
    }
  }

  /** With a shorter lease the superseded worker goes on to complete the report under the other's claim. */
  lemma SupersededMarks(c: Config) returns (s: State, step: Step)
    requires ValidConfig(c) && c.lease < 2 * MINUTE
    ensures Reachable(c, s) && Marks(c, s, step, ID) && !ByHolder(s, step, ID)
  {
    var a := ShortLeaseIsUnsafe(c);
    s := Apply(c, a, Summarise(0, true));
    ReachableStep(c, a, Summarise(0, true));
    step := CompleteReport(0, s.now, Acked);
  }

  /** Every mark is written by the holder of the report's claim if and only if the lease is at least the two
      minute handler timeout. */
  lemma MarksByHolderIff(c: Config)
    requires ValidConfig(c)
    ensures (forall s, step, id :: Reachable(c, s) && Marks(c, s, step, id) ==> ByHolder(s, step, id))
       <==> c.lease >= 2 * MINUTE
  {
    if c.lease >= 2 * MINUTE {
      forall s, step, id | Reachable(c, s) && Marks(c, s, step, id)
        ensures ByHolder(s, step, id)
      {
        NoSupersededMark(c, s, step, id);
      }
    } else {
      var s, step := SupersededMarks(c);
    }
  }
}
