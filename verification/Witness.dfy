/** Concrete runs shared by the lemmas that show where a property stops holding. */
module Witness {
  import opened Prelude
  import opened ReportDomain
  import opened TodoTable
  import opened JobQueue
  import opened ResultText
  import opened Protocol

  const ID: ReportId := 0

  /** A state the witness runs pass through. */
  function At(now: Time, jobs: Jobs, report: Report, execs: map<ExecId, Exec>, next: ExecId): State {
    State(now, jobs, map[ID := report], map[], execs, next, multiset{})
  }

  function Fresh(): Report {
    NewReport(ID, "", TYPE_TODO_SUMMARY, 0)
  }

  function GenerateJob(c: Config, runAt: Time): Job {
    NewJob(GenerateReport, Some(ID), runAt, c.maxAttempts)
  }

  function FirstAttempt(c: Config, j: JobId, lockedAt: Time, phase: Phase): Exec {
    Exec(j, GenerateReport, Some(ID), 1, c.maxAttempts, lockedAt, phase)
  }

  /** One report, created and enqueued. */
  function Created(c: Config): State {
    At(0, map[0 := GenerateJob(c, 0)], Fresh(), map[], 0)
  }

  lemma CreatedReachable(c: Config)
    requires ValidConfig(c)
    ensures Reachable(c, Created(c))
  {
    var s0 := State(0, map[], map[], map[], map[], 0, multiset{});
    assert Initial(s0) && Runnable(c, s0, []) && After(c, s0, []) == s0;
    var s1 := State(0, map[], map[ID := Fresh()], map[], map[], 0, multiset{ID});
    assert Apply(c, s0, CreateReport(ID, "", TYPE_TODO_SUMMARY, 0)) == s1;
    ReachableStep(c, s0, CreateReport(ID, "", TYPE_TODO_SUMMARY, 0));
    assert multiset{ID} - multiset{ID} == multiset{};
    assert Apply(c, s1, EnqueueGenerate(0, ID, 0)) == Created(c);
    ReachableStep(c, s1, EnqueueGenerate(0, ID, 0));
  }

  /** The report's job locked by one worker at time 0. */
  function OneWorker(c: Config): State {
    At(0, map[0 := Taken(GenerateJob(c, 0), 0)], Fresh(), map[0 := FirstAttempt(c, 0, 0, Locked)], 1)
  }

  lemma OneWorkerReachable(c: Config)
    requires ValidConfig(c)
    ensures Reachable(c, OneWorker(c))
  {
    CreatedReachable(c);
    assert Apply(c, Created(c), Lock(0, {})) == OneWorker(c);
    ReachableStep(c, Created(c), Lock(0, {}));
  }

  /** That worker has outlived its lock, and a second has taken the job. */
  function SecondAttempt(c: Config): State {
    var n := LOCK_WINDOW + 1;
    At(n, map[0 := Taken(Taken(GenerateJob(c, 0), 0), n)], Fresh(),
       map[0 := FirstAttempt(c, 0, 0, Locked), 1 := FirstAttempt(c, 0, n, Locked).(attempt := 2)], 2)
  }

  lemma SecondAttemptReachable(c: Config)
    requires ValidConfig(c) && c.maxAttempts >= 2
    ensures Reachable(c, SecondAttempt(c))
  {
    OneWorkerReachable(c);
    var late := OneWorker(c).(now := LOCK_WINDOW + 1);
    assert Apply(c, OneWorker(c), Tick(LOCK_WINDOW + 1)) == late;
    ReachableStep(c, OneWorker(c), Tick(LOCK_WINDOW + 1));
    assert Apply(c, late, Lock(0, {})) == SecondAttempt(c);
    ReachableStep(c, late, Lock(0, {}));
  }

  /** The instant at which reconciliation first lists the report. */
  function Stale(c: Config): Time {
    c.reconcileAfter + 1
  }

  /** The same report enqueued twice, by creation and by reconciliation. */
  function Twice(c: Config): State {
    At(Stale(c), map[0 := GenerateJob(c, 0), 1 := GenerateJob(c, Stale(c))], Fresh(), map[], 0)
  }

  lemma TwiceReachable(c: Config)
    requires ValidConfig(c)
    ensures Reachable(c, Twice(c))
  {
    CreatedReachable(c);
    var n := Stale(c);
    var s1 := Created(c).(now := n);
    assert Apply(c, Created(c), Tick(n)) == s1;
    ReachableStep(c, Created(c), Tick(n));
    assert Listed(c, s1, n) == {ID};
    var s2 := s1.(owed := multiset{ID});
    assert Apply(c, s1, ReconcileList(n)) == s2;
    ReachableStep(c, s1, ReconcileList(n));
    assert multiset{ID} - multiset{ID} == multiset{};
    assert Apply(c, s2, EnqueueGenerate(1, ID, n)) == Twice(c);
    ReachableStep(c, s2, EnqueueGenerate(1, ID, n));
  }

  /** Two workers hold the two jobs of one report. */
  function TwoWorkers(c: Config): State {
    var n := Stale(c);
    At(n, map[0 := Taken(GenerateJob(c, 0), n), 1 := Taken(GenerateJob(c, n), n)], Fresh(),
       map[0 := FirstAttempt(c, 0, n, Locked), 1 := FirstAttempt(c, 1, n, Locked)], 2)
  }

  lemma TwoWorkersReachable(c: Config)
    requires ValidConfig(c)
    ensures Reachable(c, TwoWorkers(c))
  {
    TwiceReachable(c);
    var n := Stale(c);
    var s1 := At(n, map[0 := Taken(GenerateJob(c, 0), n), 1 := GenerateJob(c, n)], Fresh(),
                 map[0 := FirstAttempt(c, 0, n, Locked)], 1);
    assert Apply(c, Twice(c), Lock(0, {})) == s1;
    ReachableStep(c, Twice(c), Lock(0, {}));
    assert Apply(c, s1, Lock(1, {})) == TwoWorkers(c);
    ReachableStep(c, s1, Lock(1, {}));
  }

  /** A locked execution of the report starts and reads at one instant. */
  lemma ReadsAtOnce(c: Config, s: State, e: ExecId)
    requires Reachable(c, s) && e in s.execs && s.execs[e].phase.Locked? && ForReport(s.execs[e], ID)
    requires ID in s.reports && (s.reports[ID].status.Pending? || s.reports[ID].status.Processing?)
    ensures Reachable(c, Moved(s, e, Read(s.now + HANDLER_TIMEOUT, s.reports[ID].kind, s.now)))
  {
    var d := s.now + HANDLER_TIMEOUT;
    var s1 := Moved(s, e, Started(d));
    assert Apply(c, s, Start(e)) == s1;
    ReachableStep(c, s, Start(e));
    assert Moved(s1, e, Read(d, s.reports[ID].kind, s.now)) == Moved(s, e, Read(d, s.reports[ID].kind, s.now));
    assert Apply(c, s1, ReadReport(e, Acked)) == Moved(s, e, Read(d, s.reports[ID].kind, s.now));
    ReachableStep(c, s1, ReadReport(e, Acked));
  }

  function Moved(s: State, e: ExecId, phase: Phase): State
    requires e in s.execs
  {
    s.(execs := s.execs[e := s.execs[e].(phase := phase)])
  }

  /** A locked execution of the report starts, reads and claims at one instant. */
  lemma ClaimsAtOnce(c: Config, s: State, e: ExecId)
    requires Reachable(c, s) && e in s.execs && s.execs[e].phase.Locked? && ForReport(s.execs[e], ID)
    requires ID in s.reports && (s.reports[ID].status.Pending? || s.reports[ID].status.Processing?)
    requires ClaimEligible(s.reports[ID], s.now - c.lease)
    ensures Reachable(c, s.(reports := s.reports[ID := ClaimedBy(s.reports[ID], s.now)],
              execs := s.execs[e := s.execs[e].(phase :=
                Claimed(s.now + HANDLER_TIMEOUT, s.reports[ID].kind, s.now, s.now))]))
  {
    var d := s.now + HANDLER_TIMEOUT;
    ReadsAtOnce(c, s, e);
    var t := Moved(s, e, Read(d, s.reports[ID].kind, s.now));
    var u := s.(reports := s.reports[ID := ClaimedBy(s.reports[ID], s.now)],
                execs := s.execs[e := s.execs[e].(phase := Claimed(d, s.reports[ID].kind, s.now, s.now))]);
    assert u.execs == t.execs[e := t.execs[e].(phase := Claimed(d, s.reports[ID].kind, s.now, s.now))];
    assert Apply(c, t, ClaimReport(e, s.now, Acked)) == u;
    ReachableStep(c, t, ClaimReport(e, s.now, Acked));
  }

  /** An execution holding its claim summarises and completes the report at one instant. */
  lemma CompletesAtOnce(c: Config, s: State, e: ExecId)
    requires Reachable(c, s) && e in s.execs && ForReport(s.execs[e], ID) && s.execs[e].phase.Claimed?
    requires SupportedType(s.execs[e].phase.kind)
    requires s.now <= s.execs[e].phase.deadline && s.execs[e].phase.since <= s.now
    requires ID in s.reports && s.reports[ID].status.Processing?
    ensures Reachable(c, s.(
              reports := s.reports[ID := CompletedWith(s.reports[ID], FormatResult(Count(s.todos)), s.now)],
              execs := s.execs[e := s.execs[e].(phase := Returned(Nil))]))
  {
    var x := s.execs[e];
    var p := Summarised(x.phase.deadline, x.phase.claimAt, Count(s.todos), s.now);
    var s1 := s.(execs := s.execs[e := x.(phase := p)]);
    assert Apply(c, s, Summarise(e, true)) == s1;
    ReachableStep(c, s, Summarise(e, true));
    var s2 := s.(reports := s.reports[ID := CompletedWith(s.reports[ID], FormatResult(Count(s.todos)), s.now)],
                 execs := s.execs[e := x.(phase := Returned(Nil))]);
    assert s2.execs == s1.execs[e := s1.execs[e].(phase := Returned(Nil))];
    assert Apply(c, s1, CompleteReport(e, s.now, Acked)) == s2;
    ReachableStep(c, s1, CompleteReport(e, s.now, Acked));
  }

  /** An execution holding its claim summarises, and its completing call is refused. */
  lemma MarkRefusedAtOnce(c: Config, s: State, e: ExecId)
    requires Reachable(c, s) && e in s.execs && ForReport(s.execs[e], ID) && s.execs[e].phase.Claimed?
    requires SupportedType(s.execs[e].phase.kind) && s.now <= s.execs[e].phase.deadline
    ensures Reachable(c, Moved(s, e, Returned(RetryableError)))
  {
    var x := s.execs[e];
    var t := Moved(s, e, Summarised(x.phase.deadline, x.phase.claimAt, Count(s.todos), s.now));
    assert Apply(c, s, Summarise(e, true)) == t;
    ReachableStep(c, s, Summarise(e, true));
    var u := Moved(s, e, Returned(RetryableError));
    assert u.execs == t.execs[e := t.execs[e].(phase := Returned(RetryableError))];
    assert Apply(c, t, CompleteReport(e, s.now, Refused)) == u;
    ReachableStep(c, t, CompleteReport(e, s.now, Refused));
  }

  /** A locked execution starts, and its first read fails. */
  lemma FailsAtOnce(c: Config, s: State, e: ExecId)
    requires Reachable(c, s) && e in s.execs && s.execs[e].phase.Locked? && ForReport(s.execs[e], ID)
    ensures Reachable(c, s.(execs := s.execs[e := s.execs[e].(phase := Returned(RetryableError))]))
  {
    var x := s.execs[e];
    var s1 := s.(execs := s.execs[e := x.(phase := Started(s.now + HANDLER_TIMEOUT))]);
    assert Apply(c, s, Start(e)) == s1;
    ReachableStep(c, s, Start(e));
    var s2 := s.(execs := s.execs[e := x.(phase := Returned(RetryableError))]);
    assert s2.execs == s1.execs[e := s1.execs[e].(phase := Returned(RetryableError))];
    assert Apply(c, s1, ReadReport(e, Refused)) == s2;
    ReachableStep(c, s1, ReadReport(e, Refused));
  }

  /** A locked execution starts, reads, and is turned away by a fresh lease. */
  lemma TurnedAwayAtOnce(c: Config, s: State, e: ExecId)
    requires Reachable(c, s) && e in s.execs && s.execs[e].phase.Locked? && ForReport(s.execs[e], ID)
    requires ID in s.reports && s.reports[ID].status.Processing? && !ClaimEligible(s.reports[ID], s.now - c.lease)
    ensures Reachable(c, s.(execs := s.execs[e := s.execs[e].(phase := Returned(Nil))]))
  {
    ReadsAtOnce(c, s, e);
    var t := Moved(s, e, Read(s.now + HANDLER_TIMEOUT, s.reports[ID].kind, s.now));
    var u := Moved(s, e, Returned(Nil));
    assert u.execs == t.execs[e := t.execs[e].(phase := Returned(Nil))];
    assert Apply(c, t, ClaimReport(e, s.now, Acked)) == u;
    ReachableStep(c, t, ClaimReport(e, s.now, Acked));
  }
}
