/** The report lifecycle over whole runs (internal/reports/service.go:147-212): exactly-once effect under
    at-least-once delivery, spacing of claims, the meaning of a failed report, and the moment a completed report
    describes. */
module Lifecycle {
  import opened Prelude
  import opened ReportDomain
  import opened TodoTable
  import opened ResultText
  import opened Protocol
  import opened Invariants
  import opened LeaseExclusion

  // Reachable records.

  /** Every reachable record has the shape its status prescribes, with creation <= first claim <= completion. */
  lemma RecordsAreWellFormed(c: Config, s: State, id: ReportId)
    requires ValidConfig(c) && Reachable(c, s) && id in s.reports
    ensures s.reports[id].id == id && RecordOk(s, s.reports[id])
  {
    ReachableInv(c, s);
  }

  /** A failed report is of a supported type, failed for want of attempts, and some job naming it has none left. */
  lemma FailedMeansExhausted(c: Config, s: State, id: ReportId)
    requires ValidConfig(c) && Reachable(c, s) && id in s.reports && s.reports[id].status.Failed?
    ensures SupportedType(s.reports[id].kind) && s.reports[id].failureCode == FAILURE_RETRY_EXHAUSTED
    ensures exists j :: j in s.jobs && s.jobs[j].kind.GenerateReport? && s.jobs[j].payload == Some(id)
              && s.jobs[j].attempts == s.jobs[j].maxAttempts == c.maxAttempts
  {
    ReachableInv(c, s);
    var j :| j in s.jobs && s.jobs[j].kind.GenerateReport? && s.jobs[j].payload == Some(id)
      && s.jobs[j].attempts == s.jobs[j].maxAttempts;
    assert JobOk(c, s, s.jobs[j]);
  }

  /** No reachable state lets a worker fail a report as UNSUPPORTED_TYPE. */
  lemma UnsupportedTypeUnreachable(c: Config, s: State, e: ExecId, at: Time, call: Call)
    requires ValidConfig(c) && Reachable(c, s)
    ensures !Enabled(c, s, RejectType(e, at, call))
  {
    ReachableInv(c, s);
    NeverRejected(c, s, e, at, call);
  }

  // Exactly-once effect.

  ghost predicate Settled(s: State, id: ReportId) {
    id in s.reports && Terminal(s.reports[id])
  }

  /** How many steps of the run take the report into completed or failed. */
  ghost function Settlements(c: Config, s: State, steps: seq<Step>, id: ReportId): nat
    requires Runnable(c, s, steps)
    decreases |steps|
  {
    if steps == [] then 0 else
      var t := Apply(c, s, steps[0]);
      (if !Settled(s, id) && Settled(t, id) then 1 else 0) + Settlements(c, t, steps[1..], id)
  }

  /** Whatever is delivered twice, late or by a stale worker, a report settles at most once, and from then on its
      whole record is frozen. */
  lemma {:induction false} SettlesOnce(c: Config, s: State, steps: seq<Step>, id: ReportId)
    requires Runnable(c, s, steps)
    ensures Settlements(c, s, steps, id) <= 1
    ensures Settled(s, id) ==>
              && Settlements(c, s, steps, id) == 0
              && id in After(c, s, steps).reports && After(c, s, steps).reports[id] == s.reports[id]
    ensures Settled(After(c, s, steps), id) <==> Settled(s, id) || Settlements(c, s, steps, id) == 1
    decreases |steps|
  {
    if steps != [] {
      StepGrows(c, s, steps[0]);
      SettlesOnce(c, Apply(c, s, steps[0]), steps[1..], id);
    }
  }

  // Creation.

  lemma {:induction false} NotCreatedAgain(c: Config, s: State, steps: seq<Step>, id: ReportId, k: nat)
    requires Runnable(c, s, steps) && id in s.reports && k < |steps|
    ensures !(steps[k].CreateReport? && steps[k].id == id)
    decreases |steps|
  {
    if k > 0 {
      StepGrows(c, s, steps[0]);
      NotCreatedAgain(c, Apply(c, s, steps[0]), steps[1..], id, k - 1);
    }
  }

  /** Every report was created by exactly one step, and carries that step's owner, type and time. */
  lemma {:induction false} CreatedOnce(c: Config, s: State, steps: seq<Step>, id: ReportId) returns (i: nat)
    requires Runnable(c, s, steps) && id !in s.reports && id in After(c, s, steps).reports
    ensures var r := After(c, s, steps).reports[id];
            i < |steps| && steps[i] == CreateReport(id, r.owner, r.kind, r.createdAt)
    ensures forall k :: 0 <= k < |steps| && steps[k].CreateReport? && steps[k].id == id ==> k == i
    decreases |steps|
  {
    var t := Apply(c, s, steps[0]);
    if steps[0].CreateReport? && steps[0].id == id {
      i := 0;
      RunGrows(c, t, steps[1..]);
      assert t.reports[id] == Report(id, steps[0].owner, steps[0].kind, Pending, steps[0].at, steps[0].at, None, None,
                                     None, "", "", "");
      assert SameReport(t.reports[id], After(c, t, steps[1..]).reports[id]);
      forall k | 0 < k < |steps|
        ensures !(steps[k].CreateReport? && steps[k].id == id)
      {
        NotCreatedAgain(c, t, steps[1..], id, k - 1);
      }
    } else {
      StillAbsent(c, s, steps[0], id);
      var j := CreatedOnce(c, t, steps[1..], id);
      i := j + 1;
    }
  }

  lemma StillAbsent(c: Config, s: State, step: Step, id: ReportId)
    requires Enabled(c, s, step) && id !in s.reports && !(step.CreateReport? && step.id == id)
    ensures id !in Apply(c, s, step).reports
  {
  }

  // Spacing of claims.

  /** The step is a claim that takes effect on report `id`. */
  ghost predicate ClaimTakesEffect(c: Config, s: State, step: Step, id: ReportId) {
    && Enabled(c, s, step) && step.ClaimReport? && !step.call.Refused?
    && s.execs[step.e].payload == Some(id) && id in s.reports && ClaimEligible(s.reports[id], step.at - c.lease)
  }

  /** The report is processing in every state of the run: no mark in between. */
  ghost predicate StaysProcessing(c: Config, s: State, steps: seq<Step>, id: ReportId)
    requires Runnable(c, s, steps)
    decreases |steps|
  {
    && id in s.reports && s.reports[id].status.Processing?
    && (steps != [] ==> StaysProcessing(c, Apply(c, s, steps[0]), steps[1..], id))
  }

  ghost predicate LeasedSince(s: State, id: ReportId, a: Time) {
    && id in s.reports && s.reports[id].status.Processing?
    && s.reports[id].processingStartedAt.Some? && s.reports[id].processingStartedAt.value >= a
  }

  lemma LeaseStep(c: Config, s: State, step: Step, id: ReportId, a: Time)
    requires c.lease > 0 && HavePayloads(s) && Enabled(c, s, step) && LeasedSince(s, id, a)
    requires id in Apply(c, s, step).reports && Apply(c, s, step).reports[id].status.Processing?
    ensures LeasedSince(Apply(c, s, step), id, a)
  {
    if Apply(c, s, step).reports[id] != s.reports[id] {
      ReportChange(c, s, step, id);
    }
  }

  lemma {:induction false} LeaseOnlyAdvances(c: Config, s: State, steps: seq<Step>, id: ReportId, a: Time)
    requires Inv(c, s) && Runnable(c, s, steps) && StaysProcessing(c, s, steps, id) && LeasedSince(s, id, a)
    ensures LeasedSince(After(c, s, steps), id, a)
    decreases |steps|
  {
    if steps != [] {
      var t := Apply(c, s, steps[0]);
      assert LeasedSince(t, id, a) by {
        ExecsHavePayload(c, s);
        LeaseStep(c, s, steps[0], id, a);
      }
      assert Inv(c, t) by {
        StepKeepsInv(c, s, steps[0]);
      }
      LeaseOnlyAdvances(c, t, steps[1..], id, a);
    }
  }

  lemma ClaimLeases(c: Config, s: State, step: Step, id: ReportId)
    requires ClaimTakesEffect(c, s, step, id)
    ensures LeasedSince(Apply(c, s, step), id, step.at)
  {
  }

  /** Two claims with no mark in between are more than a lease apart, however many claims lie between them. */
  lemma ClaimsAreSpaced(c: Config, s: State, first: Step, steps: seq<Step>, second: Step, id: ReportId)
    requires Inv(c, s) && ClaimTakesEffect(c, s, first, id)
    requires Runnable(c, Apply(c, s, first), steps) && StaysProcessing(c, Apply(c, s, first), steps, id)
    requires ClaimTakesEffect(c, After(c, Apply(c, s, first), steps), second, id)
    ensures second.at > first.at + c.lease
  {
    var t := Apply(c, s, first);
    ClaimLeases(c, s, first, id);
    StepKeepsInv(c, s, first);
    LeaseOnlyAdvances(c, t, steps, id, first.at);
  }

  // The moment a completed report describes.

  /** The state in which step `k` of the run happens. */
  ghost function StateAt(c: Config, s: State, steps: seq<Step>, k: nat): State
    requires Runnable(c, s, steps) && k <= |steps|
    decreases |steps|
  {
    if k == 0 then s else StateAt(c, Apply(c, s, steps[0]), steps[1..], k - 1)
  }

  lemma {:induction false} StateAtPrefix(c: Config, s: State, steps: seq<Step>, n: nat, k: nat)
    requires Runnable(c, s, steps) && k <= n <= |steps|
    ensures Runnable(c, s, steps[..n]) && StateAt(c, s, steps[..n], k) == StateAt(c, s, steps, k)
    ensures StateAt(c, s, steps, n) == After(c, s, steps[..n])
    decreases |steps|
  {
    if n > 0 {
      assert steps[..n][1..] == steps[1..][..n - 1];
      StateAtPrefix(c, Apply(c, s, steps[0]), steps[1..], n - 1, if k > 0 then k - 1 else 0);
    }
  }

  /** At step `i` report `id` is claimed by `e`. */
  ghost predicate ClaimedAt(c: Config, s: State, steps: seq<Step>, e: ExecId, id: ReportId, i: nat)
    requires Runnable(c, s, steps)
  {
    i < |steps| && ClaimTakesEffect(c, StateAt(c, s, steps, i), steps[i], id) && steps[i].e == e
  }

  /** `e` claimed at step `i` and counted the todos at step `k`, getting `sum`. */
  ghost predicate CountedAt(c: Config, s: State, steps: seq<Step>, e: ExecId, id: ReportId, i: nat, k: nat,
                            sum: Summary)
    requires Runnable(c, s, steps)
  {
    && ClaimedAt(c, s, steps, e, id, i) && i < k < |steps|
    && steps[k] == Summarise(e, true) && sum == Count(StateAt(c, s, steps, k).todos)
  }

  /** At step `m` the processing report `id` is completed by `e`. */
  ghost predicate CompletedAt(c: Config, s: State, steps: seq<Step>, e: ExecId, id: ReportId, m: nat)
    requires Runnable(c, s, steps)
  {
    && m < |steps| && steps[m].CompleteReport? && steps[m].e == e && !steps[m].call.Refused?
    && e in StateAt(c, s, steps, m).execs && StateAt(c, s, steps, m).execs[e].payload == Some(id)
    && id in StateAt(c, s, steps, m).reports && StateAt(c, s, steps, m).reports[id].status.Processing?
  }

  /** The result of `id` is the text of the counts taken at step `k`, between the claim at `i` and the completion
      at `m` of one and the same execution. */
  ghost predicate DescribesMoment(c: Config, s: State, steps: seq<Step>, id: ReportId, result: string,
                                  e: ExecId, i: nat, k: nat, m: nat)
    requires Runnable(c, s, steps)
  {
    && k < m < |steps| && CompletedAt(c, s, steps, e, id, m)
    && CountedAt(c, s, steps, e, id, i, k, Count(StateAt(c, s, steps, k).todos))
    && result == FormatResult(Count(StateAt(c, s, steps, k).todos))
  }

  ghost predicate ExecHistory(c: Config, s: State, steps: seq<Step>, x: Exec, e: ExecId)
    requires Runnable(c, s, steps)
  {
    && (PastClaim(x.phase) && x.payload.Some? ==> exists i :: ClaimedAt(c, s, steps, e, x.payload.value, i))
    && (x.phase.Summarised? && x.payload.Some? ==>
        exists i, k :: CountedAt(c, s, steps, e, x.payload.value, i, k, x.phase.summary))
  }

  ghost predicate ReportHistory(c: Config, s: State, steps: seq<Step>, r: Report, id: ReportId)
    requires Runnable(c, s, steps)
  {
    r.status.Completed? ==> exists e, i, k, m :: DescribesMoment(c, s, steps, id, r.result, e, i, k, m)
  }

  lemma ClaimedAtLonger(c: Config, s: State, steps: seq<Step>, n: nat, e: ExecId, id: ReportId, i: nat)
    requires Runnable(c, s, steps) && n <= |steps| && Runnable(c, s, steps[..n])
    requires ClaimedAt(c, s, steps[..n], e, id, i)
    ensures ClaimedAt(c, s, steps, e, id, i)
  {
    StateAtPrefix(c, s, steps, n, i);
  }

  lemma CountedAtLonger(c: Config, s: State, steps: seq<Step>, n: nat, e: ExecId, id: ReportId,
                        i: nat, k: nat, sum: Summary)
    requires Runnable(c, s, steps) && n <= |steps| && Runnable(c, s, steps[..n])
    requires CountedAt(c, s, steps[..n], e, id, i, k, sum)
    ensures CountedAt(c, s, steps, e, id, i, k, sum)
  {
    StateAtPrefix(c, s, steps, n, i);
    StateAtPrefix(c, s, steps, n, k);
  }

  lemma CompletedAtLonger(c: Config, s: State, steps: seq<Step>, n: nat, e: ExecId, id: ReportId, m: nat)
    requires Runnable(c, s, steps) && n <= |steps| && Runnable(c, s, steps[..n])
    requires CompletedAt(c, s, steps[..n], e, id, m)
    ensures CompletedAt(c, s, steps, e, id, m)
  {
    StateAtPrefix(c, s, steps, n, m);
  }

  lemma ExecHistoryLonger(c: Config, s: State, steps: seq<Step>, n: nat, x: Exec, e: ExecId)
    requires Runnable(c, s, steps) && n <= |steps| && Runnable(c, s, steps[..n]) && ExecHistory(c, s, steps[..n], x, e)
    ensures ExecHistory(c, s, steps, x, e)
  {
    if PastClaim(x.phase) && x.payload.Some? {
      var i :| ClaimedAt(c, s, steps[..n], e, x.payload.value, i);
      ClaimedAtLonger(c, s, steps, n, e, x.payload.value, i);
    }
    if x.phase.Summarised? && x.payload.Some? {
      var i, k :| CountedAt(c, s, steps[..n], e, x.payload.value, i, k, x.phase.summary);
      CountedAtLonger(c, s, steps, n, e, x.payload.value, i, k, x.phase.summary);
    }
  }

  lemma ReportHistoryLonger(c: Config, s: State, steps: seq<Step>, n: nat, r: Report, id: ReportId)
    requires Runnable(c, s, steps) && n <= |steps| && Runnable(c, s, steps[..n])
    requires ReportHistory(c, s, steps[..n], r, id)
    ensures ReportHistory(c, s, steps, r, id)
  {
    if r.status.Completed? {
      var e, i, k, m :| DescribesMoment(c, s, steps[..n], id, r.result, e, i, k, m);
      StateAtPrefix(c, s, steps, n, k);
      CompletedAtLonger(c, s, steps, n, e, id, m);
      CountedAtLonger(c, s, steps, n, e, id, i, k, Count(StateAt(c, s, steps, k).todos));
      assert DescribesMoment(c, s, steps, id, r.result, e, i, k, m);
    }
  }

  /** What the last step of a run does to an execution past its claim. */
  lemma PhaseSource(c: Config, s: State, step: Step, e: ExecId)
    requires s.nextExec !in s.execs && Enabled(c, s, step) && e in Apply(c, s, step).execs
    requires PastClaim(Apply(c, s, step).execs[e].phase)
    ensures e in s.execs && s.execs[e].payload == Apply(c, s, step).execs[e].payload
    ensures Apply(c, s, step).execs[e] == s.execs[e]
            || (step.ClaimReport? && step.e == e && Apply(c, s, step).execs[e].phase.Claimed?
                && s.execs[e].payload.Some?
                && ClaimTakesEffect(c, s, step, s.execs[e].payload.value))
            || (step == Summarise(e, true) && PastClaim(s.execs[e].phase)
                && Apply(c, s, step).execs[e].phase.Summarised?
                && Apply(c, s, step).execs[e].phase.summary == Count(s.todos))
            || (step == Summarise(e, false) && PastClaim(s.execs[e].phase)
                && Apply(c, s, step).execs[e].phase.SummaryFailed?)
  {
  }

  /** What the last step of a run does to a report that is completed after it. */
  lemma CompletionSource(c: Config, s: State, step: Step, id: ReportId)
    requires HavePayloads(s) && Enabled(c, s, step) && id in s.reports
    requires Apply(c, s, step).reports[id].status.Completed?
    ensures Apply(c, s, step).reports[id] == s.reports[id]
            || (step.CompleteReport? && step.e in s.execs && s.execs[step.e].payload == Some(id)
                && s.execs[step.e].phase.Summarised? && !step.call.Refused? && s.reports[id].status.Processing?
                && Apply(c, s, step).reports[id].result == FormatResult(s.execs[step.e].phase.summary))
  {
    if Apply(c, s, step).reports[id] != s.reports[id] {
      ReportChange(c, s, step, id);
    }
  }

  lemma NotBornCompleted(c: Config, s: State, step: Step, id: ReportId)
    requires Enabled(c, s, step) && id in Apply(c, s, step).reports && id !in s.reports
    ensures !Apply(c, s, step).reports[id].status.Completed?
  {
  }

  lemma {:induction false} Histories(c: Config, s: State, steps: seq<Step>)
    requires Inv(c, s) && s.execs == map[] && s.reports == map[] && Runnable(c, s, steps)
    ensures forall e :: e in After(c, s, steps).execs ==> ExecHistory(c, s, steps, After(c, s, steps).execs[e], e)
    ensures forall id :: id in After(c, s, steps).reports ==>
              ReportHistory(c, s, steps, After(c, s, steps).reports[id], id)
    decreases |steps|
  {
    if steps != [] {
      var n := |steps| - 1;
      Split(c, s, steps, n);
      StateAtPrefix(c, s, steps, n, n);
      Histories(c, s, steps[..n]);
      RunKeepsInv(c, s, steps[..n]);
      var u := After(c, s, steps[..n]);
      assert steps[n..] == [steps[n]] && [steps[n]][1..] == [];
      var t := Apply(c, u, steps[n]);
      assert After(c, s, steps) == t;
      forall e | e in t.execs
        ensures ExecHistory(c, s, steps, t.execs[e], e)
      {
        LastStepExec(c, s, steps, e);
      }
      forall id | id in t.reports
        ensures ReportHistory(c, s, steps, t.reports[id], id)
      {
        LastStepReport(c, s, steps, id);
      }
    }
  }

  lemma LastStepExec(c: Config, s: State, steps: seq<Step>, e: ExecId)
    requires steps != [] && Runnable(c, s, steps) && Runnable(c, s, steps[..|steps| - 1])
    requires var u := After(c, s, steps[..|steps| - 1]);
             && Inv(c, u) && StateAt(c, s, steps, |steps| - 1) == u && Enabled(c, u, steps[|steps| - 1])
             && e in Apply(c, u, steps[|steps| - 1]).execs
             && (forall f :: f in u.execs ==> ExecHistory(c, s, steps[..|steps| - 1], u.execs[f], f))
    ensures ExecHistory(c, s, steps, Apply(c, After(c, s, steps[..|steps| - 1]), steps[|steps| - 1]).execs[e], e)
  {
    var n := |steps| - 1;
    var u := After(c, s, steps[..n]);
    var x := Apply(c, u, steps[n]).execs[e];
    if PastClaim(x.phase) && x.payload.Some? {
      PhaseSource(c, u, steps[n], e);
      assert ExecHistory(c, s, steps[..n], u.execs[e], e);
      MovedHistory(c, s, steps, u, x, e);
    }
  }

  lemma MovedHistory(c: Config, s: State, steps: seq<Step>, u: State, x: Exec, e: ExecId)
    requires steps != [] && Runnable(c, s, steps) && Runnable(c, s, steps[..|steps| - 1])
    requires StateAt(c, s, steps, |steps| - 1) == u && e in u.execs && u.execs[e].payload == x.payload
    requires PastClaim(x.phase) && x.payload.Some? && ExecHistory(c, s, steps[..|steps| - 1], u.execs[e], e)
    requires var step := steps[|steps| - 1];
             || x == u.execs[e]
             || (step.ClaimReport? && step.e == e && x.phase.Claimed? && ClaimTakesEffect(c, u, step, x.payload.value))
             || (step == Summarise(e, true) && PastClaim(u.execs[e].phase) && x.phase.Summarised?
                 && x.phase.summary == Count(u.todos))
             || (step == Summarise(e, false) && PastClaim(u.execs[e].phase) && x.phase.SummaryFailed?)
    ensures ExecHistory(c, s, steps, x, e)
  {
    var n := |steps| - 1;
    ExecHistoryLonger(c, s, steps, n, u.execs[e], e);
    if x != u.execs[e] && x.phase.Claimed? {
      assert ClaimedAt(c, s, steps, e, x.payload.value, n);
    } else if x != u.execs[e] && x.phase.Summarised? {
      var i :| ClaimedAt(c, s, steps[..n], e, x.payload.value, i);
      ClaimedAtLonger(c, s, steps, n, e, x.payload.value, i);
      assert CountedAt(c, s, steps, e, x.payload.value, i, n, x.phase.summary);
    }
  }

  lemma LastStepReport(c: Config, s: State, steps: seq<Step>, id: ReportId)
    requires steps != [] && Runnable(c, s, steps) && Runnable(c, s, steps[..|steps| - 1])
    requires var u := After(c, s, steps[..|steps| - 1]);
             && Inv(c, u) && StateAt(c, s, steps, |steps| - 1) == u && Enabled(c, u, steps[|steps| - 1])
             && id in Apply(c, u, steps[|steps| - 1]).reports
             && (forall f :: f in u.execs ==> ExecHistory(c, s, steps[..|steps| - 1], u.execs[f], f))
             && (forall i :: i in u.reports ==> ReportHistory(c, s, steps[..|steps| - 1], u.reports[i], i))
    ensures ReportHistory(c, s, steps, Apply(c, After(c, s, steps[..|steps| - 1]), steps[|steps| - 1]).reports[id], id)
  {
    var n := |steps| - 1;
    var u := After(c, s, steps[..n]);
    var r := Apply(c, u, steps[n]).reports[id];
    if r.status.Completed? {
      if id !in u.reports {
        NotBornCompleted(c, u, steps[n], id);
      }
      ExecsHavePayload(c, u);
      CompletionSource(c, u, steps[n], id);
      if r == u.reports[id] {
        ReportHistoryLonger(c, s, steps, n, r, id);
      } else {
        var e := steps[n].e;
        var sum := u.execs[e].phase.summary;
        var i, k :| CountedAt(c, s, steps[..n], e, id, i, k, sum);
        CountedAtLonger(c, s, steps, n, e, id, i, k, sum);
        assert DescribesMoment(c, s, steps, id, r.result, e, i, k, n);
      }
    }
  }

  /** Every completed report tells the truth about one moment: some execution was granted its claim at step `i`,
      found these very counts in the todo table at step `k`, and at step `m` took the report from processing to
      completed with them, for good, whatever else ran in between. The text says each number under its label, and
      total = completed + outstanding. */
  lemma CompletedReportsTellTheTruth(c: Config, s: State, steps: seq<Step>, id: ReportId)
    returns (e: ExecId, i: nat, k: nat, m: nat)
    requires ValidConfig(c) && Initial(s) && Runnable(c, s, steps)
    requires id in After(c, s, steps).reports && After(c, s, steps).reports[id].status.Completed?
    ensures i < k < m < |steps|
    ensures ClaimedAt(c, s, steps, e, id, i) && steps[k] == Summarise(e, true)
    ensures CompletedAt(c, s, steps, e, id, m)
    ensures id in StateAt(c, s, steps, m + 1).reports
    ensures StateAt(c, s, steps, m + 1).reports[id] == After(c, s, steps).reports[id]
    ensures var counts := Count(StateAt(c, s, steps, k).todos);
            var text := After(c, s, steps).reports[id].result;
            && Labelled(text, "Total todos: ") == Some(counts.total)
            && Labelled(text, "Completed: ") == Some(counts.completed)
            && Labelled(text, "Outstanding: ") == Some(counts.outstanding)
            && counts.total == counts.completed + counts.outstanding
  {
    Histories(c, s, steps);
    var r := After(c, s, steps).reports[id];
    e, i, k, m :| DescribesMoment(c, s, steps, id, r.result, e, i, k, m);
    ResultRoundTrip(Count(StateAt(c, s, steps, k).todos));
    WrittenForGood(c, s, steps, e, id, m);
  }

  /** The step after which the report is completed is its last change. */
  lemma WrittenForGood(c: Config, s: State, steps: seq<Step>, e: ExecId, id: ReportId, m: nat)
    requires Runnable(c, s, steps) && CompletedAt(c, s, steps, e, id, m)
    ensures m + 1 <= |steps| && id in StateAt(c, s, steps, m + 1).reports
    ensures id in After(c, s, steps).reports
    ensures StateAt(c, s, steps, m + 1).reports[id] == After(c, s, steps).reports[id]
  {
    Split(c, s, steps, m);
    StateAtPrefix(c, s, steps, m, m);
    StateAtPrefix(c, s, steps, m + 1, m + 1);
    Split(c, s, steps, m + 1);
    StateAtNext(c, s, steps, m);
    assert Settled(StateAt(c, s, steps, m + 1), id);
    SettlesOnce(c, StateAt(c, s, steps, m + 1), steps[m + 1..], id);
  }

  lemma {:induction false} StateAtNext(c: Config, s: State, steps: seq<Step>, m: nat)
    requires Runnable(c, s, steps) && m < |steps|
    ensures Enabled(c, StateAt(c, s, steps, m), steps[m])
    ensures StateAt(c, s, steps, m + 1) == Apply(c, StateAt(c, s, steps, m), steps[m])
    decreases |steps|
  {
    if m > 0 {
      StateAtNext(c, Apply(c, s, steps[0]), steps[1..], m - 1);
    }
  }
}
