/** Where enqueues come from (internal/reports/service.go:102-108, 214-230): creation asks for one job, each reconcile
    pass for one more per report that has been pending and unchanged for longer than the threshold. */
module Reconcile {
  import opened Prelude
  import opened JobQueue
  import opened Protocol
  import opened Invariants

  /** The step asks for a job for report `id`. */
  ghost predicate Asks(c: Config, s: State, step: Step, id: ReportId) {
    || (step.CreateReport? && step.id == id)
    || (&& step.ReconcileList? && id in s.reports && s.reports[id].status.Pending?
        && step.at > s.reports[id].updatedAt + c.reconcileAfter)
  }

  /** An enqueue is owed for a report exactly from the step that asks for it to the step that makes or loses it. */
  lemma OwedChange(c: Config, s: State, step: Step, id: ReportId)
    requires Enabled(c, s, step)
    ensures Apply(c, s, step).owed[id] == s.owed[id] + (if Asks(c, s, step, id) then 1 else 0)
              - (if (step.EnqueueGenerate? || step.EnqueueFails?) && step.id == id then 1 else 0)
  {
  }

  /** What is owed is enqueued for at once: the job names the report and is due in the instant it is inserted. */
  lemma EnqueuedIsDue(c: Config, s: State, j: JobId, id: ReportId, runAt: Time)
    requires ValidConfig(c) && Enabled(c, s, EnqueueGenerate(j, id, runAt))
    ensures var t := Apply(c, s, EnqueueGenerate(j, id, runAt));
            && t.jobs[j] == Job(GenerateReport, Some(id), runAt, 0, c.maxAttempts, None, None)
            && Due(t.jobs[j], s.now)
  {
  }

  /** The record stays as it is throughout the run. */
  ghost predicate Unchanged(c: Config, s: State, steps: seq<Step>, id: ReportId)
    requires Runnable(c, s, steps)
    decreases |steps|
  {
    id in s.reports &&
    (steps == [] ||
     (var t := Apply(c, s, steps[0]);
      id in t.reports && t.reports[id] == s.reports[id] && Unchanged(c, t, steps[1..], id)))
  }

  /** A report is not asked for again before the threshold has passed since its last change. */
  lemma {:induction false} FreshReportsAreLeft(c: Config, s: State, steps: seq<Step>, id: ReportId)
    requires Runnable(c, s, steps) && Unchanged(c, s, steps, id)
    requires After(c, s, steps).now <= s.reports[id].updatedAt + c.reconcileAfter
    ensures After(c, s, steps).owed[id] <= s.owed[id]
    decreases |steps|
  {
    if steps != [] {
      var t := Apply(c, s, steps[0]);
      RunGrows(c, t, steps[1..]);
      StepGrows(c, s, steps[0]);
      OwedChange(c, s, steps[0], id);
      FreshReportsAreLeft(c, t, steps[1..], id);
    }
  }

  // Conservation.

  /** The jobs that name report `id`. */
  ghost function JobsFor(jobs: Jobs, id: ReportId): set<JobId> {
    set j | j in jobs && jobs[j].kind.GenerateReport? && jobs[j].payload == Some(id)
  }

  /** How often the run asks for a job for the report, and how often it loses one. */
  ghost function Requests(c: Config, s: State, steps: seq<Step>, id: ReportId): nat
    requires Runnable(c, s, steps)
    decreases |steps|
  {
    if steps == [] then 0 else
      (if Asks(c, s, steps[0], id) then 1 else 0) + Requests(c, Apply(c, s, steps[0]), steps[1..], id)
  }

  function Losses(steps: seq<Step>, id: ReportId): nat {
    if steps == [] then 0 else
      (if steps[0] == EnqueueFails(id) then 1 else 0) + Losses(steps[1..], id)
  }

  lemma NamesChange(c: Config, s: State, step: Step, id: ReportId, j: JobId)
    requires Enabled(c, s, step)
    ensures j in JobsFor(Apply(c, s, step).jobs, id) <==>
              j in JobsFor(s.jobs, id) || (step.EnqueueGenerate? && step.id == id && step.jobId == j)
  {
    if j in s.jobs {
      StepGrows(c, s, step);
      assert SameJob(s.jobs[j], Apply(c, s, step).jobs[j]);
    } else {
      NewJobNames(c, s, step, id, j);
    }
  }

  lemma NewJobNames(c: Config, s: State, step: Step, id: ReportId, j: JobId)
    requires Enabled(c, s, step) && j !in s.jobs
    ensures j in JobsFor(Apply(c, s, step).jobs, id) <==> step.EnqueueGenerate? && step.id == id && step.jobId == j
  {
  }

  lemma JobsForChange(c: Config, s: State, step: Step, id: ReportId)
    requires Enabled(c, s, step)
    ensures |JobsFor(Apply(c, s, step).jobs, id)| ==
            |JobsFor(s.jobs, id)| + (if step.EnqueueGenerate? && step.id == id then 1 else 0)
  {
    var before, after := JobsFor(s.jobs, id), JobsFor(Apply(c, s, step).jobs, id);
    var extra := if step.EnqueueGenerate? && step.id == id then {step.jobId} else {};
    forall j
      ensures j in after <==> j in before + extra
    {
      NamesChange(c, s, step, id, j);
    }
    assert after == before + extra;
  }

  /** Every job for a report was asked for, and every request becomes one job, is still owed, or was lost: over any
      run, jobs and debts grow by the requests less the losses. */
  lemma {:induction false} RequestsAreConserved(c: Config, s: State, steps: seq<Step>, id: ReportId)
    requires Runnable(c, s, steps)
    ensures |JobsFor(After(c, s, steps).jobs, id)| + After(c, s, steps).owed[id] + Losses(steps, id) ==
            |JobsFor(s.jobs, id)| + s.owed[id] + Requests(c, s, steps, id)
    decreases |steps|
  {
    if steps != [] {
      OwedChange(c, s, steps[0], id);
      JobsForChange(c, s, steps[0], id);
      RequestsAreConserved(c, Apply(c, s, steps[0]), steps[1..], id);
    }
  }
}
