/** The queue and the service together (internal/platform/jobs/jobs.go:96-169, internal/reports/service.go:147-212): a
    report whose summary keeps failing is given up after exactly as many handler runs as its job has attempts. */
module Exhaustion {
  import opened Prelude
  import opened JobQueue
  import opened ReportService

  /** Polls job `j`, alone or with all other rows held elsewhere, at each instant it becomes due, until it is completed.
      Each run of its handler is a Generate whose summary fails and whose store calls succeed, and the queue goes by
      what Generate returns. */
  method ExhaustBudget(queue: Queue, service: Service, j: JobId, id: ReportId, n: nat) returns (runs: nat)
    requires service.store.Valid() && n > 0
    requires j in queue.rows && queue.rows[j] == Job(GenerateReport, Some(id), queue.rows[j].runAt, 0, n, None, None)
    requires id in service.store.reports && service.store.reports[id].status.Pending?
    requires service.store.reports[id].kind == "todo-summary"
    modifies queue, service.store
    ensures runs == n
    ensures queue.rows.Keys == old(queue.rows.Keys) && j in queue.rows
    ensures queue.rows[j].attempts == n && queue.rows[j].completedAt.Some?
    ensures forall k :: k in queue.rows && k != j ==> queue.rows[k] == old(queue.rows)[k]
    ensures id in service.store.reports && service.store.reports[id].status.Failed?
    ensures service.store.reports[id].failureCode == "RETRY_EXHAUSTED"
  {
    var fails := (payload: Option<ReportId>, attempt: nat, maxAttempts: nat) => attempt >= maxAttempts;
    runs := 0;
    while queue.rows[j].completedAt.None?
      invariant service.store.Valid() && queue.rows.Keys == old(queue.rows.Keys) && runs <= n
      invariant forall k :: k in queue.rows && k != j ==> queue.rows[k] == old(queue.rows)[k]
      invariant queue.rows[j].kind.GenerateReport? && queue.rows[j].payload == Some(id)
      invariant queue.rows[j].attempts == runs && queue.rows[j].maxAttempts == n && queue.rows[j].lockedUntil.None?
      invariant queue.rows[j].completedAt.Some? <==> runs == n
      invariant id in service.store.reports && service.store.reports[id].kind == "todo-summary"
      invariant runs < n ==> service.store.reports[id].status.Pending?
      invariant runs == n ==> service.store.reports[id].status.Failed?
      invariant runs == n ==> service.store.reports[id].failureCode == "RETRY_EXHAUSTED"
      decreases n - runs
    {
      var now := queue.rows[j].runAt;
      assert Due(queue.rows[j], now);
      var done := queue.ProcessOne(now, queue.rows.Keys - {j}, fails, PollFates(true, true), now);
      var info := AttemptInfo(done.attempt, done.maxAttempts);
      var result := service.Generate(id, Some(info), Quiet(None), now, now);
      assert result.Nil? <==> fails(Some(id), info.attempt, info.maxAttempts);
      runs := runs + 1;
    }
  }
}
