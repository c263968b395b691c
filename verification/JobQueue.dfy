/** The Postgres job queue (internal/platform/jobs/jobs.go): job rows, the selection rule, and the updates that
    take a job and record its outcome. */
module JobQueue {
  import opened Prelude

  const LOCK_WINDOW: Time := 5 * MINUTE
  const HANDLER_TIMEOUT: Time := 2 * MINUTE
  const DEFAULT_MAX_ATTEMPTS: nat := 5

  /** The job types the application registers handlers for, and every other text. */
  datatype JobKind = GenerateReport | AuditTodo | Unregistered(name: string)

  /** A row of platform.jobs. The payload is the report id it decodes to, if it decodes. */
  datatype Job = Job(
    kind: JobKind,
    payload: Option<ReportId>,
    runAt: Time,
    attempts: nat,
    maxAttempts: nat,
    lockedUntil: Option<Time>,
    completedAt: Option<Time>)

  type Jobs = map<JobId, Job>

  function NewJob(kind: JobKind, payload: Option<ReportId>, runAt: Time, maxAttempts: nat): Job {
    Job(kind, payload, runAt, 0, maxAttempts, None, None)
  }

  /** The WHERE clause of the selection. */
  predicate Due(job: Job, now: Time) {
    && job.completedAt.None?
    && (job.lockedUntil.None? || job.lockedUntil.value < now)
    && job.runAt <= now
    && job.attempts < job.maxAttempts
  }

  /** `id` is what ORDER BY run_at FOR UPDATE SKIP LOCKED LIMIT 1 may return while the rows in `skipped` are
      held by other transactions: a due row, none of the other due rows being earlier. */
  ghost predicate IsNext(jobs: Jobs, now: Time, skipped: set<JobId>, id: JobId) {
    && id in jobs && id !in skipped && Due(jobs[id], now)
    && forall k :: k in jobs && k !in skipped && Due(jobs[k], now) ==> jobs[id].runAt <= jobs[k].runAt
  }

  function Taken(job: Job, now: Time): Job {
    job.(lockedUntil := Some(now + LOCK_WINDOW), attempts := job.attempts + 1)
  }

  /** Success, or no handler for the type. */
  function Closed(job: Job, now: Time): Job {
    job.(completedAt := Some(now), lockedUntil := None)
  }

  /** Failure: linear backoff, and `completed_at` recomputed from the attempt counter. */
  function Backed(job: Job, now: Time): Job {
    job.(lockedUntil := None, runAt := now + MINUTE * job.attempts,
         completedAt := if job.attempts >= job.maxAttempts then Some(now) else None)
  }

  /** When a job is due again. Selected: only once its lock has lapsed, with an attempt left. Failed: from a minute
      per attempt after the failure on, with an attempt left. Closed: never. New: from its run time on. Times are in
      nanoseconds. */
  lemma DueAgain(job: Job, now: Time, later: Time)
    requires job.attempts <= job.maxAttempts
    ensures Due(job, now) ==>
              (Due(Taken(job, now), later) <==>
               later > now + 300_000_000_000 && job.attempts + 1 < job.maxAttempts)
    ensures Due(Backed(job, now), later) <==>
              later >= now + 60_000_000_000 * job.attempts && job.attempts < job.maxAttempts
    ensures !Due(Closed(job, now), later)
    ensures Backed(job, now).completedAt == if job.attempts == job.maxAttempts then Some(now) else None
    ensures Closed(job, now).completedAt == Some(now)
    ensures Due(NewJob(job.kind, job.payload, now, job.maxAttempts), later) <==> later >= now && job.maxAttempts > 0
  {
  }

  /** Whether the selecting transaction commits, and whether the outcome update gets through. */
  datatype PollFates = PollFates(commits: bool, records: bool)

  datatype Processed = NoJob | RolledBack | Ran(id: JobId, attempt: nat, maxAttempts: nat)

  class Queue {
    const maxAttempts: nat
    var rows: Jobs

    constructor (configured: int)
      ensures rows == map[]
      ensures maxAttempts == if configured > 0 then configured else 5
    {
      maxAttempts := if configured <= 0 then DEFAULT_MAX_ATTEMPTS else configured;
      rows := map[];
    }

    /** An absent run time means now. A payload that does not marshal, or an insert that fails, adds nothing. */
    method Enqueue(id: JobId, kind: JobKind, payload: Option<ReportId>, runAt: Option<Time>, now: Time,
                   marshals: bool, inserts: bool) returns (ok: bool)
      requires id !in rows
      modifies this
      ensures ok == (marshals && inserts)
      ensures !ok ==> rows == old(rows)
      ensures ok ==>
        rows == old(rows)[id :=
          Job(kind, payload, if runAt.None? then now else runAt.value, 0, maxAttempts, None, None)]
    {
      if !marshals {
        return false;
      }
      var at := if runAt.None? then now else runAt.value;
      if inserts {
        rows := rows[id := NewJob(kind, payload, at, maxAttempts)];
      }
      ok := inserts;
    }

    /** The SELECT: scans for the earliest due row that no other transaction holds. */
    method SelectDue(now: Time, held: set<JobId>) returns (out: Option<JobId>)
      ensures out.Some? ==> IsNext(rows, now, held, out.value)
      ensures out.None? ==> forall k :: k in rows && k !in held ==> !Due(rows[k], now)
    {
      out := None;
      var rest := rows.Keys;
      while rest != {}
        invariant rest <= rows.Keys
        invariant out.Some? ==> out.value in rows && out.value !in held && Due(rows[out.value], now)
        invariant forall k :: k in rows && k !in rest && k !in held && Due(rows[k], now) ==>
            out.Some? && rows[out.value].runAt <= rows[k].runAt
      {
        var k :| k in rest;
        rest := rest - {k};
        if k !in held && Due(rows[k], now) && (out.None? || rows[k].runAt < rows[out.value].runAt) {
          out := Some(k);
        }
      }
    }

    /** One poll without interference: take a job, run its handler, record the outcome. The handler decides from the
        payload and the AttemptInfo it is given; `f` says which statements get through, `end` is the clock when the
        handler has returned. */
    method ProcessOne(now: Time, held: set<JobId>, handler: (Option<ReportId>, nat, nat) -> bool,
                      f: PollFates, end: Time)
      returns (done: Processed)
      requires now <= end
      modifies this
      ensures done.NoJob? ==> rows == old(rows) && forall k :: k in rows && k !in held ==> !Due(rows[k], now)
      ensures done.RolledBack? ==> rows == old(rows) && !f.commits
      ensures done.Ran? ==>
        && f.commits && IsNext(old(rows), now, held, done.id)
        && done.attempt == old(rows)[done.id].attempts + 1 <= done.maxAttempts == old(rows)[done.id].maxAttempts
        && var taken := old(rows)[done.id].(lockedUntil := Some(now + 5 * MINUTE), attempts := done.attempt);
           rows == old(rows)[done.id :=
             if !f.records then taken
             else if taken.kind.Unregistered? || handler(taken.payload, done.attempt, done.maxAttempts)
             then taken.(lockedUntil := None, completedAt := Some(end))
             else taken.(lockedUntil := None, runAt := end + MINUTE * done.attempt,
                         completedAt := if done.attempt < done.maxAttempts then None else Some(end))]
      // No row but the selected one changes, and with its outcome recorded that one is not due again at once.
      ensures done.Ran? ==> done.id in rows && (f.records ==> !Due(rows[done.id], end))
    {
      var picked := SelectDue(now, held);
      if picked.None? {
        return NoJob;
      }
      var id := picked.value;
      var attempts, maximum := rows[id].attempts, rows[id].maxAttempts;
      var updated := rows[id].(lockedUntil := Some(now + 5 * MINUTE), attempts := attempts + 1);
      if !f.commits {
        return RolledBack;
      }
      rows := rows[id := updated];
      done := Ran(id, attempts + 1, maximum);
      var row := rows[id];
      if row.kind.Unregistered? {
        row := row.(lockedUntil := None, completedAt := Some(end));
      } else {
        var succeeds := handler(row.payload, attempts + 1, maximum);
        if !succeeds {
          var completed := if row.attempts >= row.maxAttempts then Some(end) else None;
          row := row.(lockedUntil := None, runAt := end + MINUTE * row.attempts, completedAt := completed);
        } else {
          row := row.(completedAt := Some(end), lockedUntil := None);
        }
      }
      if f.records {
        rows := rows[id := row];
      }
    }
  }
}
