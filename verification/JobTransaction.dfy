/** The selecting transaction of processOne (internal/platform/jobs/jobs.go:96-135) as three separate steps,
    SELECT FOR UPDATE SKIP LOCKED, UPDATE, and COMMIT or ROLLBACK, interleaved among any number of workers, and
    its refinement of one atomic "take the earliest due job" step. */
module JobTransaction {
  import opened Prelude
  import opened JobQueue

  /** A transaction that holds a row lock; `at` is its NOW(). Its UPDATE is invisible to others. */
  datatype Open = Open(at: Time, updated: bool)

  /** Committed rows, and the open transaction of each locked row. */
  datatype State = State(now: Time, jobs: Jobs, open: map<JobId, Open>)

  datatype Step =
    | Tick(d: nat)
    | Insert(id: JobId, job: Job)
    | Record(id: JobId, ok: bool)
    | Select(id: JobId)
    | Update(id: JobId)
    | Commit(id: JobId)
    | Rollback(id: JobId)

  /** A single-statement UPDATE (`Record`) waits for the row lock, so it runs only on a row nobody holds. */
  ghost predicate Enabled(s: State, step: Step) {
    match step
    case Tick(_) => true
    case Insert(id, _) => id !in s.jobs
    case Record(id, _) => id in s.jobs && id !in s.open
    case Select(id) => IsNext(s.jobs, s.now, s.open.Keys, id)
    case Update(id) => id in s.open && !s.open[id].updated
    case Commit(id) => id in s.open && s.open[id].updated && id in s.jobs
    case Rollback(id) => id in s.open
  }

  ghost function Apply(s: State, step: Step): State
    requires Enabled(s, step)
  {
    match step
    case Tick(d) => s.(now := s.now + d)
    case Insert(id, job) => s.(jobs := s.jobs[id := job])
    case Record(id, ok) => s.(jobs := s.jobs[id := if ok then Closed(s.jobs[id], s.now) else Backed(s.jobs[id], s.now)])
    case Select(id) => s.(open := s.open[id := Open(s.now, false)])
    case Update(id) => s.(open := s.open[id := s.open[id].(updated := true)])
    case Commit(id) => s.(jobs := s.jobs[id := Taken(s.jobs[id], s.open[id].at)], open := s.open - {id})
    case Rollback(id) => s.(open := s.open - {id})
  }

  ghost predicate Runnable(s: State, steps: seq<Step>)
    decreases |steps|
  {
    steps == [] || (Enabled(s, steps[0]) && Runnable(Apply(s, steps[0]), steps[1..]))
  }

  ghost function After(s: State, steps: seq<Step>): State
    requires Runnable(s, steps)
    decreases |steps|
  {
    if steps == [] then s else After(Apply(s, steps[0]), steps[1..])
  }

  // The specification: no transactions, one indivisible take.

  datatype Table = Table(now: Time, jobs: Jobs)

  datatype Atomic =
    | Pass(d: nat)
    | Add(id: JobId, job: Job)
    | Outcome(id: JobId, ok: bool)
    | Take(id: JobId, skipped: set<JobId>)

  ghost predicate AtomicEnabled(t: Table, a: Atomic) {
    match a
    case Pass(_) => true
    case Add(id, _) => id !in t.jobs
    case Outcome(id, _) => id in t.jobs
    case Take(id, skipped) => IsNext(t.jobs, t.now, skipped, id)
  }

  ghost function AtomicApply(t: Table, a: Atomic): Table
    requires AtomicEnabled(t, a)
  {
    match a
    case Pass(d) => t.(now := t.now + d)
    case Add(id, job) => t.(jobs := t.jobs[id := job])
    case Outcome(id, ok) =>
      t.(jobs := t.jobs[id := if ok then Closed(t.jobs[id], t.now) else Backed(t.jobs[id], t.now)])
    case Take(id, _) => t.(jobs := t.jobs[id := Taken(t.jobs[id], t.now)])
  }

  ghost predicate AtomicRunnable(t: Table, run: seq<Atomic>)
    decreases |run|
  {
    run == [] || (AtomicEnabled(t, run[0]) && AtomicRunnable(AtomicApply(t, run[0]), run[1..]))
  }

  ghost function AtomicAfter(t: Table, run: seq<Atomic>): Table
    requires AtomicRunnable(t, run)
    decreases |run|
  {
    if run == [] then t else AtomicAfter(AtomicApply(t, run[0]), run[1..])
  }

  // The refinement map looks ahead: a transaction that is going to commit counts from its SELECT on.

  /** The transaction holding row `id` goes on to commit. */
  ghost predicate Commits(future: seq<Step>, id: JobId)
    decreases |future|
  {
    future != [] && future[0] != Rollback(id) && (future[0] == Commit(id) || Commits(future[1..], id))
  }

  ghost function SeenRow(s: State, future: seq<Step>, id: JobId): Job
    requires id in s.jobs
  {
    if id in s.open && Commits(future, id) then Taken(s.jobs[id], s.open[id].at) else s.jobs[id]
  }

  ghost function Seen(s: State, future: seq<Step>): Table {
    Table(s.now, map id | id in s.jobs :: SeenRow(s, future, id))
  }

  /** What one concrete step is in the atomic system: one step or none. A take skips exactly the rows that were
      held when its SELECT ran, and a transaction that rolls back leaves no trace. */
  ghost function AtomicOf(s: State, step: Step, rest: seq<Step>): seq<Atomic> {
    match step
    case Tick(d) => [Pass(d)]
    case Insert(id, job) => [Add(id, job)]
    case Record(id, ok) => [Outcome(id, ok)]
    case Select(id) => if Commits(rest, id) then [Take(id, s.open.Keys)] else []
    case _ => []
  }

  ghost function Linearised(s: State, steps: seq<Step>): seq<Atomic>
    requires Runnable(s, steps)
    decreases |steps|
  {
    if steps == [] then [] else
      AtomicOf(s, steps[0], steps[1..]) + Linearised(Apply(s, steps[0]), steps[1..])
  }

  /** Rows are inserted before they are selected, and stay. */
  ghost predicate Valid(s: State) {
    s.open.Keys <= s.jobs.Keys
  }

  /** One concrete step is one atomic step, or none. */
  lemma StepRefines(s: State, step: Step, rest: seq<Step>)
    requires Valid(s) && Enabled(s, step)
    ensures Valid(Apply(s, step))
    ensures AtomicRunnable(Seen(s, [step] + rest), AtomicOf(s, step, rest))
    ensures AtomicAfter(Seen(s, [step] + rest), AtomicOf(s, step, rest)) == Seen(Apply(s, step), rest)
  {
    var future := [step] + rest;
    assert future[1..] == rest;
    assert forall id {:trigger Commits(rest, id)} ::
        step != Commit(id) && step != Rollback(id) ==> Commits(future, id) == Commits(rest, id);
  }

  /** Every interleaving of the three-step transactions has the effect of a run of atomic takes on the same rows
      at the same instants; transactions still open at the end have not happened. */
  lemma {:induction false} TransactionsAreAtomic(s: State, steps: seq<Step>)
    requires Valid(s) && Runnable(s, steps)
    ensures AtomicRunnable(Seen(s, steps), Linearised(s, steps))
    ensures AtomicAfter(Seen(s, steps), Linearised(s, steps)) == Seen(After(s, steps), [])
    ensures Seen(After(s, steps), []).jobs == After(s, steps).jobs
    decreases |steps|
  {
    if steps != [] {
      assert steps == [steps[0]] + steps[1..];
      StepRefines(s, steps[0], steps[1..]);
      TransactionsAreAtomic(Apply(s, steps[0]), steps[1..]);
      var head := Linearised(s, steps);
      var tail := Linearised(Apply(s, steps[0]), steps[1..]);
      assert head == tail || (head != [] && head[1..] == tail);
    }
  }

  /** From a state with no open transaction, the atomic run starts and ends with the very rows of the table. */
  lemma CommittedRowsAreAtomic(s: State, steps: seq<Step>)
    requires s.open == map[] && Runnable(s, steps)
    ensures AtomicRunnable(Table(s.now, s.jobs), Linearised(s, steps))
    ensures AtomicAfter(Table(s.now, s.jobs), Linearised(s, steps)) == Table(After(s, steps).now, After(s, steps).jobs)
  {
    assert Seen(s, steps).jobs == s.jobs;
    TransactionsAreAtomic(s, steps);
  }

  /** While a transaction holds a row, nothing else changes it; rolling back therefore restores what the row was. */
  lemma {:induction false} RollbackLeavesRow(s: State, id: JobId, steps: seq<Step>)
    requires Valid(s) && id in s.open
    requires Runnable(s, steps) && steps != [] && steps[|steps| - 1] == Rollback(id)
    requires forall i :: 0 <= i < |steps| - 1 ==> steps[i] != Commit(id) && steps[i] != Rollback(id)
    ensures id in After(s, steps).jobs && After(s, steps).jobs[id] == s.jobs[id]
    decreases |steps|
  {
    if |steps| > 1 {
      StepRefines(s, steps[0], steps[1..]);
      RollbackLeavesRow(Apply(s, steps[0]), id, steps[1..]);
    } else {
      assert steps[1..] == [];
    }
  }

  /** No transaction commits a row it has selected but not updated. */
  lemma {:induction false} NoCommitWithoutUpdate(s: State, id: JobId, steps: seq<Step>)
    requires Runnable(s, steps) && (id in s.open ==> !s.open[id].updated)
    requires forall i :: 0 <= i < |steps| ==> steps[i] != Update(id)
    ensures forall i :: 0 <= i < |steps| ==> steps[i] != Commit(id)
    decreases |steps|
  {
    if steps != [] {
      NoCommitWithoutUpdate(Apply(s, steps[0]), id, steps[1..]);
      assert forall i :: 0 < i < |steps| ==> steps[i] == steps[1..][i - 1];
    }
  }

  // The queue's methods, in these steps.

  method EnqueueIsInsert(q: Queue, s: State, id: JobId, kind: JobKind, payload: Option<ReportId>, runAt: Time)
    requires q.rows == s.jobs && id !in s.jobs
    modifies q
    ensures q.rows == Apply(s, Insert(id, NewJob(kind, payload, runAt, q.maxAttempts))).jobs
  {
    var ok := q.Enqueue(id, kind, payload, Some(runAt), s.now, true, true);
  }

  /** The steps of one poll that ends as `done`, its statements faring as `f` says. */
  ghost function PollSteps(done: Processed, f: PollFates, d: nat, ok: bool): seq<Step> {
    match done
    case NoJob => []
    case RolledBack => []
    case Ran(id, _, _) => [Select(id), Update(id), Commit(id), Tick(d)] + (if f.records then [Record(id, ok)] else [])
  }

  lemma {:induction false} OneMore(s: State, steps: seq<Step>, step: Step)
    requires Runnable(s, steps) && Enabled(After(s, steps), step)
    ensures Runnable(s, steps + [step]) && After(s, steps + [step]) == Apply(After(s, steps), step)
    decreases |steps|
  {
    if steps == [] {
      assert [] + [step] == [step] && [step][1..] == [];
    } else {
      assert (steps + [step])[1..] == steps[1..] + [step];
      OneMore(Apply(s, steps[0]), steps[1..], step);
    }
  }

  lemma PollRuns(s: State, id: JobId, d: nat)
    requires IsNext(s.jobs, s.now, s.open.Keys, id)
    ensures var steps := [Select(id), Update(id), Commit(id), Tick(d)];
            && Runnable(s, steps)
            && After(s, steps) == State(s.now + d, s.jobs[id := Taken(s.jobs[id], s.now)], s.open)
  {
    var a := s.(open := s.open[id := Open(s.now, false)]);
    var b := s.(open := s.open[id := Open(s.now, true)]);
    OneMore(s, [], Select(id));
    OneMore(s, [Select(id)], Update(id));
    assert [Select(id)] + [Update(id)] == [Select(id), Update(id)] && Apply(a, Update(id)) == b;
    OneMore(s, [Select(id), Update(id)], Commit(id));
    assert [Select(id), Update(id)] + [Commit(id)] == [Select(id), Update(id), Commit(id)];
    assert Apply(b, Commit(id)).open == s.open;
    OneMore(s, [Select(id), Update(id), Commit(id)], Tick(d));
    assert [Select(id), Update(id), Commit(id)] + [Tick(d)] == [Select(id), Update(id), Commit(id), Tick(d)];
  }

  /** A poll of the queue on the committed rows is one transaction that selects, updates and commits, and the
      recording of its outcome: the same rows, whoever else holds which rows meanwhile. */
  method PollIsTransaction(q: Queue, s: State, handler: (Option<ReportId>, nat, nat) -> bool, f: PollFates, end: Time)
    returns (done: Processed, ok: bool)
    requires q.rows == s.jobs && s.now <= end
    modifies q
    ensures Runnable(s, PollSteps(done, f, end - s.now, ok))
    ensures After(s, PollSteps(done, f, end - s.now, ok)).jobs == q.rows
  {
    done := q.ProcessOne(s.now, s.open.Keys, handler, f, end);
    ok := true;
    if done.Ran? {
      var row := s.jobs[done.id];
      ok := row.kind.Unregistered? || handler(row.payload, done.attempt, done.maxAttempts);
      PollRuns(s, done.id, end - s.now);
      var steps := [Select(done.id), Update(done.id), Commit(done.id), Tick(end - s.now)];
      if f.records {
        OneMore(s, steps, Record(done.id, ok));
      } else {
        assert steps + [] == steps;
      }
    }
  }
}
