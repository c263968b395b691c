/** The classes do what the protocol's steps do: driven without interference, the queue, the service and the todo store
    leave the very tables that the transition system leaves. */
module Agreement {
  import opened Prelude
  import opened ReportDomain
  import TodoTable
  import opened JobQueue
  import opened Protocol
  import opened ReportService
  import opened Recovery

  method PutTodoIsStep(store: TodoTable.Store, c: Config, s: State, todo: TodoTable.Todo)
    requires store.todos == s.todos
    modifies store
    ensures store.todos == Apply(c, s, PutTodo(todo)).todos
  {
    store.CreateTodo(todo);
  }

  method DeleteTodoIsStep(store: TodoTable.Store, c: Config, s: State, id: TodoId) returns (found: bool)
    requires store.todos == s.todos
    modifies store
    ensures store.todos == Apply(c, s, DeleteTodo(id)).todos
  {
    found := store.DeleteTodo(id);
  }

  /** An enqueue other than of a generation. */
  method EnqueueIsStep(queue: Queue, c: Config, s: State, j: JobId, kind: JobKind, payload: Option<ReportId>,
                       runAt: Time)
    requires queue.rows == s.jobs && queue.maxAttempts == c.maxAttempts
    requires Enabled(c, s, EnqueueOther(j, kind, payload, runAt))
    modifies queue
    ensures queue.rows == Apply(c, s, EnqueueOther(j, kind, payload, runAt)).jobs
  {
    var ok := queue.Enqueue(j, kind, payload, Some(runAt), s.now, true, true);
  }

  /** An accepted creation whose enqueue gets through: the service files the report and asks for the job, the queue
      inserts it, and it is due at once. */
  method CreateIsTwoSteps(service: Service, queue: Queue, c: Config, s: State, owner: string, id: ReportId, j: JobId)
    requires service.store.Valid() && service.store.reports == s.reports && id !in s.reports
    requires service.authDisabled || owner != ""
    requires queue.rows == s.jobs && queue.maxAttempts == c.maxAttempts && j !in s.jobs
    modifies service.store, service.enqueue, queue
    ensures var create, enqueue := CreateReport(id, owner, "todo-summary", s.now), EnqueueGenerate(j, id, s.now);
            && Runnable(c, s, [create, enqueue])
            && var t := After(c, s, [create, enqueue]);
               && service.store.reports == t.reports && queue.rows == t.jobs && t.owed == s.owed
               && j in t.jobs && (c.maxAttempts > 0 ==> Due(t.jobs[j], s.now))
  {
    var create, enqueue := CreateReport(id, owner, "todo-summary", s.now), EnqueueGenerate(j, id, s.now);
    ghost var t := Apply(c, s, create);
    OneStep(c, t, enqueue);
    MoreSteps(c, s, create, [enqueue]);
    assert [create] + [enqueue] == [create, enqueue];
    assert s.owed + multiset{id} - multiset{id} == s.owed;
    var reply := service.CreateReport(owner, "todo-summary", id, s.now, Acked);
    var ok := queue.Enqueue(j, GenerateReport, Some(id), None, s.now, true, true);
  }

  /** A reconcile pass asks for exactly the enqueues that the protocol's pass makes owed. */
  method ReconcileIsStep(service: Service, c: Config, s: State) returns (asked: seq<ReportId>)
    requires service.store.Valid() && service.store.reports == s.reports && service.reconcileAfter == c.reconcileAfter
    modifies service.enqueue
    ensures service.enqueue.attempted == old(service.enqueue.attempted) + asked
    ensures Apply(c, s, ReconcileList(s.now)).owed == s.owed + multiset(asked)
  {
    var ok;
    asked, ok := service.ReconcilePending(s.now, true);
    AskedOnce(asked, Listed(c, s, s.now));
  }

  lemma AskedOnce(asked: seq<ReportId>, ids: set<ReportId>)
    requires forall i, k :: 0 <= i < k < |asked| ==> asked[i] != asked[k]
    requires forall id :: id in asked <==> id in ids
    ensures multiset(asked) == multiset(ids)
  {
    forall id
      ensures multiset(asked)[id] == multiset(ids)[id]
    {
      OccursOnce(asked, id);
    }
  }

  lemma {:induction false} OccursOnce(asked: seq<ReportId>, id: ReportId)
    requires forall i, k :: 0 <= i < k < |asked| ==> asked[i] != asked[k]
    ensures multiset(asked)[id] == if id in asked then 1 else 0
  {
    if asked != [] {
      OccursOnce(asked[1..], id);
      assert asked == [asked[0]] + asked[1..];
    }
  }

  /** The row once its outcome is recorded. */
  function Recorded(row: Job, result: Result, now: Time): Job {
    if result.Nil? then Closed(row, now) else Backed(row, now)
  }

  lemma HandlerEnds(c: Config, s: State, e: ExecId, id: ReportId, f: Fates)
    requires e in s.execs && s.execs[e].phase.Started? && s.execs[e].payload == Some(id)
    requires s.now <= s.execs[e].phase.deadline && s.execs[e].job in s.jobs
    requires f.summary.Some? ==> f.summary.value == TodoTable.Count(s.todos)
    ensures var steps := HandlerSteps(c, s, e, f, 0) + [Record(e)];
            var g := Generated(c.lease, s.reports, id, LastAttempt(s.execs[e]), f, s.now, s.now);
            var j := s.execs[e].job;
            && Runnable(c, s, steps) && After(c, s, steps).reports == g.0
            && After(c, s, steps).jobs == s.jobs[j := Recorded(s.jobs[j], g.1, s.now)]
  {
    HandlerIsGenerate(c, s, e, f, 0);
    RecordEnds(c, s, e, HandlerSteps(c, s, e, f, 0));
  }

  /** The rows and reports that one poll of job `j` leaves. */
  lemma PollEnds(c: Config, s: State, j: JobId, skipped: set<JobId>, id: ReportId, f: Fates)
    requires IsNext(s.jobs, s.now, skipped, j) && Names(s.jobs[j], id)
    requires f.summary.Some? ==> f.summary.value == TodoTable.Count(s.todos)
    ensures var steps := Poll(c, s, j, skipped, f, 0);
            var last := s.jobs[j].attempts + 1 >= s.jobs[j].maxAttempts;
            var g := Generated(c.lease, s.reports, id, last, f, s.now, s.now);
            && Runnable(c, s, steps) && After(c, s, steps).reports == g.0
            && After(c, s, steps).jobs == s.jobs[j := Recorded(Taken(s.jobs[j], s.now), g.1, s.now)]
  {
    var e := s.nextExec;
    var t := Apply(c, s, Lock(j, skipped));
    var u := Apply(c, t, Start(e));
    var steps := HandlerSteps(c, u, e, f, 0) + [Record(e)];
    HandlerEnds(c, u, e, id, f);
    MoreSteps(c, t, Start(e), steps);
    MoreSteps(c, s, Lock(j, skipped), [Start(e)] + steps);
  }

  lemma RecordEnds(c: Config, s: State, e: ExecId, steps: seq<Step>)
    requires Runnable(c, s, steps) && e in After(c, s, steps).execs && After(c, s, steps).execs[e].phase.Returned?
    requires After(c, s, steps).execs[e].job in After(c, s, steps).jobs
    ensures Runnable(c, s, steps + [Record(e)])
    ensures var t := After(c, s, steps);
            After(c, s, steps + [Record(e)]) == Apply(c, t, Record(e))
  {
    OneStep(c, After(c, s, steps), Record(e));
    Concatenate(c, s, steps, [Record(e)]);
  }

  /** One poll of the queue whose handler returns what Generate returns on these reports. */
  method PollFor(queue: Queue, now: Time, held: set<JobId>, reports: ReportTable, lease: Time, f: Fates)
    returns (done: Processed)
    modifies queue
    ensures !done.RolledBack?
    ensures done.NoJob? ==> forall j :: !IsNext(old(queue.rows), now, held, j)
    ensures done.Ran? ==>
              && IsNext(old(queue.rows), now, held, done.id)
              && var row := old(queue.rows)[done.id];
                 && done.attempt == row.attempts + 1 && done.maxAttempts == row.maxAttempts
                 && (row.kind.GenerateReport? && row.payload.Some? ==>
                     var last := done.attempt >= done.maxAttempts;
                     var g := Generated(lease, reports, row.payload.value, last, f, now, now);
                     queue.rows == old(queue.rows)[done.id := Recorded(Taken(row, now), g.1, now)])
  {
    var handler := (payload: Option<ReportId>, attempt: nat, maxAttempts: nat) =>
      payload.None? || Generated(lease, reports, payload.value, attempt >= maxAttempts, f, now, now).1.Nil?;
    done := queue.ProcessOne(now, held, handler, PollFates(true, true), now);
  }

  /** One poll of the queue whose handler is the service's Generate, for every fate of every call: the protocol's run of
      the same job leaves the same rows and the same reports. */
  method PollIsRun(queue: Queue, service: Service, c: Config, s: State, held: set<JobId>, f: Fates)
    returns (done: Processed)
    requires service.store.Valid() && service.store.reports == s.reports && service.lease == c.lease
    requires queue.rows == s.jobs && (f.summary.Some? ==> f.summary.value == TodoTable.Count(s.todos))
    modifies queue, service.store
    ensures done.NoJob? ==> forall j :: !Enabled(c, s, Lock(j, held))
    ensures done.Ran? ==> IsNext(s.jobs, s.now, held, done.id)
    ensures done.Ran? && s.jobs[done.id].kind.GenerateReport? && s.jobs[done.id].payload.Some? ==>
              var steps := Poll(c, s, done.id, held, f, 0);
              && Runnable(c, s, steps)
              && queue.rows == After(c, s, steps).jobs && service.store.reports == After(c, s, steps).reports
  {
    done := PollFor(queue, s.now, held, s.reports, c.lease, f);
    if done.Ran? && s.jobs[done.id].kind.GenerateReport? && s.jobs[done.id].payload.Some? {
      var id := s.jobs[done.id].payload.value;
      PollEnds(c, s, done.id, held, id, f);
      var result := service.Generate(id, Some(AttemptInfo(done.attempt, done.maxAttempts)), f, s.now, s.now);
    }
  }
}
