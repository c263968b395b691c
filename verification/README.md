# Verified model of the report generation protocol

This project models, in Dafny 4.11, the asynchronous report lifecycle of the Go server template: the Postgres job
queue, the report service whose handler it drives, the reconcile loop that repairs lost enqueues, the two report
stores, and the todo table whose counts a report records. `dafny verify dfyconfig.toml` checks everything.

## How it is built

- `Prelude`, `ReportDomain`, `TodoTable`, `ResultText`, `JobQueue`: the records, the row transitions, the todo and
  queue classes, and the text of a result.
- `FakeStore`, `SqlStore`, `StoreSimulation`: the in-memory store and the nullable SQL rows as classes with their own
  bodies, and the proof that they are the same store.
- `JobTransaction`: SELECT FOR UPDATE SKIP LOCKED, UPDATE, COMMIT or ROLLBACK as separate interleaved steps, refining
  one atomic take.
- `ReportService`: the service as a class, run call by call, and the proof that one uninterleaved handler of the
  protocol is one `Generate`.
- `Protocol`: the whole system as a transition system. A state holds the clock, job rows, report rows, todos, any
  number of handler executions with their phase, and the enqueues that callers still owe; a run is a sequence of
  steps. Every theorem below quantifies over all runs or all reachable states.
- `Agreement`: the classes, driven without interference, leave the tables that the protocol's steps leave.
  `Exhaustion`: queue and service run together until a failing report's budget is spent.
- `Invariants`, `Reconcile`, `Lifecycle`, `LeaseExclusion`, `Budget`, `JobLock`, `Recovery`, `Redelivery`: the
  theorems. `Witness` holds the concrete runs that show where a property stops holding; `Sums` adds up finite maps.

## Modelling assumptions

- One monotone clock serves Go and Postgres. NOW() is the clock at the instant of the statement (of the SELECT, for
  the selecting transaction). A Go clock reading handed to a store call was taken at any instant between the end of
  the execution's previous call and the call itself, so readings and writes interleave.
- Report, job and execution ids are fresh.
- A store call of a handler takes effect and returns, takes effect with its acknowledgement lost, or is refused
  without effect; once the handler's two minute context has expired only the last is possible. A crash removes an
  execution at any point, which also stands for a lost outcome update of the job row.
- A call under an expired handler context can only fail. In `Recovery` that is no fault, and neither is a slow handler;
  crashes, failed enqueues and any other failing call are.
- Any number of workers, each running one job at a time, may be at work; the completing continuations of `Recovery` need
  one beside those already in flight.
- `lease`, `reconcileAfter` and `maxAttempts` are parameters, positive as the constructors make them.

## What came out

- At most one live execution per report is past its claim, and every mark is written by the execution whose claim the
  report carries, **exactly** when the lease is at least the two minute handler timeout
  (`LeaseExclusion.ExclusiveIffLeaseCoversHandler`, `LeaseExclusion.MarksByHolderIff`).
- A completed job stays completed in every run **exactly** when the budget is at most two attempts: with three or more
  a late error from an attempt that outlived its lock sets `completed_at` back to NULL
  (`JobLock.CompletionIsFinalIff`). With outcomes recorded inside the lock window it always stays completed.
- Handler invocations of one job always see distinct attempt numbers, but in increasing order in every run **exactly**
  when there is only one attempt (`JobLock.InvocationsAreOrderedIff`): a worker that stalls between locking and starting
  is overtaken by the next attempt. Run by run, starting and recording within the lock window is enough
  (`JobLock.PromptInvocationsIncrease`).
- An unsettled report can still complete **exactly** when it is not stranded, and whatever can complete at all can be
  completed by one worker that finishes each job before it takes the next, without any further fault
  (`Recovery.RecoversIffNotStranded`). Pending reports always can.
- Suppose an attempt claims so early that the time since its lock plus the lease fit into the five minute lock, and then
  crashes. The next attempt takes its claim over in every run **exactly** when there are at most two attempts or the
  lease exceeds the lock, so that no claim is that early (`Redelivery.CrashTakesOverIff`). With three attempts the late
  error of the first unlocks the job under the second, and the third is turned away and closes it: the report is
  stranded (`Redelivery.LateErrorCanStrand`). Run by run it is enough that nobody else touches the row
  (`Redelivery.RedeliveredClaimSucceeds`).
- A later claim can strand the report whatever the budget (`Redelivery.RedeliveryCanStrand`). No configuration rules the
  delay out, so under every lease and every budget some run strands a report for good
  (`Redelivery.EveryConfigCanStrand`); with the shipped five minute lease one nanosecond of delay is enough
  (`Redelivery.DefaultsCanStrand`).
- A retry after an error takes over the claim its job left behind in every run **exactly** when the lease is under a
  minute, the first backoff, or there are no retries (`Redelivery.RetryTakesOverIff`). Under a longer lease a single
  failed completing call can strand a report (`Redelivery.FailedMarkCanStrand`).
- docs/reports-validation.md:8 and docs/adding-a-domain.md:43 describe stale processing reports as reclaimed; the code
  reclaims them only while some job naming them is still runnable.

## Model

| member | source | states |
|---|---|---|
| FakeStore.Store.CreateReport | internal/reports/fake_store.go:21-26 | files the report under its id, overwriting nothing else |
| FakeStore.Store.GetReportByID | internal/reports/fake_store.go:28-36 | the stored report, or no rows exactly when absent |
| FakeStore.Store.ListReportsByOwner | internal/reports/fake_store.go:38-48 | each report of the owner exactly once, and no other |
| FakeStore.Store.ClaimExecution | internal/reports/fake_store.go:50-73 | grants pending or stale processing reports, keeps the first start, renews the lease; otherwise no rows and no change |
| FakeStore.Store.MarkPendingRetry | internal/reports/fake_store.go:75-92 | a processing report goes back to pending without lease or failure; any other is untouched |
| FakeStore.Store.MarkCompleted | internal/reports/fake_store.go:94-113 | a processing report gets its result and completion time; any other is untouched |
| FakeStore.Store.MarkFailed | internal/reports/fake_store.go:115-133 | a processing report gets code, reason and completion time; any other is untouched |
| FakeStore.Store.ListPendingOlderThan | internal/reports/fake_store.go:135-145 | each pending report with an update time before the threshold exactly once, and no other |
| SqlStore.Store.CreateReport | internal/reports/postgres/store.go:21-40 | a fresh id is inserted and read back unchanged through NULLs; a duplicate key changes nothing |
| SqlStore.Store.GetReportByID | internal/reports/postgres/store.go:42-48 | the domain report of the row, or no rows |
| SqlStore.Store.ClaimExecution | internal/reports/postgres/reports.sql.go:16-30 | under three-valued WHERE and COALESCE, the same answer and table as the in-memory claim |
| SqlStore.Store.MarkPendingRetry | internal/reports/postgres/reports.sql.go:311-321 | same answer and table as the in-memory operation |
| SqlStore.Store.MarkCompleted | internal/reports/postgres/reports.sql.go:226-238 | same answer and table as the in-memory operation, empty result included |
| SqlStore.Store.MarkFailed | internal/reports/postgres/reports.sql.go:266-277 | same answer and table as the in-memory operation, empty code and reason stored as NULL included |
| SqlStore.Store.ListReportsByOwner | internal/reports/postgres/reports.sql.go:184-188 | the owner's reports exactly once each, newest first |
| SqlStore.Store.ListPendingOlderThan | internal/reports/postgres/reports.sql.go:141-146 | the old pending reports exactly once each, least recently updated first |
| StoreSimulation.InsertThenMap | internal/reports/postgres/store.go:122-167 | insert parameters followed by mapReport give back every report |
| StoreSimulation.ClaimGuardAgrees | internal/reports/postgres/reports.sql.go:24-28 | the SQL claim guard is true exactly on the reports the in-memory test accepts, and never unknown |
| StoreSimulation.Replay | internal/reports/store.go:10-21 | any sequence of writes with fresh ids gets equal answers from both stores and leaves them related by mapReport |
| StoreSimulation.QueriesAgree | internal/reports/store.go:10-21 | related stores answer every read alike, lists up to order |
| TodoTable.Store.CreateTodo | internal/todos/fake_store.go:22-28 | the row is filed; a new id raises total by one and completed by its flag |
| TodoTable.Store.UpdateTodo | internal/todos/fake_store.go:30-40 | text, flag and update time change, creation time and total do not; missing rows are reported |
| TodoTable.Store.DeleteTodo | internal/todos/fake_store.go:42-50 | the row goes and total drops by one exactly when it was there |
| TodoTable.Store.CountTodos | internal/todos/fake_store.go:72-83 | one pass with counters yields the sizes of the row sets |
| TodoTable.Count | internal/todos/fake_store.go:72-83 | total is completed plus outstanding |
| ResultText.ResultRoundTrip | internal/reports/service.go:190-191 | a reader that looks for a label and takes the numeral after it finds all three counts under their own labels; numerals have no leading zero |
| ResultText.ResultLines | internal/reports/service.go:190-191 | the text is exactly the three labelled lines |
| JobQueue.Queue.constructor | internal/platform/jobs/jobs.go:44-52 | the configured attempt budget if positive, otherwise five |
| JobQueue.Queue.Enqueue | internal/platform/jobs/jobs.go:58-72 | a fresh row with no attempts, an absent run time meaning now; a marshal or insert error leaves the table as it was |
| JobQueue.Queue.SelectDue | internal/platform/jobs/jobs.go:110-123 | an earliest due row that nobody holds, or proof that there is none |
| JobQueue.Queue.ProcessOne | internal/platform/jobs/jobs.go:96-169 | for every handler and every fate of the commit and of the outcome update: exactly one due row changes, with attempt number attempts + 1 within the budget, closed or backed off by the handler's result, and once recorded not due again at once; a failed commit changes nothing |
| JobQueue.DueAgain | internal/platform/jobs/jobs.go:113-116 | exactly when, in nanoseconds, a new, selected, failed or closed job becomes due (again), and its completion time |
| JobTransaction.StepRefines | internal/platform/jobs/jobs.go:96-135 | each transaction step is one atomic step or none |
| JobTransaction.TransactionsAreAtomic | internal/platform/jobs/jobs.go:96-135 | every interleaving of three-step transactions has the committed rows of a run of atomic takes of the earliest due unheld job |
| JobTransaction.CommittedRowsAreAtomic | internal/platform/jobs/jobs.go:96-135 | from a table with no transaction open, the committed rows after any interleaving are those of a run of atomic takes from the same table |
| JobTransaction.RollbackLeavesRow | internal/platform/jobs/jobs.go:101 | whatever runs meanwhile, a rolled back transaction leaves its row as it was |
| JobTransaction.NoCommitWithoutUpdate | internal/platform/jobs/jobs.go:125-135 | no selected row is committed before its update |
| JobTransaction.EnqueueIsInsert | internal/platform/jobs/jobs.go:58-72 | the queue's insert leaves the rows of the insert step |
| JobTransaction.PollIsTransaction | internal/platform/jobs/jobs.go:96-168 | one poll of the queue leaves the rows that select, update, commit and the recording of its outcome leave, for every handler and fate |
| ReportService.Service.constructor | internal/reports/service.go:28-49 | the configured lease and threshold if positive, otherwise five minutes and one minute |
| ReportService.Service.CreateReport | internal/reports/service.go:73-109 | rejected requests change nothing; a failed insert is an internal error; accepted ones insert a pending report of the caller, created and updated now with all else empty, and ask for one job, whose failure does not show |
| ReportService.Service.CreateThenRead | internal/reports/service.go:73-131 | a created report is read back by its creator, by id and in the list, and denied to everyone else |
| ReportService.Service.GetReport | internal/reports/service.go:111-131 | succeeds exactly for the owner of an existing report while the store answers, with each error exactly in its own case |
| ReportService.Service.ListReports | internal/reports/service.go:133-143 | the principal's own reports exactly once each; an internal error exactly when the store fails |
| ReportService.Service.ListAgreesWithGet | internal/reports/service.go:62-67 | a report is listed exactly when getting it by id succeeds, and is the same report |
| ReportService.Service.Generate | internal/reports/service.go:147-200 | table and return value for every fate of every call, the last attempt being attempt >= max attempts of the AttemptInfo |
| ReportService.GeneratedErrors | internal/reports/service.go:147-212 | an error exactly when a call before the mark fails, the summary fails on an attempt that is not the last, or the completing call fails |
| ReportService.GeneratedRecord | internal/reports/service.go:147-212 | the record left behind, field by field, and no other record changed |
| ReportService.Service.HandleRetryable | internal/reports/service.go:202-212 | attempt >= max attempts fails a processing report as RETRY_EXHAUSTED and returns nil; any earlier attempt hands it back to pending and returns an error in every case |
| ReportService.QuietGenerate | internal/reports/service.go:147-212 | with no store failure, an error exactly when the report is left pending, nil exactly when absent, settled, of unknown status or under a fresh lease; no other report changes |
| ReportService.HandlerIsGenerate | internal/reports/service.go:147-212 | the protocol's steps of one uninterleaved handler have the effect and result of one Generate |
| ReportService.Service.GenerateAsHandler | internal/platform/jobs/jobs.go:146-152 | the class's Generate, given the AttemptInfo of an execution, ends in the table and result of that execution's protocol handler |
| ReportService.Service.FailEveryAttempt | internal/reports/service.go:202-212 | n attempts whose summary fails return n - 1 errors and then nil, with the report failed |
| Exhaustion.ExhaustBudget | internal/platform/jobs/jobs.go:96-169 | queue and service together: a budget of n leaves a report whose summary keeps failing failed, and its job completed, after exactly n handler runs |
| Agreement.PutTodoIsStep | internal/todos/fake_store.go:22-28 | the todo store's insert leaves the table that the protocol's step leaves |
| Agreement.DeleteTodoIsStep | internal/todos/fake_store.go:42-50 | likewise its delete |
| Agreement.EnqueueIsStep | internal/platform/jobs/jobs.go:58-72 | the queue's insert leaves the rows that the protocol's step leaves |
| Agreement.CreateIsTwoSteps | internal/reports/service.go:87-108 | an accepted creation and its enqueue leave the reports and rows of the protocol's two steps, nothing owed, and a job due at once |
| Agreement.ReconcileIsStep | internal/reports/service.go:216-228 | the service asks for exactly the enqueues that the protocol's pass makes owed |
| Agreement.PollIsRun | internal/platform/jobs/jobs.go:96-168 | a poll of the queue whose handler is the service's Generate leaves the rows and reports of the protocol's run of the same job, for every fate of every call |
| Recovery.PollKeepsPending | internal/platform/jobs/jobs.go:96-169 | after select, start, a Generate without store failure and record, the job is still runnable exactly when the report is left pending |
| ReportService.Enqueuer.Enqueue | internal/reports/fake_store.go:163-177 | every request is logged, failed ones are not accepted |
| ReportService.Service.ReconcilePending | internal/reports/service.go:214-230 | one request for each report that is pending and was updated more than the threshold ago, none for any other; a failed request affects no other; a failed list call asks for nothing and returns its error |
| Reconcile.OwedChange | internal/reports/service.go:216-228 | an enqueue becomes owed exactly at creation, or when a reconcile pass reads its clock more than the threshold after the last update of a pending report |
| Reconcile.EnqueuedIsDue | internal/platform/jobs/jobs.go:58-72 | an owed enqueue inserts a fresh job naming the report, due in the same instant |
| Reconcile.FreshReportsAreLeft | internal/reports/service.go:216-228 | over any run, a report unchanged for no longer than the threshold is not asked for again |
| Reconcile.RequestsAreConserved | internal/reports/service.go:102-108 | over any run, jobs naming a report plus enqueues owed plus enqueues lost grow exactly by the requests made |
| Invariants.RunGrows | internal/reports/service.go:87-95 | over every run owner, type, creation time and first start never change, terminal records are frozen, job identities stay and attempts never fall |
| Invariants.StepKeepsInv | internal/reports/service.go:147-212 | every step keeps the invariant on job rows, executions and reports |
| Invariants.ReachableInv | internal/reports/service.go:147-212 | the invariant holds in every reachable state |
| Lifecycle.RecordsAreWellFormed | internal/reports/fake_store.go:62-132 | status fixes which fields are set, a completed report's result included, and creation <= first claim <= completion, with interleaved clock readings |
| Lifecycle.CreatedOnce | internal/reports/service.go:87-95 | every report was created by exactly one step of the run and carries that step's owner, type and time |
| Lifecycle.FailedMeansExhausted | internal/reports/service.go:202-207 | a failed report has a supported type, code RETRY_EXHAUSTED and a job naming it with no attempts left |
| Lifecycle.UnsupportedTypeUnreachable | internal/reports/service.go:178-182 | no reachable state fails a report as UNSUPPORTED_TYPE |
| Lifecycle.SettlesOnce | internal/reports/service.go:145-200 | over every run a report becomes terminal at most once and its record is frozen from then on |
| Lifecycle.ClaimsAreSpaced | internal/reports/service.go:166-175 | two claims with no mark in between are more than a lease apart |
| Lifecycle.CompletedReportsTellTheTruth | internal/reports/service.go:184-198 | under the labels Total todos, Completed and Outstanding a completed report shows the true counts at one moment between a granted claim of an execution and the call by which that execution took the report from processing to its final record |
| LeaseExclusion.HandlerHasTwoMinutes | internal/platform/jobs/jobs.go:146 | a call of a handler can be acknowledged up to exactly two minutes after its start |
| LeaseExclusion.NoEffectAfterTwoMinutes | internal/platform/jobs/jobs.go:146 | in any run, nothing a handler does takes effect later than two minutes after its start |
| LeaseExclusion.ReachableExclusive | internal/reports/service.go:166-212 | with a lease of at least two minutes, at most one live execution per report is past its claim and the report carries that claim |
| LeaseExclusion.NoSupersededMark | internal/reports/service.go:193-212 | whoever takes a report out of processing is the execution whose claim it carries |
| LeaseExclusion.ShortLeaseIsUnsafe | internal/platform/jobs/jobs.go:146-152 | every lease under two minutes has a reachable state with a superseded worker still able to mark, its claim replaced by another |
| LeaseExclusion.ExclusiveIffLeaseCoversHandler | internal/platform/jobs/jobs.go:146-152 | exclusion holds in all reachable states if and only if the lease is at least two minutes |
| LeaseExclusion.MarksByHolderIff | internal/reports/service.go:193-212 | every mark in every run is written by the execution whose claim the report carries if and only if the lease is at least two minutes |
| Budget.AttemptsCountSelections | internal/platform/jobs/jobs.go:110-129 | attempts counts the selections exactly and never exceeds the budget |
| Budget.SelectionsAreSpaced | internal/platform/jobs/jobs.go:154-160 | the (k+1)-th selection of a job is at least the sum of min(i, 5) minutes, i = 1..k, after its first |
| Budget.SpacingClosedForm | internal/platform/jobs/jobs.go:154-160 | that sum is k(k+1)/2 up to k = 5, then 5 minutes more each |
| Budget.InvocationsAreDistinct | internal/platform/jobs/jobs.go:146-152 | handler invocations of a job see distinct attempt numbers within 1..attempts |
| Budget.InvocationsWithinBudget | internal/platform/jobs/jobs.go:146-152 | no more handler invocations than attempts, hence than max_attempts |
| Budget.UnregisteredIsNeverInvoked | internal/platform/jobs/jobs.go:137-144 | a job of a type without a handler never runs one |
| Budget.AttemptsAreConserved | internal/platform/jobs/jobs.go:110-129 | remaining attempts plus selections equal initial attempts plus enqueued budgets; with no enqueues selections are bounded |
| Budget.OvertakingIsBounded | internal/platform/jobs/jobs.go:110-132 | in every run a due job is passed over at most as often as the jobs with no later run time have attempts left, plus the budgets of the jobs enqueued ahead of it meanwhile |
| Budget.OvertakingByOldJobsOnly | internal/platform/jobs/jobs.go:110-132 | if every enqueue of the run carries a later run time, only the attempts left at the start can go first |
| Budget.StaleReadingOvertakes | internal/platform/jobs/jobs.go:64-70 | an enqueue with a run time read before the waiting job's is selected ahead of it |
| JobLock.TimelyRunsAreExclusive | internal/platform/jobs/jobs.go:113-168 | with outcomes recorded within the lock, one in-window execution per job; completed jobs are frozen and never selected |
| JobLock.PromptInvocationsIncrease | internal/platform/jobs/jobs.go:146-151 | if handlers also start within the lock, attempt numbers are seen in increasing order |
| JobLock.PromptQueue | internal/platform/jobs/jobs.go:113-168 | both hold from the empty queue on: timely runs have one in-window execution per job, prompt ones invoke attempts in order |
| JobLock.LateStartIsOutOfOrder | internal/platform/jobs/jobs.go:146-151 | with two or more attempts there is a run whose handlers see attempts 2, 1 |
| JobLock.InvocationsAreOrderedIff | internal/platform/jobs/jobs.go:146-151 | handlers see attempt numbers in increasing order in all runs if and only if the budget is at most one |
| JobLock.LateErrorReopens | internal/platform/jobs/jobs.go:154-160 | with three or more attempts a late error reopens a completed job |
| JobLock.CompletionIsFinalIff | internal/platform/jobs/jobs.go:154-160 | completed jobs stay completed in all runs if and only if the budget is at most two |
| Recovery.PendingRecovers | internal/reports/service.go:214-230 | every pending report can complete without further fault with one worker: waiting, reconciling, enqueueing, serving each earlier job to its end, and generating |
| Recovery.NotStrandedRecovers | internal/reports/service.go:147-230 | every unsettled report that is not stranded has a continuation by one worker, without further fault, that completes it |
| Recovery.StepKeepsDoomed | internal/reports/service.go:168-173 | no step leaves the set of failed and stranded reports |
| Recovery.DoomedForever | internal/reports/service.go:193-197 | no run, with any faults and any number of workers, completes a stranded report |
| Recovery.RecoversIffNotStranded | internal/reports/service.go:147-230 | a reachable unsettled report can complete in some run if and only if it is not stranded, and if and only if one worker can complete it without further fault; a pending one always can |
| Redelivery.RedeliveredClaimSucceeds | internal/platform/jobs/jobs.go:114-129 | run by run: if delay plus lease is at most the lock window, the attempt holds its job and the row stays untouched until it is selected again, the redelivered claim succeeds |
| Redelivery.CrashTakesOverIff | internal/platform/jobs/jobs.go:114-160 | in all runs the attempt after a silent one that claimed in time takes the report over, if and only if there are at most two attempts or the lease exceeds the lock window |
| Redelivery.LateErrorCanStrand | internal/platform/jobs/jobs.go:154-160 | with three or more attempts and a lease within the lock window, a claim made in time can still end stranded |
| Redelivery.RedeliveryCanStrand | internal/reports/service.go:166-173 | for every larger delay plus lease, and every attempt budget, a crash can leave the report stranded |
| Redelivery.RetriedClaimSucceeds | internal/platform/jobs/jobs.go:154-160 | after a recorded error, whatever outcomes other attempts record meanwhile, a lease shorter than the backoff of that row lets the next attempt's claim succeed |
| Redelivery.FailedMarkCanStrand | internal/reports/service.go:193-197 | with a lease of a minute or more and an attempt left, one failed completing call can leave the report stranded |
| Redelivery.RetryTakesOverIff | internal/platform/jobs/jobs.go:154-160 | in all runs the next selection after a recorded error takes over the claim its job left behind, if and only if the lease is under a minute or there is one attempt |
| Redelivery.EveryConfigCanStrand | internal/reports/service.go:166-173 | under every valid configuration some run reaches a report that no continuation completes |
| Redelivery.DefaultsCanStrand | internal/platform/config/config.go:154-158 | the default lease can strand a report that no continuation completes |

## Left out

- HTTP routing, middleware, rendering, flash messages, templates and static assets: no protocol logic.
- Authentication, sessions, tokens, CSRF and password hashing: the principal is a user id, empty when anonymous.
- Logging, metrics, configuration loading, database opening and migrations: input and output only.
- Error wrapping in internal/reports/domain.go (Retryable, IsRetryable, Unwrap) and SafeFailureMessage beyond the two
  codes in use: only nil against error decides what the queue does next, so a handler's result is one of the two.
- The columns last_error and created_at of platform.jobs: written, never read.
- JSON payloads: a payload is the report id it decodes to, or none.
- Register and the handlers map: job kinds are the two registered ones and every other text.
- Run, startReportsReconcile, tickers and shutdown: the steps they trigger may happen at any time, in any number.
- The event bus and the body of the audit handler: only that audit jobs share the queue and always succeed.
- Postgres internals: row locks, SKIP LOCKED and single-statement atomicity are taken as given, without microsecond
  rounding or clock skew between hosts.
- The Postgres todo store: its count is one SQL aggregate with the meaning of TodoTable.Count.
