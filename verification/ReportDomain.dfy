/** Reports and the row transitions of their lifecycle (internal/reports/domain.go). The transitions are stated
    once, on the domain record; both stores and the protocol are tied to them. */
module ReportDomain {
  import opened Prelude

  /** The `status` column. `Unrecognised` stands for any text other than the four constants. */
  datatype Status = Pending | Processing | Completed | Failed | Unrecognised(text: string)

  const TYPE_TODO_SUMMARY: string := "todo-summary"
  const FAILURE_UNSUPPORTED_TYPE: string := "UNSUPPORTED_TYPE"
  const FAILURE_RETRY_EXHAUSTED: string := "RETRY_EXHAUSTED"
  const REASON_UNSUPPORTED_TYPE: string := "unsupported report type"
  const REASON_RETRY_EXHAUSTED: string := "report generation failed after retries"

  datatype Report = Report(
    id: ReportId,
    owner: string,
    kind: string,
    status: Status,
    createdAt: Time,
    updatedAt: Time,
    startedAt: Option<Time>,
    completedAt: Option<Time>,
    processingStartedAt: Option<Time>,
    failureReason: string,
    failureCode: string,
    result: string)

  predicate SupportedType(kind: string) {
    kind == TYPE_TODO_SUMMARY
  }

  predicate Terminal(r: Report) {
    r.status.Completed? || r.status.Failed?
  }

  /** The record `CreateReport` inserts. */
  function NewReport(id: ReportId, owner: string, kind: string, now: Time): Report {
    Report(id, owner, kind, Pending, now, now, None, None, None, "", "", "")
  }

  /** A claim is granted on a pending report, or on a processing one whose lease is absent or stale. */
  predicate ClaimEligible(r: Report, staleBefore: Time) {
    || r.status.Pending?
    || (r.status.Processing? && (r.processingStartedAt.None? || r.processingStartedAt.value < staleBefore))
  }

  function ClaimedBy(r: Report, now: Time): Report {
    r.(status := Processing, updatedAt := now, processingStartedAt := Some(now),
       startedAt := if r.startedAt.None? then Some(now) else r.startedAt,
       failureReason := "", failureCode := "")
  }

  function ReturnedToPending(r: Report, at: Time): Report {
    r.(status := Pending, processingStartedAt := None, updatedAt := at, failureReason := "", failureCode := "")
  }

  function CompletedWith(r: Report, result: string, at: Time): Report {
    r.(status := Completed, result := result, completedAt := Some(at), updatedAt := at,
       processingStartedAt := None, failureReason := "", failureCode := "")
  }

  function FailedWith(r: Report, code: string, reason: string, at: Time): Report {
    r.(status := Failed, failureCode := code, failureReason := reason, completedAt := Some(at), updatedAt := at,
       processingStartedAt := None)
  }

  /** The operations of the `Store` interface that write. */
  datatype StoreOp =
    | Create(report: Report)
    | Claim(id: ReportId, now: Time, staleBefore: Time)
    | PendingRetry(id: ReportId, at: Time)
    | Complete(id: ReportId, result: string, at: Time)
    | Fail(id: ReportId, code: string, reason: string, at: Time)

  type ReportTable = map<ReportId, Report>

  /** The record a store call writes and returns; `None` is `sql.ErrNoRows`. */
  function Written(m: ReportTable, op: StoreOp): Option<Report> {
    match op
    case Create(r) => Some(r)
    case Claim(id, now, staleBefore) =>
      if id in m && ClaimEligible(m[id], staleBefore) then Some(ClaimedBy(m[id], now)) else None
    case PendingRetry(id, at) =>
      if id in m && m[id].status.Processing? then Some(ReturnedToPending(m[id], at)) else None
    case Complete(id, result, at) =>
      if id in m && m[id].status.Processing? then Some(CompletedWith(m[id], result, at)) else None
    case Fail(id, code, reason, at) =>
      if id in m && m[id].status.Processing? then Some(FailedWith(m[id], code, reason, at)) else None
  }

  function Target(op: StoreOp): ReportId {
    if op.Create? then op.report.id else op.id
  }

  /** The table after a store call. */
  function Perform(m: ReportTable, op: StoreOp): ReportTable {
    var w := Written(m, op);
    if w.Some? then m[Target(op) := w.value] else m
  }

  predicate OlderPending(r: Report, updatedBefore: Time) {
    r.status.Pending? && r.updatedAt < updatedBefore
  }

  /** Every record is filed under its own id. */
  ghost predicate Keyed(m: ReportTable) {
    forall id :: id in m ==> m[id].id == id
  }

  function OwnedBy(owner: string): Report -> bool {
    (r: Report) => r.owner == owner
  }

  function PendingBefore(updatedBefore: Time): Report -> bool {
    (r: Report) => OlderPending(r, updatedBefore)
  }

  ghost predicate DistinctIds(out: seq<Report>) {
    forall i, j :: 0 <= i < j < |out| ==> out[i].id != out[j].id
  }

  /** `out` holds each report of the table that satisfies the query, exactly once, in some order. */
  ghost predicate Lists(out: seq<Report>, m: ReportTable, p: Report -> bool) {
    && DistinctIds(out)
    && forall r :: r in out <==> r.id in m && m[r.id] == r && p(r)
  }

  lemma {:induction false} DistinctCounts(out: seq<Report>, r: Report)
    requires DistinctIds(out)
    ensures multiset(out)[r] == if r in out then 1 else 0
  {
    if out != [] {
      DistinctCounts(out[1..], r);
      assert out == [out[0]] + out[1..];
    }
  }

  /** Two answers to one query are the same list up to order. */
  lemma SameListing(a: seq<Report>, b: seq<Report>, m: ReportTable, p: Report -> bool)
    requires Lists(a, m, p) && Lists(b, m, p)
    ensures multiset(a) == multiset(b)
  {
    forall r: Report
      ensures multiset(a)[r] == multiset(b)[r]
    {
      DistinctCounts(a, r);
      DistinctCounts(b, r);
    }
  }
}
