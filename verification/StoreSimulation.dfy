/** The in-memory store and the Postgres store are the same store: driven by any sequence of writes with fresh
    report ids, they give the same answers and stay related by `SqlStore.Abstract`. */
module StoreSimulation {
  import opened Prelude
  import opened ReportDomain
  import FakeStore
  import SqlStore

  /** Every CreateReport of the sequence names an id the table does not hold at that point. */
  ghost predicate FreshCreates(m: ReportTable, ops: seq<StoreOp>)
    decreases |ops|
  {
    ops == [] ||
    ((ops[0].Create? ==> ops[0].report.id !in m) && FreshCreates(Perform(m, ops[0]), ops[1..]))
  }

  ghost function TableAfter(m: ReportTable, ops: seq<StoreOp>): ReportTable
    decreases |ops|
  {
    if ops == [] then m else TableAfter(Perform(m, ops[0]), ops[1..])
  }

  ghost function Answers(m: ReportTable, ops: seq<StoreOp>): seq<Option<Report>>
    decreases |ops|
  {
    if ops == [] then [] else [Written(m, ops[0])] + Answers(Perform(m, ops[0]), ops[1..])
  }

  /** An insert followed by a read loses nothing: NULLs come back as nil pointers and empty strings. */
  lemma InsertThenMap(r: Report)
    ensures SqlStore.MapReport(SqlStore.InsertedRow(r)) == r
  {
  }

  /** The three-valued WHERE clause of the claim grants exactly the in-memory eligibility test. */
  lemma ClaimGuardAgrees(row: SqlStore.Row, staleBefore: Time)
    ensures SqlStore.ClaimGuard(row, Some(staleBefore)).True? <==> ClaimEligible(SqlStore.MapReport(row), staleBefore)
    ensures !SqlStore.ClaimGuard(row, Some(staleBefore)).Unknown?
  {
  }

  method FakeCall(fake: FakeStore.Store, op: StoreOp) returns (out: Option<Report>)
    requires fake.Valid()
    modifies fake
    ensures fake.Valid()
    ensures fake.reports == Perform(old(fake.reports), op) && out == Written(old(fake.reports), op)
  {
    match op
    case Create(r) => var made := fake.CreateReport(r); out := Some(made);
    case Claim(id, now, stale) => out := fake.ClaimExecution(id, now, stale);
    case PendingRetry(id, at) => out := fake.MarkPendingRetry(id, at);
    case Complete(id, result, at) => out := fake.MarkCompleted(id, result, at);
    case Fail(id, code, reason, at) => out := fake.MarkFailed(id, code, reason, at);
  }

  method SqlCall(sql: SqlStore.Store, op: StoreOp) returns (out: Option<Report>)
    requires sql.Valid()
    requires op.Create? ==> op.report.id !in sql.rows
    modifies sql
    ensures sql.Valid()
    ensures SqlStore.Abstract(sql.rows) == Perform(SqlStore.Abstract(old(sql.rows)), op)
    ensures out == Written(SqlStore.Abstract(old(sql.rows)), op)
  {
    match op
    case Create(r) => out := sql.CreateReport(r);
    case Claim(id, now, stale) => out := sql.ClaimExecution(id, now, stale);
    case PendingRetry(id, at) => out := sql.MarkPendingRetry(id, at);
    case Complete(id, result, at) => out := sql.MarkCompleted(id, result, at);
    case Fail(id, code, reason, at) => out := sql.MarkFailed(id, code, reason, at);
  }

  /** Any sequence of writes gives the same answers from both stores and leaves them related. */
  method Replay(fake: FakeStore.Store, sql: SqlStore.Store, ops: seq<StoreOp>)
    returns (fakeOut: seq<Option<Report>>, sqlOut: seq<Option<Report>>)
    requires fake.Valid() && sql.Valid() && SqlStore.Abstract(sql.rows) == fake.reports
    requires FreshCreates(fake.reports, ops)
    modifies fake, sql
    ensures fake.Valid() && sql.Valid()
    ensures SqlStore.Abstract(sql.rows) == fake.reports == TableAfter(old(fake.reports), ops)
    ensures fakeOut == sqlOut == Answers(old(fake.reports), ops)
  {
    fakeOut, sqlOut := [], [];
    var i := 0;
    while i < |ops|
      invariant i <= |ops|
      invariant fake.Valid() && sql.Valid() && SqlStore.Abstract(sql.rows) == fake.reports
      invariant FreshCreates(fake.reports, ops[i..])
      invariant TableAfter(fake.reports, ops[i..]) == TableAfter(old(fake.reports), ops)
      invariant fakeOut == sqlOut
      invariant fakeOut + Answers(fake.reports, ops[i..]) == Answers(old(fake.reports), ops)
    {
      assert ops[i..][0] == ops[i] && ops[i..][1..] == ops[i + 1..];
      var a := FakeCall(fake, ops[i]);
      var b := SqlCall(sql, ops[i]);
      fakeOut, sqlOut := fakeOut + [a], sqlOut + [b];
      i := i + 1;
    }
  }

  /** Related stores answer every read alike, list contents up to order. */
  method QueriesAgree(fake: FakeStore.Store, sql: SqlStore.Store, id: ReportId, owner: string, before: Time)
    returns (gotFake: Option<Report>, gotSql: Option<Report>, ownedFake: seq<Report>, ownedSql: seq<Report>,
             oldFake: seq<Report>, oldSql: seq<Report>)
    requires fake.Valid() && sql.Valid() && SqlStore.Abstract(sql.rows) == fake.reports
    ensures gotFake == gotSql
    ensures multiset(ownedFake) == multiset(ownedSql)
    ensures multiset(oldFake) == multiset(oldSql)
  {
    gotFake := fake.GetReportByID(id);
    gotSql := sql.GetReportByID(id);
    ownedFake := fake.ListReportsByOwner(owner);
    ownedSql := sql.ListReportsByOwner(owner);
    SameListing(ownedFake, ownedSql, fake.reports, OwnedBy(owner));
    oldFake := fake.ListPendingOlderThan(before);
    oldSql := sql.ListPendingOlderThan(before);
    SameListing(oldFake, oldSql, fake.reports, PendingBefore(before));
  }
}
