/** The Postgres report store: nullable rows, guarded UPDATE statements evaluated in three-valued logic
    (internal/reports/postgres/reports.sql.go), and the conversions to domain reports
    (internal/reports/postgres/store.go). */
module SqlStore {
  import opened Prelude
  import opened ReportDomain

  datatype Row = Row(
    reportId: ReportId,
    ownerUserId: string,
    reportType: string,
    status: Status,
    createdAt: Time,
    updatedAt: Time,
    startedAt: Option<Time>,
    completedAt: Option<Time>,
    failureReason: Option<string>,
    result: Option<string>,
    processingStartedAt: Option<Time>,
    failureCode: Option<string>)

  type Table = map<ReportId, Row>

  // SQL truth values: a WHERE clause keeps a row only when it is True.

  datatype Truth = True | False | Unknown

  function Lift(b: bool): Truth {
    if b then True else False
  }

  function And(a: Truth, b: Truth): Truth {
    if a.False? || b.False? then False else if a.True? && b.True? then True else Unknown
  }

  function Or(a: Truth, b: Truth): Truth {
    if a.True? || b.True? then True else if a.False? && b.False? then False else Unknown
  }

  function Less(a: Option<Time>, b: Option<Time>): Truth {
    if a.Some? && b.Some? then Lift(a.value < b.value) else Unknown
  }

  function Coalesce<T>(a: Option<T>, b: Option<T>): Option<T> {
    if a.Some? then a else b
  }

  /** The WHERE clause of `claimReportExecution`. */
  function ClaimGuard(row: Row, staleBefore: Option<Time>): Truth {
    Or(Lift(row.status == Pending),
       And(Lift(row.status == Processing),
           Or(Lift(row.processingStartedAt.None?), Less(row.processingStartedAt, staleBefore))))
  }

  function NullString(s: string): Option<string> {
    if s == "" then None else Some(s)
  }

  function StringOf(s: Option<string>): string {
    if s.Some? then s.value else ""
  }

  function MapReport(r: Row): Report {
    Report(r.reportId, r.ownerUserId, r.reportType, r.status, r.createdAt, r.updatedAt,
           r.startedAt, r.completedAt, r.processingStartedAt,
           StringOf(r.failureReason), StringOf(r.failureCode), StringOf(r.result))
  }

  /** The parameters `CreateReport` binds. */
  function InsertedRow(r: Report): Row {
    Row(r.id, r.owner, r.kind, r.status, r.createdAt, r.updatedAt, r.startedAt, r.completedAt,
        NullString(r.failureReason), NullString(r.result), r.processingStartedAt, NullString(r.failureCode))
  }

  /** The domain table a Postgres table stands for. */
  function Abstract(t: Table): ReportTable {
    map id | id in t :: MapReport(t[id])
  }

  ghost predicate KeyedRows(t: Table) {
    forall id :: id in t ==> t[id].reportId == id
  }

  ghost predicate SortedOn(out: seq<Row>, key: Row -> int) {
    forall i, j :: 0 <= i < j < |out| ==> key(out[i]) <= key(out[j])
  }

  ghost predicate DistinctRows(out: seq<Row>) {
    forall i, j :: 0 <= i < j < |out| ==> out[i].reportId != out[j].reportId
  }

  ghost predicate SelectsRows(out: seq<Row>, t: Table, p: Row -> bool) {
    && DistinctRows(out)
    && (forall r :: r in out <==> r.reportId in t && t[r.reportId] == r && p(r))
  }

  lemma InsertionAt(out: seq<Row>, row: Row, at: nat, key: Row -> int)
    requires SortedOn(out, key) && DistinctRows(out) && at <= |out|
    requires forall r :: r in out ==> r.reportId != row.reportId
    requires forall i :: 0 <= i < at ==> key(out[i]) <= key(row)
    requires at < |out| ==> key(row) < key(out[at])
    ensures SortedOn(out[..at] + [row] + out[at..], key) && DistinctRows(out[..at] + [row] + out[at..])
    ensures forall r :: r in out[..at] + [row] + out[at..] <==> r in out || r == row
  {
    var grown := out[..at] + [row] + out[at..];
    forall i, j | 0 <= i < j < |grown|
      ensures key(grown[i]) <= key(grown[j]) && grown[i].reportId != grown[j].reportId
    {
      var a := if i < at then i else i - 1;
      var b := if j < at then j else j - 1;
      assert i != at ==> grown[i] == out[a] && out[a] in out;
      assert j != at ==> grown[j] == out[b] && out[b] in out;
    }
    assert out == out[..at] + out[at..];
  }

  method Insert(out: seq<Row>, row: Row, key: Row -> int) returns (grown: seq<Row>)
    requires SortedOn(out, key) && DistinctRows(out)
    requires forall r :: r in out ==> r.reportId != row.reportId
    ensures SortedOn(grown, key) && DistinctRows(grown)
    ensures forall r :: r in grown <==> r in out || r == row
  {
    var at := 0;
    while at < |out| && key(out[at]) <= key(row)
      invariant at <= |out|
      invariant forall i :: 0 <= i < at ==> key(out[i]) <= key(row)
    {
      at := at + 1;
    }
    grown := out[..at] + [row] + out[at..];
    InsertionAt(out, row, at, key);
  }

  class Store {
    var rows: Table

    ghost predicate Valid()
      reads this
    {
      KeyedRows(rows)
    }

    constructor ()
      ensures Valid() && rows == map[]
    {
      rows := map[];
    }

    /** INSERT: a primary key already present is an error and changes nothing. */
    method CreateReport(r: Report) returns (out: Option<Report>)
      requires Valid()
      modifies this
      ensures Valid()
      ensures old(r.id in rows) ==> out.None? && rows == old(rows)
      ensures old(r.id !in rows) ==> out == Some(r) && Abstract(rows) == Perform(Abstract(old(rows)), Create(r))
    {
      if r.id in rows {
        out := None;
      } else {
        var row := InsertedRow(r);
        rows := rows[r.id := row];
        out := Some(MapReport(row));
      }
    }

    method GetReportByID(id: ReportId) returns (out: Option<Report>)
      requires Valid()
      ensures out == if id in Abstract(rows) then Some(Abstract(rows)[id]) else None
    {
      if id in rows {
        out := Some(MapReport(rows[id]));
      } else {
        out := None;
      }
    }

    method ClaimExecution(id: ReportId, now: Time, staleBefore: Time) returns (out: Option<Report>)
      requires Valid()
      modifies this
      ensures Valid()
      ensures out == Written(Abstract(old(rows)), Claim(id, now, staleBefore))
      ensures Abstract(rows) == Perform(Abstract(old(rows)), Claim(id, now, staleBefore))
    {
      out := None;
      if id in rows && ClaimGuard(rows[id], Some(staleBefore)) == True {
        var row := rows[id].(status := Processing, processingStartedAt := Some(now), updatedAt := now,
          startedAt := Coalesce(rows[id].startedAt, Some(now)), failureReason := None, failureCode := None);
        rows := rows[id := row];
        out := Some(MapReport(row));
      }
    }

    method MarkPendingRetry(id: ReportId, at: Time) returns (out: Option<Report>)
      requires Valid()
      modifies this
      ensures Valid()
      ensures out == Written(Abstract(old(rows)), PendingRetry(id, at))
      ensures Abstract(rows) == Perform(Abstract(old(rows)), PendingRetry(id, at))
    {
      out := None;
      if id in rows && Lift(rows[id].status == Processing) == True {
        var row := rows[id].(status := Pending, processingStartedAt := None, updatedAt := at,
          failureReason := None, failureCode := None);
        rows := rows[id := row];
        out := Some(MapReport(row));
      }
    }

    /** The result is bound as a valid string even when it is empty. */
    method MarkCompleted(id: ReportId, result: string, at: Time) returns (out: Option<Report>)
      requires Valid()
      modifies this
      ensures Valid()
      ensures out == Written(Abstract(old(rows)), Complete(id, result, at))
      ensures Abstract(rows) == Perform(Abstract(old(rows)), Complete(id, result, at))
    {
      out := None;
      if id in rows && Lift(rows[id].status == Processing) == True {
        var row := rows[id].(status := Completed, result := Some(result), completedAt := Some(at), updatedAt := at,
          processingStartedAt := None, failureReason := None, failureCode := None);
        rows := rows[id := row];
        out := Some(MapReport(row));
      }
    }

    method MarkFailed(id: ReportId, code: string, reason: string, at: Time) returns (out: Option<Report>)
      requires Valid()
      modifies this
      ensures Valid()
      ensures out == Written(Abstract(old(rows)), Fail(id, code, reason, at))
      ensures Abstract(rows) == Perform(Abstract(old(rows)), Fail(id, code, reason, at))
    {
      out := None;
      if id in rows && Lift(rows[id].status == Processing) == True {
        var row := rows[id].(status := Failed, failureReason := NullString(reason), failureCode := NullString(code),
          completedAt := Some(at), updatedAt := at, processingStartedAt := None);
        rows := rows[id := row];
        out := Some(MapReport(row));
      }
    }

    /** SELECT ... WHERE p ORDER BY key ASC. */
    method Query(p: Row -> bool, key: Row -> int) returns (out: seq<Row>)
      requires Valid()
      ensures SelectsRows(out, rows, p) && SortedOn(out, key)
    {
      out := [];
      var rest := rows.Keys;
      while rest != {}
        invariant rest <= rows.Keys
        invariant DistinctRows(out)
        invariant forall r :: r in out <==> r.reportId in rows && r.reportId !in rest && rows[r.reportId] == r && p(r)
        invariant SortedOn(out, key)
      {
        var id :| id in rest;
        rest := rest - {id};
        if p(rows[id]) {
          out := Insert(out, rows[id], key);
        }
      }
    }

    /** The loop that turns the scanned rows into domain reports. */
    method MapAll(scanned: seq<Row>) returns (out: seq<Report>)
      ensures |out| == |scanned| && forall i :: 0 <= i < |out| ==> out[i] == MapReport(scanned[i])
    {
      out := [];
      for i := 0 to |scanned|
        invariant |out| == i && forall k :: 0 <= k < i ==> out[k] == MapReport(scanned[k])
      {
        out := out + [MapReport(scanned[i])];
      }
    }

    method ListReportsByOwner(owner: string) returns (out: seq<Report>)
      requires Valid()
      ensures Lists(out, Abstract(rows), OwnedBy(owner))
      ensures forall r :: r in out <==> r.id in rows && Abstract(rows)[r.id] == r && r.owner == owner
      ensures forall i, j :: 0 <= i < j < |out| ==> out[i].createdAt >= out[j].createdAt
    {
      var p := (r: Row) => r.ownerUserId == owner;
      var scanned := Query(p, (r: Row) => -r.createdAt);
      out := MapAll(scanned);
      MappedListing(scanned, out, rows, p, OwnedBy(owner));
    }

    method ListPendingOlderThan(updatedBefore: Time) returns (out: seq<Report>)
      requires Valid()
      ensures Lists(out, Abstract(rows), PendingBefore(updatedBefore))
      ensures forall r :: r in out <==>
                r.id in rows && Abstract(rows)[r.id] == r && r.status == Pending && r.updatedAt < updatedBefore
      ensures forall i, j :: 0 <= i < j < |out| ==> out[i].updatedAt <= out[j].updatedAt
    {
      var p := (r: Row) => And(Lift(r.status == Pending), Lift(r.updatedAt < updatedBefore)) == True;
      var scanned := Query(p, (r: Row) => r.updatedAt);
      out := MapAll(scanned);
      MappedListing(scanned, out, rows, p, PendingBefore(updatedBefore));
    }
  }

  lemma MappedListing(scanned: seq<Row>, out: seq<Report>, t: Table, p: Row -> bool, q: Report -> bool)
    requires KeyedRows(t) && SelectsRows(scanned, t, p)
    requires |out| == |scanned| && forall i :: 0 <= i < |out| ==> out[i] == MapReport(scanned[i])
    requires forall r: Row :: p(r) == q(MapReport(r))
    ensures Lists(out, Abstract(t), q)
  {
    forall r: Report
      ensures r in out <==> r.id in Abstract(t) && Abstract(t)[r.id] == r && q(r)
    {
      if r in out {
        var i :| 0 <= i < |out| && out[i] == r;
        assert scanned[i] in scanned;
      }
      if r.id in t && Abstract(t)[r.id] == r && q(r) {
        var row := t[r.id];
        assert row in scanned;
        var i :| 0 <= i < |scanned| && scanned[i] == row;
        assert out[i] == r;
      }
    }
  }
}
