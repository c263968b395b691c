/** The in-memory report store (internal/reports/fake_store.go). */
module FakeStore {
  import opened Prelude
  import opened ReportDomain

  class Store {
    var reports: ReportTable

    ghost predicate Valid()
      reads this
    {
      Keyed(reports)
    }

    constructor ()
      ensures Valid() && reports == map[]
    {
      reports := map[];
    }

    method CreateReport(r: Report) returns (out: Report)
      requires Valid()
      modifies this
      ensures Valid() && out == r && reports == old(reports)[r.id := r]
      ensures reports == Perform(old(reports), Create(r))
    {
      reports := reports[r.id := r];
      out := r;
    }

    method GetReportByID(id: ReportId) returns (out: Option<Report>)
      requires Valid()
      ensures out == if id in reports then Some(reports[id]) else None
      ensures out.Some? ==> out.value.id == id
    {
      if id in reports {
        out := Some(reports[id]);
      } else {
        out := None;
      }
    }

    method ClaimExecution(id: ReportId, now: Time, staleBefore: Time) returns (out: Option<Report>)
      requires Valid()
      modifies this
      ensures Valid()
      ensures out.Some? <==>
                && id in old(reports)
                && (|| old(reports)[id].status == Pending
                    || (old(reports)[id].status == Processing &&
                        (old(reports)[id].processingStartedAt == None ||
                         old(reports)[id].processingStartedAt.value < staleBefore)))
      ensures out.Some? ==> out.value == old(reports)[id].(
                status := Processing, processingStartedAt := Some(now), updatedAt := now,
                startedAt := if old(reports)[id].startedAt == None then Some(now) else old(reports)[id].startedAt,
                failureReason := "", failureCode := "")
      ensures out == Written(old(reports), Claim(id, now, staleBefore))
      ensures reports == if out.Some? then old(reports)[id := out.value] else old(reports)
      ensures reports == Perform(old(reports), Claim(id, now, staleBefore))
    {
      out := None;
      if id in reports {
        var r := reports[id];
        var eligible := r.status == Pending ||
          (r.status == Processing && (r.processingStartedAt == None || r.processingStartedAt.value < staleBefore));
        if eligible {
          r := r.(status := Processing, updatedAt := now, processingStartedAt := Some(now));
          if r.startedAt == None {
            r := r.(startedAt := Some(now));
          }
          r := r.(failureReason := "", failureCode := "");
          reports := reports[id := r];
          out := Some(r);
        }
      }
    }

    method MarkPendingRetry(id: ReportId, at: Time) returns (out: Option<Report>)
      requires Valid()
      modifies this
      ensures Valid()
      ensures out.Some? <==> id in old(reports) && old(reports)[id].status == Processing
      ensures out.Some? ==> out.value == old(reports)[id].(
                status := Pending, processingStartedAt := None, updatedAt := at, failureReason := "", failureCode := "")
      ensures out == Written(old(reports), PendingRetry(id, at))
      ensures reports == if out.Some? then old(reports)[id := out.value] else old(reports)
      ensures reports == Perform(old(reports), PendingRetry(id, at))
    {
      out := None;
      if id in reports && reports[id].status == Processing {
        var r := reports[id];
        r := r.(status := Pending, processingStartedAt := None, updatedAt := at);
        r := r.(failureReason := "", failureCode := "");
        reports := reports[id := r];
        out := Some(r);
      }
    }

    method MarkCompleted(id: ReportId, result: string, at: Time) returns (out: Option<Report>)
      requires Valid()
      modifies this
      ensures Valid()
      ensures out.Some? <==> id in old(reports) && old(reports)[id].status == Processing
      ensures out.Some? ==> out.value == old(reports)[id].(
                status := Completed, result := result, completedAt := Some(at), updatedAt := at,
                processingStartedAt := None, failureReason := "", failureCode := "")
      ensures out == Written(old(reports), Complete(id, result, at))
      ensures reports == if out.Some? then old(reports)[id := out.value] else old(reports)
      ensures reports == Perform(old(reports), Complete(id, result, at))
    {
      out := None;
      if id in reports && reports[id].status == Processing {
        var r := reports[id];
        r := r.(status := Completed, result := result, completedAt := Some(at), updatedAt := at);
        r := r.(processingStartedAt := None, failureReason := "", failureCode := "");
        reports := reports[id := r];
        out := Some(r);
      }
    }

    method MarkFailed(id: ReportId, code: string, reason: string, at: Time) returns (out: Option<Report>)
      requires Valid()
      modifies this
      ensures Valid()
      ensures out.Some? <==> id in old(reports) && old(reports)[id].status == Processing
      ensures out.Some? ==> out.value == old(reports)[id].(
                status := Failed, failureCode := code, failureReason := reason, completedAt := Some(at),
                updatedAt := at, processingStartedAt := None)
      ensures out == Written(old(reports), Fail(id, code, reason, at))
      ensures reports == if out.Some? then old(reports)[id := out.value] else old(reports)
      ensures reports == Perform(old(reports), Fail(id, code, reason, at))
    {
      out := None;
      if id in reports && reports[id].status == Processing {
        var r := reports[id];
        r := r.(status := Failed, failureCode := code, failureReason := reason);
        r := r.(completedAt := Some(at), updatedAt := at, processingStartedAt := None);
        reports := reports[id := r];
        out := Some(r);
      }
    }

    /** Collects the matching entries in the unspecified order of Go's map iteration. */
    method Collect(p: Report -> bool) returns (out: seq<Report>)
      requires Valid()
      ensures Lists(out, reports, p)
    {
      out := [];
      var rest := reports.Keys;
      while rest != {}
        invariant rest <= reports.Keys
        invariant DistinctIds(out)
        invariant forall r :: r in out <==> r.id in reports && r.id !in rest && reports[r.id] == r && p(r)
      {
        var id :| id in rest;
        rest := rest - {id};
        if p(reports[id]) {
          out := out + [reports[id]];
        }
      }
    }

    method ListReportsByOwner(owner: string) returns (out: seq<Report>)
      requires Valid()
      ensures Lists(out, reports, OwnedBy(owner))
      ensures forall r :: r in out <==> r.id in reports && reports[r.id] == r && r.owner == owner
    {
      out := Collect(OwnedBy(owner));
    }

    method ListPendingOlderThan(updatedBefore: Time) returns (out: seq<Report>)
      requires Valid()
      ensures Lists(out, reports, PendingBefore(updatedBefore))
      ensures forall r :: r in out <==>
                r.id in reports && reports[r.id] == r && r.status == Pending && r.updatedAt < updatedBefore
    {
      out := Collect(PendingBefore(updatedBefore));
    }
  }
}
