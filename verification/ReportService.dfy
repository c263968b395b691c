/** The report service, run call by call without interference (internal/reports/service.go), and its agreement with
    the interleaved protocol. */
module ReportService {
  import opened Prelude
  import opened ReportDomain
  import opened TodoTable
  import opened ResultText
  import opened Protocol
  import FakeStore

  const DEFAULT_LEASE: Time := 5 * MINUTE
  const DEFAULT_RECONCILE_AFTER: Time := MINUTE

  datatype Failure = PermissionDenied | Validation | NotFound | BadRequest | Internal

  datatype Reply<T> = Ok(value: T) | Error(failure: Failure)

  /** How the calls of one Generate fare: `summary` is what the todo summary returns, if it does. */
  datatype Fates = Fates(read: Call, claim: Call, summary: Option<Summary>, mark: Call)

  /** The second half of Generate, on a table that already carries the claim. */
  function Marked(m: ReportTable, id: ReportId, kind: string, last: bool, f: Fates, markAt: Time)
    : (ReportTable, Result)
  {
    if !SupportedType(kind) then
      (Called(m, Fail(id, FAILURE_UNSUPPORTED_TYPE, REASON_UNSUPPORTED_TYPE, markAt), f.mark), Nil)
    else if f.summary.Some? then
      (Called(m, Complete(id, FormatResult(f.summary.value), markAt), f.mark), Returns(f.mark))
    else if last then
      (Called(m, Fail(id, FAILURE_RETRY_EXHAUSTED, REASON_RETRY_EXHAUSTED, markAt), f.mark), Nil)
    else (Called(m, PendingRetry(id, markAt), f.mark), RetryableError)
  }

  /** What Generate leaves in the store and returns. `last` says that the context carries the last attempt;
      `claimAt` and `markAt` are its two clock readings. */
  function Generated(lease: Time, m: ReportTable, id: ReportId, last: bool, f: Fates, claimAt: Time, markAt: Time)
    : (ReportTable, Result)
  {
    if !f.read.Acked? then (m, RetryableError)
    else if id !in m || !(m[id].status.Pending? || m[id].status.Processing?) then (m, Nil)
    else
      var claim := Claim(id, claimAt, claimAt - lease);
      var claimed := Called(m, claim, f.claim);
      if !f.claim.Acked? then (claimed, RetryableError)
      else if Written(m, claim).None? then (claimed, Nil)
      else Marked(claimed, id, m[id].kind, last, f, markAt)
  }

  /** When Generate returns an error, so that its job is tried again: a call before the mark fails, the summary fails
      on an attempt that is not the last, or the completing call fails. Failing to mark a report failed or pending
      makes no difference. */
  lemma GeneratedErrors(lease: Time, m: ReportTable, id: ReportId, last: bool, f: Fates, claimAt: Time, markAt: Time)
    ensures Generated(lease, m, id, last, f, claimAt, markAt).1.RetryableError? <==>
            || !f.read.Acked?
            || (&& id in m && (m[id].status.Pending? || m[id].status.Processing?)
                && (|| !f.claim.Acked?
                    || (&& ClaimEligible(m[id], claimAt - lease) && m[id].kind == "todo-summary"
                        && (if f.summary.Some? then !f.mark.Acked? else !last))))
  {
  }

  /** The record Generate leaves behind: untouched if it did not get to an effective claim, else claimed, and, past
      an acknowledged claim, marked. */
  lemma GeneratedRecord(lease: Time, m: ReportTable, id: ReportId, last: bool, f: Fates, claimAt: Time, markAt: Time)
    requires id in m
    ensures var (after, _) := Generated(lease, m, id, last, f, claimAt, markAt);
            after == m[id := GeneratedFrom(lease, m[id], last, f, claimAt, markAt)]
  {
  }

  /** Generate on one record, field by field. */
  function GeneratedFrom(lease: Time, r: Report, last: bool, f: Fates, claimAt: Time, markAt: Time): Report {
    if !f.read.Acked? || f.claim.Refused? || !ClaimEligible(r, claimAt - lease) then r
    else
      var held := r.(status := Processing, updatedAt := claimAt, processingStartedAt := Some(claimAt),
                     startedAt := if r.startedAt.None? then Some(claimAt) else r.startedAt,
                     failureReason := "", failureCode := "");
      var done := held.(processingStartedAt := None, updatedAt := markAt);
      if f.claim.AckLost? || f.mark.Refused? then held
      else if r.kind != "todo-summary" then
        done.(status := Failed, completedAt := Some(markAt),
              failureCode := "UNSUPPORTED_TYPE", failureReason := "unsupported report type")
      else if f.summary.Some? then
        done.(status := Completed, completedAt := Some(markAt), result := FormatResult(f.summary.value))
      else if last then
        done.(status := Failed, completedAt := Some(markAt),
              failureCode := "RETRY_EXHAUSTED", failureReason := "report generation failed after retries")
      else done.(status := Pending)
  }

  predicate LeaseFresh(r: Report, staleBefore: Time) {
    r.status.Processing? && r.processingStartedAt.Some? && r.processingStartedAt.value >= staleBefore
  }

  function Quiet(summary: Option<Summary>): Fates {
    Fates(Acked, Acked, summary, Acked)
  }

  /** With no store failure, Generate returns an error exactly when it leaves the report pending, so completing its
      job on nil never drops a pending report; and it returns nil exactly when the report is absent, settled, in no
      known status, or under another execution's fresh lease. */
  lemma QuietGenerate(lease: Time, m: ReportTable, id: ReportId, last: bool, summary: Option<Summary>,
                      claimAt: Time, markAt: Time)
    requires lease > 0
    ensures var (after, result) := Generated(lease, m, id, last, Quiet(summary), claimAt, markAt);
            && (result.RetryableError? <==> id in after && after[id].status.Pending?)
            && (result.Nil? <==>
                (|| id !in after || Terminal(after[id]) || after[id].status.Unrecognised?
                 || (after == m && LeaseFresh(after[id], claimAt - lease))))
            && (result.RetryableError? ==> summary.None? && !last)
            && (forall k :: k in m && k != id ==> k in after && after[k] == m[k])
  {
  }

  // One handler, step by step, is one Generate.

  /** The store calls that one uninterrupted handler makes after its start; `d` passes between claim and mark. */
  ghost function HandlerSteps(c: Config, s: State, e: ExecId, f: Fates, d: nat): seq<Step>
    requires e in s.execs && s.execs[e].payload.Some?
  {
    var id := s.execs[e].payload.value;
    if !f.read.Acked? || id !in s.reports || !(s.reports[id].status.Pending? || s.reports[id].status.Processing?)
    then [ReadReport(e, f.read)]
    else [ReadReport(e, f.read)] + ClaimSteps(c, s.now, e, s.reports[id], f, d)
  }

  ghost function ClaimSteps(c: Config, now: Time, e: ExecId, r: Report, f: Fates, d: nat): seq<Step> {
    [ClaimReport(e, now, f.claim)] +
    (if !f.claim.Acked? || !ClaimEligible(r, now - c.lease) then [] else [Tick(d)] + MarkSteps(now + d, e, r.kind, f))
  }

  ghost function MarkSteps(now: Time, e: ExecId, kind: string, f: Fates): seq<Step> {
    if !SupportedType(kind) then [RejectType(e, now, f.mark)]
    else if f.summary.Some? then [Summarise(e, true), CompleteReport(e, now, f.mark)]
    else [Summarise(e, false), GiveUp(e, now, f.mark)]
  }

  /** Where one handler run must end, no later than `end`: only the report table and this execution have changed. */
  ghost predicate EndsAs(c: Config, s: State, steps: seq<Step>, e: ExecId, after: ReportTable,
                         result: Result, end: Time)
    requires e in s.execs
  {
    && Runnable(c, s, steps)
    && var t := After(c, s, steps);
       s.now <= t.now <= end && t == Advance(s, e, after, Returned(result)).(now := t.now)
  }

  lemma AdvanceTwice(s: State, e: ExecId, m: ReportTable, p: Phase, now: Time, after: ReportTable, q: Phase)
    requires e in s.execs
    ensures Advance(Advance(s, e, m, p).(now := now), e, after, q) == Advance(s, e, after, q).(now := now)
  {
    assert s.execs[e := s.execs[e].(phase := p)][e := s.execs[e].(phase := q)] == s.execs[e := s.execs[e].(phase := q)];
  }

  lemma MarkingEnds(c: Config, s: State, e: ExecId, f: Fates)
    requires e in s.execs && s.execs[e].payload.Some? && s.execs[e].phase.Claimed?
    requires s.execs[e].phase.since <= s.now <= s.execs[e].phase.deadline
    requires f.summary.Some? ==> f.summary.value == Count(s.todos)
    ensures var x := s.execs[e];
            var g := Marked(s.reports, x.payload.value, x.phase.kind, LastAttempt(x), f, s.now);
            EndsAs(c, s, MarkSteps(s.now, e, x.phase.kind, f), e, g.0, g.1, s.now)
  {
    if !SupportedType(s.execs[e].phase.kind) {
      OneStep(c, s, RejectType(e, s.now, f.mark));
    } else {
      var ok := f.summary.Some?;
      var t := Apply(c, s, Summarise(e, ok));
      var mark := if ok then CompleteReport(e, s.now, f.mark) else GiveUp(e, s.now, f.mark);
      OneStep(c, t, mark);
      MoreSteps(c, s, Summarise(e, ok), [mark]);
      var g := Marked(s.reports, s.execs[e].payload.value, s.execs[e].phase.kind, LastAttempt(s.execs[e]), f, s.now);
      AdvanceTwice(s, e, s.reports, t.execs[e].phase, s.now, g.0, Returned(g.1));
      assert [Summarise(e, ok)] + [mark] == [Summarise(e, ok), mark];
    }
  }

  lemma GrantedEnds(c: Config, s: State, e: ExecId, f: Fates, d: nat)
    requires e in s.execs && s.execs[e].payload.Some? && s.execs[e].phase.Read? && s.execs[e].phase.since <= s.now
    requires s.now + d <= s.execs[e].phase.deadline && (f.summary.Some? ==> f.summary.value == Count(s.todos))
    requires f.claim.Acked? && Written(s.reports, ClaimOp(c, s.execs[e], s.now)).Some?
    ensures var x := s.execs[e];
            var claimed := Perform(s.reports, ClaimOp(c, x, s.now));
            var g := Marked(claimed, x.payload.value, x.phase.kind, LastAttempt(x), f, s.now + d);
            EndsAs(c, s, [ClaimReport(e, s.now, f.claim)] + ([Tick(d)] + MarkSteps(s.now + d, e, x.phase.kind, f)),
                   e, g.0, g.1, s.now + d)
  {
    var claim := ClaimReport(e, s.now, f.claim);
    var t := Apply(c, s, claim);
    var u := Apply(c, t, Tick(d));
    var marks := MarkSteps(u.now, e, s.execs[e].phase.kind, f);
    MarkingEnds(c, u, e, f);
    MoreSteps(c, t, Tick(d), marks);
    MoreSteps(c, s, claim, [Tick(d)] + marks);
    var g := Marked(t.reports, s.execs[e].payload.value, s.execs[e].phase.kind, LastAttempt(s.execs[e]), f, u.now);
    AdvanceTwice(s, e, t.reports, t.execs[e].phase, u.now, g.0, Returned(g.1));
  }

  /** A claim that is not acknowledged, or finds a fresh lease, ends the handler. */
  lemma UngrantedEnds(c: Config, s: State, e: ExecId, f: Fates)
    requires e in s.execs && s.execs[e].payload.Some? && s.execs[e].phase.Read? && s.execs[e].phase.since <= s.now
    requires s.now <= s.execs[e].phase.deadline
    requires !f.claim.Acked? || Written(s.reports, ClaimOp(c, s.execs[e], s.now)).None?
    ensures EndsAs(c, s, [ClaimReport(e, s.now, f.claim)] + [], e,
                   Called(s.reports, ClaimOp(c, s.execs[e], s.now), f.claim),
                   if f.claim.Acked? then Nil else RetryableError, s.now)
  {
    OneStep(c, s, ClaimReport(e, s.now, f.claim));
    assert [ClaimReport(e, s.now, f.claim)] + [] == [ClaimReport(e, s.now, f.claim)];
  }

  lemma ClaimingEnds(c: Config, s: State, e: ExecId, f: Fates, d: nat)
    requires e in s.execs && s.execs[e].payload.Some? && s.execs[e].phase.Read? && s.execs[e].phase.since <= s.now
    requires s.now + d <= s.execs[e].phase.deadline
    requires f.read.Acked? && (f.summary.Some? ==> f.summary.value == Count(s.todos))
    requires s.execs[e].payload.value in s.reports && s.execs[e].phase.kind == s.reports[s.execs[e].payload.value].kind
    requires var status := s.reports[s.execs[e].payload.value].status; status.Pending? || status.Processing?
    ensures var g := Generated(c.lease, s.reports, s.execs[e].payload.value, LastAttempt(s.execs[e]), f,
                               s.now, s.now + d);
            EndsAs(c, s, ClaimSteps(c, s.now, e, s.reports[s.execs[e].payload.value], f, d), e, g.0, g.1, s.now + d)
  {
    var x := s.execs[e];
    var r := s.reports[x.payload.value];
    var g := Generated(c.lease, s.reports, x.payload.value, LastAttempt(x), f, s.now, s.now + d);
    var claim := [ClaimReport(e, s.now, f.claim)];
    if !f.claim.Acked? || Written(s.reports, ClaimOp(c, x, s.now)).None? {
      UngrantedEnds(c, s, e, f);
      assert ClaimSteps(c, s.now, e, r, f, d) == claim + [];
    } else {
      GrantedEnds(c, s, e, f, d);
      assert g ==
        Marked(Perform(s.reports, ClaimOp(c, x, s.now)), x.payload.value, r.kind, LastAttempt(x), f, s.now + d);
      assert ClaimSteps(c, s.now, e, r, f, d) == claim + ([Tick(d)] + MarkSteps(s.now + d, e, r.kind, f));
    }
  }

  /** The protocol's steps of one handler, run without interference, are exactly one Generate: same table, same
      return value, for every fate of every call and any delay within the deadline. */
  lemma HandlerIsGenerate(c: Config, s: State, e: ExecId, f: Fates, d: nat)
    requires e in s.execs && s.execs[e].payload.Some? && s.execs[e].phase.Started?
    requires s.now + d <= s.execs[e].phase.deadline
    requires f.summary.Some? ==> f.summary.value == Count(s.todos)
    ensures var g := Generated(c.lease, s.reports, s.execs[e].payload.value, LastAttempt(s.execs[e]), f,
                               s.now, s.now + d);
            EndsAs(c, s, HandlerSteps(c, s, e, f, d), e, g.0, g.1, s.now + d)
  {
    var id := s.execs[e].payload.value;
    var read := ReadReport(e, f.read);
    if !f.read.Acked? || id !in s.reports || !(s.reports[id].status.Pending? || s.reports[id].status.Processing?) {
      OneStep(c, s, read);
      assert HandlerSteps(c, s, e, f, d) == [read];
      return;
    }
    var t := Apply(c, s, read);
    var x := s.execs[e];
    var r := s.reports[id];
    assert t == s.(execs := s.execs[e := x.(phase := Read(x.phase.deadline, r.kind, s.now))]);
    ClaimingEnds(c, t, e, f, d);
    MoreSteps(c, s, read, ClaimSteps(c, s.now, e, r, f, d));
    assert HandlerSteps(c, s, e, f, d) == [read] + ClaimSteps(c, s.now, e, r, f, d);
    var g := Generated(c.lease, s.reports, id, LastAttempt(x), f, s.now, s.now + d);
    AdvanceTwice(s, e, s.reports, t.execs[e].phase, After(c, s, HandlerSteps(c, s, e, f, d)).now, g.0, Returned(g.1));
  }

  // The service itself.

  datatype AttemptInfo = AttemptInfo(attempt: nat, maxAttempts: nat)

  /** The AttemptInfo that processOne puts into the context of execution `x`. */
  function InfoOf(x: Exec): AttemptInfo {
    AttemptInfo(x.attempt, x.maxAttempts)
  }

  /** Records what it was asked to enqueue; requests naming a report in `down` fail. */
  class Enqueuer {
    const down: set<ReportId>
    var attempted: seq<ReportId>
    var accepted: seq<ReportId>

    constructor (down: set<ReportId>)
      ensures this.down == down && attempted == [] && accepted == []
    {
      this.down := down;
      attempted, accepted := [], [];
    }

    method Enqueue(id: ReportId) returns (ok: bool)
      modifies this
      ensures ok == (id !in down)
      ensures attempted == old(attempted) + [id]
      ensures accepted == if ok then old(accepted) + [id] else old(accepted)
    {
      attempted := attempted + [id];
      ok := id !in down;
      if ok {
        accepted := accepted + [id];
      }
    }
  }

  /** The requests of a list that get through. */
  ghost function Through(ids: seq<ReportId>, down: set<ReportId>): seq<ReportId> {
    if ids == [] then []
    else Through(ids[..|ids| - 1], down) + (if ids[|ids| - 1] in down then [] else [ids[|ids| - 1]])
  }

  /** Asking for each listed report is asking once for each old pending one. */
  lemma AskedForListed(list: seq<Report>, asked: seq<ReportId>, m: ReportTable, before: Time)
    requires Keyed(m) && Lists(list, m, PendingBefore(before))
    requires |asked| == |list| && forall k :: 0 <= k < |list| ==> asked[k] == list[k].id
    ensures forall i, j :: 0 <= i < j < |asked| ==> asked[i] != asked[j]
    ensures forall id :: id in asked <==> id in m && OlderPending(m[id], before)
  {
    forall id
      ensures id in asked <==> id in m && OlderPending(m[id], before)
    {
      if id in m && OlderPending(m[id], before) {
        assert m[id] in list;
      }
    }
  }

  class Service {
    const store: FakeStore.Store
    const enqueue: Enqueuer
    const authDisabled: bool
    const lease: Time
    const reconcileAfter: Time

    constructor (store: FakeStore.Store, enqueue: Enqueuer, authDisabled: bool, lease: Time, reconcileAfter: Time)
      ensures this.store == store && this.enqueue == enqueue && this.authDisabled == authDisabled
      ensures this.lease == if lease > 0 then lease else 5 * MINUTE
      ensures this.reconcileAfter == if reconcileAfter > 0 then reconcileAfter else MINUTE
    {
      this.store, this.enqueue, this.authDisabled := store, enqueue, authDisabled;
      this.lease := if lease <= 0 then DEFAULT_LEASE else lease;
      this.reconcileAfter := if reconcileAfter <= 0 then DEFAULT_RECONCILE_AFTER else reconcileAfter;
    }

    /** A principal passes when authentication is off or it names a user. */
    predicate Admits(principal: string) {
      authDisabled || principal != ""
    }

    /** A rejected request changes nothing; an accepted one inserts a pending report and asks for one job. Whether
        that request gets through does not show in the reply. A failing insert is an internal error, and nothing is
        enqueued even if the row is there. */
    method CreateReport(principal: string, kind: string, id: ReportId, now: Time, insert: Call)
      returns (reply: Reply<Report>)
      requires store.Valid() && id !in store.reports
      modifies store, enqueue
      ensures store.Valid()
      ensures var made := Report(id, principal, "todo-summary", Pending, now, now, None, None, None, "", "", "");
              && reply == (if !(authDisabled || principal != "") then Error(PermissionDenied)
                           else if kind != "todo-summary" then Error(Validation)
                           else if !insert.Acked? then Error(Internal)
                           else Ok(made))
              && store.reports == (if reply.Ok? || (reply == Error(Internal) && insert.AckLost?)
                                   then old(store.reports)[id := made]
                                   else old(store.reports))
      ensures enqueue.attempted == old(enqueue.attempted) + (if reply.Ok? then [id] else [])
    {
      if !Admits(principal) {
        return Error(PermissionDenied);
      }
      if kind == "" || !SupportedType(kind) {
        return Error(Validation);
      }
      var created := NewReport(id, principal, kind, now);
      if !insert.Refused? {
        created := store.CreateReport(created);
      }
      if !insert.Acked? {
        return Error(Internal);
      }
      var ok := enqueue.Enqueue(created.id);
      reply := Ok(created);
    }

    /** `id` is absent when the text is not a UUID; `up` is false when the store call fails. */
    method GetReport(principal: string, id: Option<ReportId>, up: bool) returns (reply: Reply<Report>)
      requires store.Valid()
      ensures var admitted := authDisabled || principal != "";
              && (reply.Ok? <==> admitted && id.Some? && up && id.value in store.reports
                                 && store.reports[id.value].owner == principal)
              && (reply == Error(NotFound) <==> admitted && id.Some? && up && id.value !in store.reports)
              && (reply == Error(BadRequest) <==> admitted && id.None?)
              && (reply == Error(Internal) <==> admitted && id.Some? && !up)
              && (reply == Error(PermissionDenied) <==>
                  || !admitted
                  || (&& id.Some? && up && id.value in store.reports
                      && store.reports[id.value].owner != principal))
      ensures reply.Ok? ==> reply.value == store.reports[id.value]
      ensures reply != Error(Validation)
    {
      if !Admits(principal) {
        return Error(PermissionDenied);
      }
      if id.None? {
        return Error(BadRequest);
      }
      if !up {
        return Error(Internal);
      }
      var got := store.GetReportByID(id.value);
      if got.None? {
        return Error(NotFound);
      }
      if got.value.owner != principal {
        return Error(PermissionDenied);
      }
      reply := Ok(got.value);
    }

    method ListReports(principal: string, up: bool) returns (reply: Reply<seq<Report>>)
      requires store.Valid()
      ensures reply.Ok? <==> (authDisabled || principal != "") && up
      ensures reply.Ok? ==> DistinctIds(reply.value) && forall r :: r in reply.value <==>
                              r.id in store.reports && store.reports[r.id] == r && r.owner == principal
      ensures reply.Error? ==> reply.failure == if authDisabled || principal != "" then Internal else PermissionDenied
    {
      if !Admits(principal) {
        return Error(PermissionDenied);
      }
      if !up {
        return Error(Internal);
      }
      var list := store.ListReportsByOwner(principal);
      reply := Ok(list);
    }

    /** For any principal, a report is in the list exactly when getting it by id succeeds, and then it is the same. */
    method ListAgreesWithGet(principal: string, id: ReportId) returns (got: Reply<Report>, listed: Reply<seq<Report>>)
      requires store.Valid()
      ensures got.Ok? <==> listed.Ok? && exists r :: r in listed.value && r.id == id
      ensures got.Ok? ==> got.value in listed.value && got.value.id == id
    {
      got := GetReport(principal, Some(id), true);
      listed := ListReports(principal, true);
      if got.Ok? {
        assert got.value in listed.value;
      }
    }

    /** What was created can be read: by its creator, by id and in the list, and by no one else. */
    method CreateThenRead(principal: string, id: ReportId, now: Time, other: string)
      returns (made: Reply<Report>, got: Reply<Report>, listed: Reply<seq<Report>>, denied: Reply<Report>)
      requires store.Valid() && id !in store.reports
      modifies store, enqueue
      ensures made.Ok? <==> authDisabled || principal != ""
      ensures made.Ok? ==> got == made && listed.Ok? && made.value in listed.value && made.value.owner == principal
      ensures made.Ok? && other != principal ==> denied == Error(PermissionDenied)
    {
      made := CreateReport(principal, TYPE_TODO_SUMMARY, id, now, Acked);
      got := GetReport(principal, Some(id), true);
      listed := ListReports(principal, true);
      denied := GetReport(other, Some(id), true);
    }

    /** One Generate, with the fate of each call given. */
    method Generate(id: ReportId, info: Option<AttemptInfo>, f: Fates, claimAt: Time, markAt: Time)
      returns (result: Result)
      requires store.Valid()
      modifies store
      ensures store.Valid()
      ensures var last := info.Some? && info.value.attempt >= info.value.maxAttempts;
              (store.reports, result) == Generated(lease, old(store.reports), id, last, f, claimAt, markAt)
    {
      if !f.read.Acked? {
        return RetryableError;
      }
      var got := store.GetReportByID(id);
      if got.None? {
        return Nil;
      }
      var r := got.value;
      match r.status {
        case Pending =>
        case Processing =>
        case _ => return Nil;
      }
      var claimed: Option<Report> := None;
      if !f.claim.Refused? {
        claimed := store.ClaimExecution(id, claimAt, claimAt - lease);
      }
      if !f.claim.Acked? {
        return RetryableError;
      }
      if claimed.None? {
        return Nil;
      }
      if !SupportedType(r.kind) {
        if !f.mark.Refused? {
          var failed := store.MarkFailed(id, FAILURE_UNSUPPORTED_TYPE, REASON_UNSUPPORTED_TYPE, markAt);
        }
        return Nil;
      }
      if f.summary.None? {
        result := HandleRetryable(id, info, f.mark, markAt);
        return;
      }
      if !f.mark.Refused? {
        var completed := store.MarkCompleted(id, FormatResult(f.summary.value), markAt);
      }
      result := if f.mark.Acked? then Nil else RetryableError;
    }

    method HandleRetryable(id: ReportId, info: Option<AttemptInfo>, mark: Call, markAt: Time) returns (result: Result)
      requires store.Valid()
      modifies store
      ensures store.Valid()
      ensures result == if info.Some? && info.value.attempt >= info.value.maxAttempts then Nil else RetryableError
      ensures id !in old(store.reports) || !old(store.reports)[id].status.Processing? || mark.Refused? ==>
                store.reports == old(store.reports)
      ensures id in old(store.reports) && old(store.reports)[id].status.Processing? && !mark.Refused? ==>
                store.reports == old(store.reports)[id :=
                  if info.Some? && info.value.attempt >= info.value.maxAttempts
                  then old(store.reports)[id].(status := Failed, failureCode := "RETRY_EXHAUSTED",
                    failureReason := "report generation failed after retries", completedAt := Some(markAt),
                    updatedAt := markAt, processingStartedAt := None)
                  else old(store.reports)[id].(status := Pending, failureCode := "", failureReason := "",
                    updatedAt := markAt, processingStartedAt := None)]
    {
      if info.Some? && info.value.attempt >= info.value.maxAttempts {
        if !mark.Refused? {
          var failed := store.MarkFailed(id, FAILURE_RETRY_EXHAUSTED, REASON_RETRY_EXHAUSTED, markAt);
        }
        return Nil;
      }
      if !mark.Refused? {
        var returned := store.MarkPendingRetry(id, markAt);
      }
      result := RetryableError;
    }

    /** Generate, given the AttemptInfo of execution `e`, is what the handler of `e` does in the protocol when nobody
        interferes: same table, same result. */
    method GenerateAsHandler(c: Config, s: State, e: ExecId, f: Fates, d: nat) returns (result: Result)
      requires store.Valid() && store.reports == s.reports && lease == c.lease
      requires e in s.execs && s.execs[e].payload.Some? && s.execs[e].phase.Started?
      requires s.now + d <= s.execs[e].phase.deadline && (f.summary.Some? ==> f.summary.value == Count(s.todos))
      modifies store
      ensures EndsAs(c, s, HandlerSteps(c, s, e, f, d), e, store.reports, result, s.now + d)
    {
      HandlerIsGenerate(c, s, e, f, d);
      result := Generate(s.execs[e].payload.value, Some(InfoOf(s.execs[e])), f, s.now, s.now + d);
    }

    /** A report whose summary fails on every one of its `n` attempts: each but the last hands it back to pending and
        returns an error, and the last fails it and returns nil. */
    method FailEveryAttempt(id: ReportId, n: nat, at: Time) returns (results: seq<Result>)
      requires store.Valid() && n > 0
      requires id in store.reports && store.reports[id].status.Pending? && store.reports[id].kind == "todo-summary"
      modifies store
      ensures |results| == n && results[n - 1] == Nil && forall i :: 0 <= i < n - 1 ==> results[i] == RetryableError
      ensures id in store.reports && store.reports[id].status.Failed?
      ensures store.reports[id].failureCode == "RETRY_EXHAUSTED"
    {
      results := [];
      for i := 0 to n
        invariant store.Valid() && |results| == i && id in store.reports
        invariant i < n ==> store.reports[id].status.Pending? && store.reports[id].kind == "todo-summary"
        invariant i == n ==> store.reports[id].status.Failed? && store.reports[id].failureCode == "RETRY_EXHAUSTED"
        invariant forall k :: 0 <= k < i ==> results[k] == if k == n - 1 then Nil else RetryableError
      {
        var result := Generate(id, Some(AttemptInfo(i + 1, n)), Quiet(None), at, at);
        results := results + [result];
      }
    }

    /** One reconcile pass asks exactly once for each report that is pending and has not changed for longer than the
        threshold, and for no other; a request that fails is skipped and affects no other. When the store call fails
        (`up` is false) the pass asks for nothing and returns the error. */
    method ReconcilePending(now: Time, up: bool) returns (asked: seq<ReportId>, ok: bool)
      requires store.Valid()
      modifies enqueue
      ensures enqueue.attempted == old(enqueue.attempted) + asked
      ensures forall i, j :: 0 <= i < j < |asked| ==> asked[i] != asked[j]
      ensures ok == up
      ensures forall id :: id in asked <==>
        && ok && id in store.reports && store.reports[id].status.Pending?
        && store.reports[id].updatedAt < now - reconcileAfter
      ensures enqueue.accepted == old(enqueue.accepted) + Through(asked, enqueue.down)
    {
      asked, ok := [], up;
      if !up {
        return;
      }
      var list := store.ListPendingOlderThan(now - reconcileAfter);
      for i := 0 to |list|
        invariant |asked| == i && forall k :: 0 <= k < i ==> asked[k] == list[k].id
        invariant enqueue.attempted == old(enqueue.attempted) + asked
        invariant enqueue.accepted == old(enqueue.accepted) + Through(asked, enqueue.down)
      {
        var sent := enqueue.Enqueue(list[i].id);
        asked := asked + [list[i].id];
        assert asked[..|asked| - 1] == asked[..i];
      }
      AskedForListed(list, asked, store.reports, now - reconcileAfter);
    }
  }
}
