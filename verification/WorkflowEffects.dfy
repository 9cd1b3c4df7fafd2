/** When each workflow transaction goes through, and what it leaves behind. */
module WorkflowEffects {
  import opened Options
  import opened Types
  import opened Drafts
  import opened Workflow
  import W = WorkflowProofs

  // ---- the statuses and roles of the rules, named here independently of the transactions

  predicate Over(r: Repair) {
    r.status in {Completed, Cancelled}
  }

  predicate UnderWay(r: Repair) {
    r.status in {Scheduled, InProgress}
  }

  /** The tenant asked for this repair and pays for it, so the tenant reviews it. */
  predicate ForTenant(r: Repair) {
    r.costBearer == Some(TenantPays) && r.tenantInitiated
  }

  predicate PayerKnown(r: Repair) {
    r.costBearer in {Some(LandlordPays), Some(TenantPays)}
  }

  predicate InStatus(r: Repair, e: nat, status: EstimateStatus) {
    e < |r.estimates| && r.estimates[e].status == status
  }

  predicate Any(r: Repair, status: EstimateStatus) {
    exists k :: 0 <= k < |r.estimates| && r.estimates[k].status == status
  }

  /** Nothing is in the way of starting or reporting work. */
  predicate NothingPending(r: Repair) {
    !Any(r, Draft) && !Any(r, Submitted) && !Any(r, VisitScheduled) && !Any(r, RevisionRequested)
  }

  predicate IntegerColumn(n: int) {
    0 < n <= 0x7fff_ffff
  }

  /** What the vendor may save: any visit or refusal, and a list of lines that fit their columns. */
  predicate Acceptable(input: DraftInput) {
    match input
    case FixedInput(lines, duration) =>
      && lines != [] && (duration.Some? ==> IntegerColumn(duration.value))
      && (forall k :: 0 <= k < |lines| ==>
            IntegerColumn(lines[k].quantity) && IntegerColumn(lines[k].unitAmount) && IntegerColumn(lines[k].quantity * lines[k].unitAmount))
      && IntegerColumn(Total(lines))
    case VisitInput(_) => true
    case DeclineInput => true
  }

  function Stored(input: DraftInput): Content {
    match input
    case FixedInput(lines, _) => Fixed(lines, Total(lines))
    case VisitInput(at) => Visit(at)
    case DeclineInput => Decline
  }

  lemma {:induction false} NormalizeMeans(input: DraftInput)
    ensures Normalize(input) == if Acceptable(input) then Some(Stored(input)) else None
  {
    if input.FixedInput? {
      NormalizeAccepts(input.lines, input.durationMinutes);
      forall k | 0 <= k < |input.lines| && IntegerColumn(input.lines[k].quantity) && IntegerColumn(input.lines[k].unitAmount)
        ensures IntegerColumn(input.lines[k].quantity * input.lines[k].unitAmount) <==> LineAllowed(input.lines[k])
      {
        ProductAtLeastOne(input.lines[k].quantity, input.lines[k].unitAmount);
      }
      if Normalize(input).Some? {
        TotalIsPositive(input.lines);
      }
    }
  }

  // ---- estimates

  /** A saved draft is the newest estimate and holds exactly the input; every earlier version is as it
      was, except that an unanswered visit or rejection right below it is superseded. */
  lemma SaveDraftEffect(r: Repair, vendor: nat, estimate: Option<nat>, input: DraftInput)
    requires W.WorkflowOk(r)
    ensures var n := |r.estimates|;
            SaveDraft(r, vendor, estimate, input).Some? <==>
            && Acceptable(input) && vendor == r.vendor && !Over(r) && r.request.None?
            && (estimate.Some? ==> InStatus(r, estimate.value, Draft))
            && (estimate.None? && n > 0 ==> r.estimates[n - 1].status != Submitted)
    ensures SaveDraft(r, vendor, estimate, input).Some? ==>
              var r' := SaveDraft(r, vendor, estimate, input).value;
              var n, n' := |r.estimates|, |r'.estimates|;
              var rewritten := n > 0 && r.estimates[n - 1].status == Draft;
              && r' == r.(estimates := r'.estimates)
              && n' == (if rewritten then n else n + 1)
              && r'.estimates[n' - 1]
                 == (if rewritten then r.estimates[n - 1].(content := Stored(input)) else Estimate(n', Draft, Stored(input), None, None))
              && (forall k :: 0 <= k < n' - 2 ==> r'.estimates[k] == r.estimates[k])
              && (n' >= 2 ==>
                    var below := r.estimates[n' - 2];
                    r'.estimates[n' - 2] == if n' == n + 1 && below.status in {VisitScheduled, Rejected}
                                            then below.(status := Superseded) else below)
  {
    hide Normalize, Acceptable, Stored, W.ReportsOk, W.SnapshotOk, W.ReviewOk, W.AtMostOne, W.RevisionsAnswered;
    NormalizeMeans(input);
    W.LatestIsLast(r.estimates);
    var n := |r.estimates|;
    assert n > 0 ==> W.EstimateOk(r.estimates[n - 1]);
  }

  /** Submitting puts exactly this draft under review, or records its refusal; what asked for a
      revision of an older version is answered. A refusal cancels the repair and every approval. */
  lemma SubmitEffect(r: Repair, vendor: nat, e: nat)
    requires W.WorkflowOk(r) && InStatus(r, e, Draft)
    ensures SubmitEstimate(r, vendor, e).Some? <==>
            vendor == r.vendor && !Over(r) && r.request.None? && !(r.estimates[e].content == Decline && UnderWay(r))
    ensures SubmitEstimate(r, vendor, e).Some? ==>
              var r' := SubmitEstimate(r, vendor, e).value;
              var declined := r.estimates[e].content == Decline;
              && |r'.estimates| == |r.estimates|
              && r'.estimates[e] == r.estimates[e].(status := if declined then VendorDeclined else Submitted)
              && (forall k :: 0 <= k < |r.estimates| && k != e ==>
                    r'.estimates[k] == if r.estimates[k].status == RevisionRequested || (declined && r.estimates[k].status == Approved)
                                       then r.estimates[k].(status := Superseded) else r.estimates[k])
              && r' == r.(estimates := r'.estimates,
                          status := if declined then Cancelled else if UnderWay(r) then r.status else EstimateSubmitted,
                          costBearer := if declined then None else r.costBearer)
  {
    hide W.ReportsOk, W.SnapshotOk, W.ReviewOk, W.AtMostOne, W.RevisionsAnswered;
    assert e == |r.estimates| - 1;
  }

  /** Submitting anything but a draft again changes nothing, and a withdrawn estimate cannot be
      submitted any more. */
  lemma ResubmitEffect(r: Repair, vendor: nat, e: nat)
    requires !InStatus(r, e, Draft)
    ensures SubmitEstimate(r, vendor, e)
            == if vendor == r.vendor && !Over(r) && e < |r.estimates| && !InStatus(r, e, Withdrawn) then Some(r) else None
  {
  }

  /** Where a repair goes when the estimate under review leaves it. */
  predicate FallsBack(r: Repair, r': Repair, e: nat) {
    if UnderWay(r) then (r'.status, r'.costBearer) == (r.status, r.costBearer)
    else if exists k :: 0 <= k < |r.estimates| && k != e && r.estimates[k].status == Approved
    then (r'.status, r'.costBearer) == (EstimateApproved, r.costBearer)
    else (r'.status, r'.costBearer) == (Requested, None)
  }

  lemma WithdrawEffect(r: Repair, vendor: nat, e: nat)
    requires W.WorkflowOk(r)
    ensures WithdrawEstimate(r, vendor, e).Some? <==>
            && vendor == r.vendor
            && (InStatus(r, e, Withdrawn) || (r.request.None? && (InStatus(r, e, Draft) || InStatus(r, e, Submitted))))
    ensures WithdrawEstimate(r, vendor, e).Some? ==>
              var r' := WithdrawEstimate(r, vendor, e).value;
              if InStatus(r, e, Withdrawn) then r' == r
              else
                && r' == r.(estimates := r.estimates[e := r.estimates[e].(status := Withdrawn)], status := r'.status, costBearer := r'.costBearer)
                && (r.status == EstimateSubmitted ==> FallsBack(r, r', e))
                && (r.status != EstimateSubmitted ==> (r'.status, r'.costBearer) == (r.status, r.costBearer))
  {
    hide W.ReportsOk, W.SnapshotOk, W.ReviewOk, W.AtMostOne, W.RevisionsAnswered, W.VersionsOk, W.OpenIsNewest;
    if e < |r.estimates| {
      assert W.EstimateOk(r.estimates[e]);
      var estimates := r.estimates[e := r.estimates[e].(status := Withdrawn)];
      assert forall k :: 0 <= k < |r.estimates| && k != e ==> estimates[k] == r.estimates[k];
    }
  }

  /** What a review writes on the reviewed row. */
  predicate ReviewedBy(e: Estimate, e': Estimate, status: EstimateStatus, party: Party, note: Option<string>) {
    e' == e.(status := status, reviewedBy := Some(party), note := note)
  }

  function Outcome(review: Review): EstimateStatus {
    if review.Approve? then Approved else if review.RequestRevision? then RevisionRequested else Rejected
  }

  /** A fresh review by the manager: an approval makes this the only approved estimate and fixes who
      pays; a rejection lets the repair fall back; a revision request changes nothing else. */
  lemma ReviewEffect(r: Repair, manager: nat, e: nat, review: Review, note: Option<string>)
    requires W.WorkflowOk(r) && InStatus(r, e, Submitted)
    ensures ReviewEstimate(r, manager, e, review, note).Some? <==>
            && manager == r.manager && !ForTenant(r) && r.request.None?
            && (review.Approve? ==> r.estimates[e].content.Fixed?) && (!review.Approve? ==> note.Some?)
    ensures ReviewEstimate(r, manager, e, review, note).Some? ==>
              var r' := ReviewEstimate(r, manager, e, review, note).value;
              && |r'.estimates| == |r.estimates|
              && ReviewedBy(r.estimates[e], r'.estimates[e], Outcome(review), Manager, note)
              && (forall k :: 0 <= k < |r.estimates| && k != e ==>
                    r'.estimates[k] == if review.Approve? && r.estimates[k].status == Approved
                                       then r.estimates[k].(status := Superseded) else r.estimates[k])
              && r' == r.(estimates := r'.estimates, status := r'.status, costBearer := r'.costBearer)
              && match review
                 case Approve(bearer) =>
                   r'.costBearer == Some(bearer) && r'.status == if UnderWay(r) then r.status else EstimateApproved
                 case RequestRevision => (r'.status, r'.costBearer) == (r.status, r.costBearer)
                 case Reject => FallsBack(r, r', e)
  {
    hide W.ReportsOk, W.SnapshotOk, W.AtMostOne, W.RevisionsAnswered, W.VersionsOk, W.OpenIsNewest;
    if review.Reject? {
      var estimates := Reviewed(r.estimates, e, Rejected, Manager, note);
      assert forall k :: 0 <= k < |r.estimates| && k != e ==> estimates[k] == r.estimates[k];
    }
  }

  /** The same review of an estimate that is no longer submitted changes nothing; every other one is
      refused. */
  lemma RepeatedReviewEffect(r: Repair, manager: nat, e: nat, review: Review, note: Option<string>)
    requires !InStatus(r, e, Submitted)
    ensures ReviewEstimate(r, manager, e, review, note)
            == if manager == r.manager && !ForTenant(r) && !Over(r) && InStatus(r, e, Outcome(review))
                  && r.estimates[e].note == note && r.estimates[e].reviewedBy == Some(Manager)
                  && (review.Approve? ==> r.costBearer == Some(review.bearer))
               then Some(r) else None
  {
  }

  /** A fresh review by the tenant of a repair that the tenant requested and bears. */
  lemma TenantReviewEffect(r: Repair, tenant: nat, e: nat, approve: bool, note: Option<string>)
    requires W.WorkflowOk(r) && InStatus(r, e, Submitted)
    ensures ReviewTenantEstimate(r, tenant, e, approve, note).Some? <==>
            tenant == r.tenant && ForTenant(r) && r.request.None? && (approve ==> r.estimates[e].content.Fixed?) && (!approve ==> note.Some?)
    ensures ReviewTenantEstimate(r, tenant, e, approve, note).Some? ==>
              var r' := ReviewTenantEstimate(r, tenant, e, approve, note).value;
              && |r'.estimates| == |r.estimates|
              && ReviewedBy(r.estimates[e], r'.estimates[e], if approve then Approved else RevisionRequested, Tenant, note)
              && (forall k :: 0 <= k < |r.estimates| && k != e ==>
                    r'.estimates[k] == if approve && r.estimates[k].status == Approved
                                       then r.estimates[k].(status := Superseded) else r.estimates[k])
              && r' == r.(estimates := r'.estimates, status := if approve then EstimateApproved else r.status,
                          costBearer := if approve then Some(TenantPays) else r.costBearer)
  {
    hide W.ReportsOk, W.SnapshotOk, W.AtMostOne, W.RevisionsAnswered, W.VersionsOk, W.OpenIsNewest;
  }

  lemma RepeatedTenantReviewEffect(r: Repair, tenant: nat, e: nat, approve: bool, note: Option<string>)
    requires !InStatus(r, e, Submitted)
    ensures ReviewTenantEstimate(r, tenant, e, approve, note)
            == if tenant == r.tenant && ForTenant(r) && !Over(r) && (approve || note.Some?)
                  && InStatus(r, e, if approve then Approved else RevisionRequested)
                  && r.estimates[e].note == note && r.estimates[e].reviewedBy == Some(Tenant)
               then Some(r) else None
  {
  }

  /** A proposed visit can be confirmed exactly by the party that reviews, for the proposed time,
      while it is the newest estimate; its repair is then open without any check of that. Confirming it
      again for the same time changes nothing. */
  lemma VisitEffect(r: Repair, party: Party, actor: nat, e: nat, at: int)
    requires W.WorkflowOk(r)
    ensures ConfirmVisit(r, party, actor, e, at).Some? <==>
            && e == |r.estimates| - 1 && r.estimates[e].content == Visit(at)
            && (party == Manager ==> actor == r.manager && !ForTenant(r)) && (party == Tenant ==> actor == r.tenant && ForTenant(r))
            && (InStatus(r, e, Submitted)
                || (InStatus(r, e, VisitScheduled) && r.scheduledAt == Some(at) && (party == Tenant ==> r.estimates[e].reviewedBy == Some(Tenant))))
    ensures ConfirmVisit(r, party, actor, e, at).Some? ==>
              if InStatus(r, e, Submitted) then
                && !Over(r)
                && ConfirmVisit(r, party, actor, e, at).value
                   == r.(estimates := r.estimates[e := r.estimates[e].(status := VisitScheduled, reviewedBy := Some(party))],
                         status := Scheduled, scheduledAt := Some(at))
              else ConfirmVisit(r, party, actor, e, at).value == r
  {
    hide W.ReportsOk, W.SnapshotOk, W.AtMostOne, W.RevisionsAnswered;
    W.LatestIsLast(r.estimates);
  }

  // ---- work

  lemma ApprovedFound(r: Repair)
    requires W.WorkflowOk(r)
    ensures FindApproved(r.estimates, None).Some? <==> Any(r, Approved)
    ensures HasPending(r.estimates) <==> !NothingPending(r)
    ensures FindApproved(r.estimates, None).Some? ==> r.estimates[FindApproved(r.estimates, None).value].content.total > 0
  {
    hide W.ReportsOk, W.SnapshotOk, W.AtMostOne, W.RevisionsAnswered, W.VersionsOk, W.OpenIsNewest, W.ReviewOk;
    forall k | 0 <= k < |r.estimates| ensures W.EstimateOk(r.estimates[k]) {
    }
    forall k | 0 <= k < |r.estimates| && r.estimates[k].status == Approved ensures ApprovedFixed(r.estimates[k], None) {
    }
  }

  /** Work can be scheduled from an approved estimate once nothing is under review; the same date again
      changes nothing. */
  lemma ScheduleEffect(r: Repair, vendor: nat, at: int)
    requires W.WorkflowOk(r)
    ensures ScheduleApproved(r, vendor, at)
            == if vendor != r.vendor || !PayerKnown(r) then None
               else if r.status == Scheduled then if r.scheduledAt == Some(at) then Some(r) else None
               else if r.status == EstimateApproved && Any(r, Approved) && !Any(r, Submitted) && !Any(r, RevisionRequested)
               then Some(r.(status := Scheduled, scheduledAt := Some(at))) else None
  {
    hide W.WorkflowOk;
    ApprovedFound(r);
  }

  /** Work can be started from a schedule once nothing at all is pending; a started job keeps its time,
      and one without a time gets it. */
  lemma StartEffect(r: Repair, vendor: nat, now: int)
    requires W.WorkflowOk(r)
    ensures StartJob(r, vendor, now)
            == if vendor == r.vendor && PayerKnown(r) && Any(r, Approved) && NothingPending(r) && UnderWay(r)
               then Some(if r.status == InProgress && r.startedAt.Some? then r else r.(status := InProgress, startedAt := Some(now)))
               else None
  {
    hide W.WorkflowOk, HasPending, NothingPending, Any;
    ApprovedFound(r);
  }

  /** The approved fixed estimate is unique, so looking for the newest one finds the only one. */
  lemma ApprovedIsUnique(estimates: seq<Estimate>, k: nat)
    requires W.EstimatesOk(estimates) && k < |estimates| && estimates[k].status == Approved
    ensures FindApproved(estimates, None) == Some(k)
  {
    assert W.EstimateOk(estimates[k]);
    assert ApprovedFixed(estimates[k], None);
  }

  // ---- completion

  /** What a report of finished work needs; the amount and the link to an earlier request never fail. */
  predicate Reportable(r: Repair, vendor: nat, completedAt: int, now: int) {
    && vendor == r.vendor && PayerKnown(r) && r.status == InProgress
    && r.startedAt.Some? && r.startedAt.value <= completedAt <= now
    && NothingPending(r) && (r.costBearer == Some(LandlordPays) ==> Any(r, Approved))
    && (r.reports != [] ==> r.reports[|r.reports| - 1].decision.Some?)
  }

  /** A report of work that the landlord pays opens the payment request over the approved total, or
      links the waiting one to this report; a report of work that the tenant pays opens none. */
  lemma ReportEffect(r: Repair, vendor: nat, completedAt: int, now: int)
    requires W.WorkflowOk(r)
    ensures SubmitCompletion(r, vendor, completedAt, now).Some? <==> Reportable(r, vendor, completedAt, now)
    ensures SubmitCompletion(r, vendor, completedAt, now).Some? ==>
              var r' := SubmitCompletion(r, vendor, completedAt, now).value;
              && r' == r.(reports := r.reports + [Report(completedAt, None)], status := CompletionReported, request := r'.request)
              && (r.costBearer == Some(TenantPays) ==> r'.request.None?)
              && (r.costBearer == Some(LandlordPays) ==>
                    && r'.request.Some?
                    && var q := r'.request.value;
                       && InStatus(r, q.estimate, Approved) && q.amount == r.estimates[q.estimate].content.total
                       && q == (if r.request.Some? then r.request.value.(report := |r.reports|)
                                else Request(Manager, q.amount, q.estimate, |r.reports|, None, WaitingCompletion,
                                             None, None, None, None, [], [], {}, [])))
  {
    hide W.ReviewOk, W.RevisionsAnswered, HasPending, NothingPending, Any;
    ApprovedFound(r);
    if r.request.Some? && r.request.value.estimate < |r.estimates| {
      ApprovedIsUnique(r.estimates, r.request.value.estimate);
    }
    hide W.EstimatesOk;
  }

  /** The first decision on a report: approval completes the repair and is recorded on the payment
      request; rejection sends the work back. */
  lemma DecisionEffect(r: Repair, manager: nat, approved: bool, note: Option<string>, now: int)
    requires W.WorkflowOk(r) && r.reports != [] && r.reports[|r.reports| - 1].decision.None?
    ensures DecideCompletion(r, manager, approved, note, now).Some? <==>
            && (approved || note.Some?) && manager == r.manager && !ForTenant(r) && (approved ==> PayerKnown(r))
            && r.status == CompletionReported
    ensures DecideCompletion(r, manager, approved, note, now).Some? ==>
              var n := |r.reports| - 1;
              DecideCompletion(r, manager, approved, note, now).value
              == r.(status := if approved then Completed else InProgress,
                    reports := r.reports[n := Report(r.reports[n].completedAt, Some(Decision(Manager, approved, note, now)))],
                    request := if r.request.Some? && approved then Some(r.request.value.(decision := Some(n))) else r.request)
  {
    hide W.EstimatesOk, W.RevisionsAnswered, W.ReviewOk;
  }

  /** The same decision again changes nothing, a different one is refused, and nothing can be decided
      without a report. */
  lemma RepeatedDecisionEffect(r: Repair, manager: nat, approved: bool, note: Option<string>, now: int)
    requires r.reports != [] ==> r.reports[|r.reports| - 1].decision.Some?
    ensures var made := if r.reports == [] then None else r.reports[|r.reports| - 1].decision;
            DecideCompletion(r, manager, approved, note, now)
            == if (approved || note.Some?) && manager == r.manager && !ForTenant(r) && (approved ==> PayerKnown(r))
                  && made.Some? && made.value == Decision(Manager, approved, note, made.value.at)
               then Some(r) else None
    ensures var made := if r.reports == [] then None else r.reports[|r.reports| - 1].decision;
            DecideTenantCompletion(r, manager, approved, note, now)
            == if (approved || note.Some?) && manager == r.tenant && ForTenant(r)
                  && made.Some? && made.value == Decision(Tenant, approved, note, made.value.at)
               then Some(r) else None
  {
  }

  /** The tenant's first decision: approval completes the repair and opens a request that the tenant
      pays, over the estimate that the tenant approved; rejection sends the work back. */
  lemma TenantDecisionEffect(r: Repair, tenant: nat, approved: bool, note: Option<string>, now: int)
    requires W.WorkflowOk(r) && r.reports != [] && r.reports[|r.reports| - 1].decision.None?
    ensures DecideTenantCompletion(r, tenant, approved, note, now).Some? <==>
            && (approved || note.Some?) && tenant == r.tenant && ForTenant(r) && r.status == CompletionReported && r.request.None?
            && (approved ==> exists k :: 0 <= k < |r.estimates| && r.estimates[k].status == Approved && r.estimates[k].reviewedBy == Some(Tenant))
    ensures DecideTenantCompletion(r, tenant, approved, note, now).Some? ==>
              var r' := DecideTenantCompletion(r, tenant, approved, note, now).value;
              var n := |r.reports| - 1;
              && r' == r.(status := if approved then Completed else InProgress,
                          reports := r.reports[n := Report(r.reports[n].completedAt, Some(Decision(Tenant, approved, note, now)))],
                          request := r'.request)
              && (!approved ==> r'.request.None?)
              && (approved ==>
                    && r'.request.Some?
                    && var q := r'.request.value;
                       && InStatus(r, q.estimate, Approved) && r.estimates[q.estimate].reviewedBy == Some(Tenant)
                       && q == Request(Tenant, r.estimates[q.estimate].content.total, q.estimate, n, None, PendingApproval,
                                       None, None, None, None, [], [], {}, []))
  {
    hide W.RevisionsAnswered, W.ReviewOk, W.VersionsOk, W.OpenIsNewest, W.AtMostOne;
    forall k | 0 <= k < |r.estimates| && r.estimates[k].status == Approved
      ensures r.estimates[k].content.Fixed? && r.estimates[k].content.total > 0
    {
      assert W.EstimateOk(r.estimates[k]);
    }
    hide W.EstimatesOk;
  }
}
