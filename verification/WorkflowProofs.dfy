/** What every vendor-workflow transaction keeps. */
module WorkflowProofs {
  import opened Options
  import opened Types
  import opened Drafts
  import opened Workflow

  // ---- the invariant of one repair

  /** Versions are 1..n without gaps. */
  predicate VersionsOk(estimates: seq<Estimate>) {
    forall k :: 0 <= k < |estimates| ==> estimates[k].version == k + 1
  }

  predicate OpenEstimate(status: EstimateStatus) {
    status == Draft || status == Submitted || status == VisitScheduled
  }

  /** Only the newest estimate can be open, so at most one is. */
  predicate OpenIsNewest(estimates: seq<Estimate>) {
    forall k :: 0 <= k < |estimates| && OpenEstimate(estimates[k].status) ==> k == |estimates| - 1
  }

  predicate AtMostOne(estimates: seq<Estimate>, status: EstimateStatus) {
    forall j, k :: 0 <= j < k < |estimates| && estimates[j].status == status ==> estimates[k].status != status
  }

  predicate EstimateOk(e: Estimate) {
    && ContentOk(e.content)
    && (e.status == Approved ==> e.content.Fixed? && e.reviewedBy.Some?)
    && (e.status == VisitScheduled ==> e.content.Visit? && e.reviewedBy.Some?)
    && ((e.status == Draft || e.status == Submitted) ==> e.reviewedBy.None?)
    && (e.status == Submitted ==> !e.content.Decline?)
  }

  predicate EstimatesOk(estimates: seq<Estimate>) {
    && VersionsOk(estimates)
    && OpenIsNewest(estimates)
    && AtMostOne(estimates, Approved)
    && AtMostOne(estimates, RevisionRequested)
    && (forall k :: 0 <= k < |estimates| ==> EstimateOk(estimates[k]))
  }

  /** The fact that lets visit confirmation and withdrawal skip the closed check: while an
      estimate is under review its repair is open. */
  predicate ReviewOk(estimates: seq<Estimate>, status: RepairStatus) {
    forall k :: 0 <= k < |estimates| && estimates[k].status == Submitted ==>
      status == EstimateSubmitted || status == Scheduled || status == InProgress
  }

  /** A submitted estimate leaves no revision request behind it. */
  predicate RevisionsAnswered(estimates: seq<Estimate>) {
    forall k :: 0 <= k < |estimates| && estimates[k].status == RevisionRequested ==>
      estimates[|estimates| - 1].status != Submitted
  }

  predicate ReportsOk(r: Repair) {
    && (forall k :: 0 <= k < |r.reports| - 1 ==> r.reports[k].decision.Some? && !r.reports[k].decision.value.approved)
    && (r.status == Completed <==> LastApproved(r))
    && (r.status == CompletionReported ==> r.reports != [] && r.reports[|r.reports| - 1].decision.None?)
  }

  /** The payment request against the estimate, report and decision that it snapshots. */
  predicate SnapshotOk(r: Repair) {
    r.request.Some? ==>
      var q := r.request.value;
      && q.estimate < |r.estimates|
      && r.estimates[q.estimate].status == Approved
      && r.estimates[q.estimate].content.Fixed?
      && r.estimates[q.estimate].content.total == q.amount
      && r.reports != [] && q.report == |r.reports| - 1
      && (q.decision.None? && q.payer == Manager ==> q.status == WaitingCompletion && !LastApproved(r))
      && match q.payer
         case Manager =>
           && r.costBearer == Some(LandlordPays)
           && !HasPending(r.estimates)
           && (r.status == InProgress || r.status == CompletionReported || r.status == Completed)
           && (q.decision.Some? ==>
                 && q.decision.value == q.report
                 && LastApproved(r)
                 && r.reports[q.report].decision.value.source == Manager)
         case Tenant =>
           && r.costBearer == Some(TenantPays)
           && r.tenantInitiated
           && r.estimates[q.estimate].reviewedBy == Some(Tenant)
           && q.decision.None?
           && r.status == Completed
           && LastApproved(r)
           && r.reports[q.report].decision.value.source == Tenant
  }

  predicate WorkflowOk(r: Repair) {
    EstimatesOk(r.estimates) && RevisionsAnswered(r.estimates) && ReviewOk(r.estimates, r.status) && ReportsOk(r) && SnapshotOk(r)
  }

  // ---- what never changes from one state of a repair to a later one

  /** Neither a draft nor under review: an estimate that has got there never goes back. */
  predicate Answered(e: Estimate) {
    e.status != Draft && e.status != Submitted
  }

  predicate EstimateContinues(e: Estimate, e': Estimate) {
    && e'.version == e.version
    && (e.status != Draft ==> e'.content == e.content && e'.status != Draft)
    && (Answered(e) ==> Answered(e'))
  }

  predicate EstimatesContinue(before: seq<Estimate>, after: seq<Estimate>) {
    && |before| <= |after|
    && forall k :: 0 <= k < |before| ==> EstimateContinues(before[k], after[k])
  }

  predicate RequestContinues(r: Repair, r': Repair)
    requires r.request.Some? ==> r.request.value.estimate < |r.estimates| <= |r'.estimates|
  {
    r.request.Some? ==>
      var q := r.request.value;
      && r'.request.Some?
      && var q' := r'.request.value;
      && q'.payer == q.payer && q'.amount == q.amount && q'.estimate == q.estimate
      && r'.estimates[q.estimate] == r.estimates[q.estimate]
      && (q.status != WaitingCompletion ==> q'.status != WaitingCompletion)
      && (q.decision.Some? ==> q'.decision == q.decision && q'.report == q.report)
      && r'.costBearer == r.costBearer
  }

  predicate Continues(r: Repair, r': Repair) {
    && (r'.ticket, r'.vendor, r'.manager, r'.tenant, r'.tenantInitiated)
       == (r.ticket, r.vendor, r.manager, r.tenant, r.tenantInitiated)
    && (Closed(r.status) ==> r'.status == r.status)
    && EstimatesContinue(r.estimates, r'.estimates)
    && |r.reports| <= |r'.reports|
    && (forall k :: 0 <= k < |r.reports| && r.reports[k].decision.Some? ==> r'.reports[k] == r.reports[k])
    && (r.request.Some? ==> r.request.value.estimate < |r.estimates|)
    && RequestContinues(r, r')
  }

  predicate Keeps(r: Repair, next: Option<Repair>) {
    next.Some? ==> WorkflowOk(next.value) && Continues(r, next.value)
  }

  lemma {:induction false} ContinuesTransitive(a: Repair, b: Repair, c: Repair)
    requires Continues(a, b) && Continues(b, c)
    ensures Continues(a, c)
  {
    forall k | 0 <= k < |a.estimates| ensures EstimateContinues(a.estimates[k], c.estimates[k]) {
      assert EstimateContinues(a.estimates[k], b.estimates[k]) && EstimateContinues(b.estimates[k], c.estimates[k]);
    }
  }

  // ---- the newest version is the last row

  lemma {:induction false} LatestIsLast(estimates: seq<Estimate>)
    requires VersionsOk(estimates)
    ensures Latest(estimates) == if estimates == [] then None else Some(|estimates| - 1)
  {
    if estimates == [] {
    } else {
      LatestIsLast(estimates[..|estimates| - 1]);
    }
  }

  // ---- estimate rows

  /** Marking rows as superseded keeps the rows in order. */
  predicate Marked(before: seq<Estimate>, after: seq<Estimate>) {
    && |after| == |before|
    && forall k :: 0 <= k < |before| ==> after[k] == before[k] || after[k] == before[k].(status := Superseded)
  }

  lemma {:induction false} MarkedOk(before: seq<Estimate>, after: seq<Estimate>)
    requires EstimatesOk(before) && Marked(before, after)
    ensures EstimatesOk(after)
  {
  }

  /** When one row may be replaced. */
  predicate Replaceable(estimates: seq<Estimate>, e: nat, row: Estimate)
    requires e < |estimates|
  {
    && EstimateOk(row) && row.version == estimates[e].version
    && (OpenEstimate(row.status) ==> e == |estimates| - 1)
    && ((row.status == Approved || row.status == RevisionRequested) ==>
          forall k :: 0 <= k < |estimates| && k != e ==> estimates[k].status != row.status)
  }

  lemma {:induction false} ReplaceOk(estimates: seq<Estimate>, e: nat, row: Estimate)
    requires EstimatesOk(estimates) && e < |estimates| && Replaceable(estimates, e, row)
    ensures EstimatesOk(estimates[e := row])
  {
  }

  lemma {:induction false} AppendOk(estimates: seq<Estimate>, content: Content)
    requires EstimatesOk(estimates) && ContentOk(content)
    requires estimates != [] ==> !OpenEstimate(estimates[|estimates| - 1].status)
    ensures EstimatesOk(estimates + [NewDraft(|estimates| + 1, content)])
  {
  }

  /** Reviewing the submitted estimate, with older approvals superseded first. */
  lemma {:induction false} ReviewedOk(r: Repair, e: nat, status: EstimateStatus, party: Party, note: Option<string>)
    requires EstimatesOk(r.estimates) && RevisionsAnswered(r.estimates)
    requires e < |r.estimates| && r.estimates[e].status == Submitted
    requires status == Approved || status == RevisionRequested || status == Rejected
    ensures var cleared := SupersedeApproved(r.estimates, e);
            status == Approved && r.estimates[e].content.Fixed? ==> EstimatesOk(Reviewed(cleared, e, status, party, note))
    ensures status != Approved ==> EstimatesOk(Reviewed(r.estimates, e, status, party, note))
  {
    var row := r.estimates[e].(status := status, reviewedBy := Some(party), note := note);
    if status != Approved {
      ReplaceOk(r.estimates, e, row);
    } else if row.content.Fixed? {
      var cleared := SupersedeApproved(r.estimates, e);
      MarkedOk(r.estimates, cleared);
      ReplaceOk(cleared, e, row);
    }
  }

  // ---- every transaction

  lemma {:induction false} WithDraftOk(estimates: seq<Estimate>, estimate: Option<nat>, content: Content)
    requires EstimatesOk(estimates) && ContentOk(content) && WithDraft(estimates, estimate, content).Some?
    ensures var after := WithDraft(estimates, estimate, content).value;
            && EstimatesOk(after) && EstimatesContinue(estimates, after)
            && forall k :: 0 <= k < |after| ==>
                 && after[k].status != Submitted
                 && (after[k].status == RevisionRequested ==> k < |estimates| && estimates[k].status == RevisionRequested)
  {
    LatestIsLast(estimates);
    DraftContinues(estimates, estimate, content);
    hide EstimatesContinue;
    var n := |estimates| - 1;
    if estimates == [] {
      AppendOk(estimates, content);
    } else if estimates[n].status == Draft {
      ReplaceOk(estimates, n, estimates[n].(content := content));
    } else {
      var kept := if estimates[n].status == VisitScheduled || estimates[n].status == Rejected
                  then estimates[n := estimates[n].(status := Superseded)] else estimates;
      MarkedOk(estimates, kept);
      AppendOk(kept, content);
    }
  }

  lemma DraftContinues(estimates: seq<Estimate>, estimate: Option<nat>, content: Content)
    ensures var after := WithDraft(estimates, estimate, content); after.Some? ==> EstimatesContinue(estimates, after.value)
  {
    hide Latest;
  }

  lemma {:induction false} SaveDraftKeeps(r: Repair, vendor: nat, estimate: Option<nat>, input: DraftInput)
    requires WorkflowOk(r)
    ensures Keeps(r, SaveDraft(r, vendor, estimate, input))
  {
    if SaveDraft(r, vendor, estimate, input).Some? {
      NormalizedContentOk(input);
      WithDraftOk(r.estimates, estimate, Normalize(input).value);
    }
  }

  lemma {:induction false} WithSubmittedOk(estimates: seq<Estimate>, e: nat)
    requires EstimatesOk(estimates) && e < |estimates| && estimates[e].status == Draft
    ensures var after := WithSubmitted(estimates, e);
            && EstimatesOk(after) && EstimatesContinue(estimates, after)
            && (estimates[e].content.Decline? ==> forall k :: 0 <= k < |after| ==> after[k].status != Submitted)
            && forall k :: 0 <= k < |after| ==> after[k].status != RevisionRequested
  {
    var row := estimates[e].(status := if estimates[e].content.Decline? then VendorDeclined else Submitted);
    var replaced := estimates[e := row];
    ReplaceOk(estimates, e, row);
    MarkedOk(replaced, SupersedeRevisions(replaced, row.version));
  }

  /** A change of estimates while there is no payment request. */
  lemma EstimatesMoved(r: Repair, r': Repair)
    requires WorkflowOk(r) && r.request.None? && !Closed(r.status)
    requires r' == r.(estimates := r'.estimates, status := r'.status, costBearer := r'.costBearer, scheduledAt := r'.scheduledAt)
    requires EstimatesOk(r'.estimates) && RevisionsAnswered(r'.estimates) && ReviewOk(r'.estimates, r'.status)
    requires EstimatesContinue(r.estimates, r'.estimates)
    requires r'.status == r.status || (r'.status != Completed && r'.status != CompletionReported)
    ensures Keeps(r, Some(r'))
  {
    hide EstimatesOk, RevisionsAnswered, ReviewOk, EstimatesContinue;
  }

  lemma {:induction false} SubmitEstimateKeeps(r: Repair, vendor: nat, e: nat)
    requires WorkflowOk(r)
    ensures Keeps(r, SubmitEstimate(r, vendor, e))
  {
    var next := SubmitEstimate(r, vendor, e);
    if next.Some? && r.estimates[e].status == Draft {
      hide ReportsOk, VersionsOk, AtMostOne, EstimateOk;
      WithSubmittedOk(r.estimates, e);
      var marked := WithSubmitted(r.estimates, e);
      MarkedOk(marked, SupersedeApproved(marked, |marked|));
      EstimatesMoved(r, next.value);
    }
  }

  lemma {:induction false} ApproveKeeps(r: Repair, e: nat, party: Party, note: Option<string>, bearer: CostBearer, status: RepairStatus)
    requires WorkflowOk(r) && !Closed(r.status) && r.request.None?
    requires e < |r.estimates| && r.estimates[e].status == Submitted && r.estimates[e].content.Fixed?
    requires status == r.status || status == EstimateApproved
    ensures Keeps(r, Some(r.(estimates := Reviewed(SupersedeApproved(r.estimates, e), e, Approved, party, note),
                             costBearer := Some(bearer), status := status)))
  {
    ReviewedOk(r, e, Approved, party, note);
  }

  lemma {:induction false} RestoreKeeps(r: Repair, r': Repair, e: nat)
    requires WorkflowOk(r) && r.request.None?
    requires e < |r.estimates| && OpenEstimate(r.estimates[e].status)
    requires r.status == EstimateSubmitted || Preserved(r.status)
    requires r' == r.(estimates := r'.estimates) && |r'.estimates| == |r.estimates|
    requires forall k :: 0 <= k < |r.estimates| && k != e ==> r'.estimates[k] == r.estimates[k]
    requires EstimateContinues(r.estimates[e], r'.estimates[e]) && EstimatesOk(r'.estimates)
    requires r'.estimates[e].status == Withdrawn || r'.estimates[e].status == Rejected
    ensures Keeps(r, Some(RestoreAfterExit(r', e)))
  {
    hide AtMostOne, EstimateOk, VersionsOk;
  }

  lemma {:induction false} WithdrawEstimateKeeps(r: Repair, vendor: nat, e: nat)
    requires WorkflowOk(r)
    ensures Keeps(r, WithdrawEstimate(r, vendor, e))
  {
    var next := WithdrawEstimate(r, vendor, e);
    if next.Some? && r.estimates[e].status != Withdrawn {
      var withdrawn := r.(estimates := r.estimates[e := r.estimates[e].(status := Withdrawn)]);
      ReplaceOk(r.estimates, e, withdrawn.estimates[e]);
      if r.status == EstimateSubmitted {
        RestoreKeeps(r, withdrawn, e);
      }
    }
  }

  lemma {:induction false} ReviewEstimateKeeps(r: Repair, manager: nat, e: nat, review: Review, note: Option<string>)
    requires WorkflowOk(r)
    ensures Keeps(r, ReviewEstimate(r, manager, e, review, note))
  {
    var next := ReviewEstimate(r, manager, e, review, note);
    if next.Some? && r.estimates[e].status == Submitted {
      match review
      case Approve(bearer) => ApproveKeeps(r, e, Manager, note, bearer, next.value.status);
      case RequestRevision => ReviewedOk(r, e, RevisionRequested, Manager, note);
      case Reject =>
        ReviewedOk(r, e, Rejected, Manager, note);
        RestoreKeeps(r, r.(estimates := Reviewed(r.estimates, e, Rejected, Manager, note)), e);
    }
  }

  lemma {:induction false} ReviewTenantEstimateKeeps(r: Repair, tenant: nat, e: nat, approve: bool, note: Option<string>)
    requires WorkflowOk(r)
    ensures Keeps(r, ReviewTenantEstimate(r, tenant, e, approve, note))
  {
    var next := ReviewTenantEstimate(r, tenant, e, approve, note);
    if next.Some? && r.estimates[e].status == Submitted {
      if approve {
        ApproveKeeps(r, e, Tenant, note, TenantPays, EstimateApproved);
      } else {
        ReviewedOk(r, e, RevisionRequested, Tenant, note);
      }
    }
  }

  lemma {:induction false} ConfirmVisitKeeps(r: Repair, party: Party, actor: nat, e: nat, at: int)
    requires WorkflowOk(r)
    ensures Keeps(r, ConfirmVisit(r, party, actor, e, at))
  {
    LatestIsLast(r.estimates);
    if ConfirmVisit(r, party, actor, e, at).Some? && r.estimates[e].status == Submitted {
      ReplaceOk(r.estimates, e, r.estimates[e].(status := VisitScheduled, reviewedBy := Some(party)));
    }
  }

  lemma {:induction false} ScheduleApprovedKeeps(r: Repair, vendor: nat, at: int)
    requires WorkflowOk(r)
    ensures Keeps(r, ScheduleApproved(r, vendor, at))
  {
  }

  lemma {:induction false} StartJobKeeps(r: Repair, vendor: nat, now: int)
    requires WorkflowOk(r)
    ensures Keeps(r, StartJob(r, vendor, now))
  {
    hide EstimatesOk, RevisionsAnswered;
  }

  lemma {:induction false} ReportKeeps(r: Repair, completedAt: int)
    requires WorkflowOk(r) && r.status == InProgress && !HasPending(r.estimates)
    requires LastReport(r).Some? ==> LastReport(r).value.decision.Some? && !LastApproved(r)
    ensures var reports := r.reports + [Report(completedAt, None)];
            var reported := r.(reports := reports, status := CompletionReported, request := None);
            ReportsOk(reported) && ReviewOk(r.estimates, CompletionReported)
  {
  }

  lemma {:induction false} SubmitCompletionKeeps(r: Repair, vendor: nat, completedAt: int, now: int)
    requires WorkflowOk(r)
    ensures Keeps(r, SubmitCompletion(r, vendor, completedAt, now))
  {
    if SubmitCompletion(r, vendor, completedAt, now).Some? {
      ReportKeeps(r, completedAt);
    }
  }

  lemma {:induction false} DecideCompletionKeeps(r: Repair, manager: nat, approved: bool, note: Option<string>, now: int)
    requires WorkflowOk(r)
    ensures Keeps(r, DecideCompletion(r, manager, approved, note, now))
  {
    hide EstimatesOk, RevisionsAnswered, HasPending;
  }

  lemma {:induction false} DecideTenantCompletionKeeps(r: Repair, tenant: nat, approved: bool, note: Option<string>, now: int)
    requires WorkflowOk(r)
    ensures Keeps(r, DecideTenantCompletion(r, tenant, approved, note, now))
  {
    hide EstimatesOk, RevisionsAnswered;
  }
}
