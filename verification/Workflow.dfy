/** The vendor workflow: estimates, visits, work and completion of one repair.

    Each function is one transaction on a locked repair row. None means that the transaction
    throws; Some(r) with r unchanged is an idempotent replay.
 */
module Workflow {
  import opened Options
  import opened Types
  import opened Drafts

  predicate Closed(status: RepairStatus) {
    status == Completed || status == Cancelled
  }

  /** Statuses that a new estimate leaves alone. */
  predicate Preserved(status: RepairStatus) {
    status == Scheduled || status == InProgress
  }

  predicate PendingEstimate(status: EstimateStatus) {
    status == Draft || status == Submitted || status == VisitScheduled || status == RevisionRequested
  }

  predicate BearerResolved(r: Repair) {
    r.costBearer == Some(LandlordPays) || r.costBearer == Some(TenantPays)
  }

  /** The tenant, not the manager, reviews a repair that the tenant requested and bears. */
  predicate TenantDriven(r: Repair) {
    r.costBearer == Some(TenantPays) && r.tenantInitiated
  }

  predicate TenantMayAct(r: Repair, tenant: nat) {
    tenant == r.tenant && TenantDriven(r)
  }

  /** The row with the greatest version. */
  function Latest(estimates: seq<Estimate>): (k: Option<nat>)
    ensures k.Some? ==> k.value < |estimates|
  {
    if estimates == [] then None
    else
      var n := |estimates| - 1;
      match Latest(estimates[..n])
      case None => Some(n)
      case Some(k) => if estimates[n].version >= estimates[k].version then Some(n) else Some(k)
  }

  /** The newest approved fixed estimate, if any; with a reviewedBy, only one that party approved. */
  function FindApproved(estimates: seq<Estimate>, reviewedBy: Option<Party>): (k: Option<nat>)
    ensures k.Some? ==> k.value < |estimates| && ApprovedFixed(estimates[k.value], reviewedBy)
    ensures k.None? ==> forall j :: 0 <= j < |estimates| ==> !ApprovedFixed(estimates[j], reviewedBy)
  {
    if estimates == [] then None
    else
      var n := |estimates| - 1;
      if ApprovedFixed(estimates[n], reviewedBy) then Some(n) else FindApproved(estimates[..n], reviewedBy)
  }

  predicate ApprovedFixed(e: Estimate, reviewedBy: Option<Party>) {
    e.status == Approved && e.content.Fixed? && (reviewedBy.Some? ==> e.reviewedBy == reviewedBy)
  }

  predicate HasPending(estimates: seq<Estimate>) {
    exists k :: 0 <= k < |estimates| && PendingEstimate(estimates[k].status)
  }

  function SupersedeApproved(estimates: seq<Estimate>, keep: nat): (out: seq<Estimate>)
    ensures |out| == |estimates|
  {
    seq(|estimates|, k requires 0 <= k < |estimates| =>
      if estimates[k].status == Approved && k != keep then estimates[k].(status := Superseded) else estimates[k])
  }

  function SupersedeRevisions(estimates: seq<Estimate>, below: nat): (out: seq<Estimate>)
    ensures |out| == |estimates|
  {
    seq(|estimates|, k requires 0 <= k < |estimates| =>
      if estimates[k].status == RevisionRequested && estimates[k].version < below
      then estimates[k].(status := Superseded) else estimates[k])
  }

  function LastReport(r: Repair): Option<Report> {
    if r.reports == [] then None else Some(r.reports[|r.reports| - 1])
  }

  predicate LastApproved(r: Repair) {
    r.reports != [] && r.reports[|r.reports| - 1].decision.Some? && r.reports[|r.reports| - 1].decision.value.approved
  }

  // ---- estimates

  function SaveDraft(r: Repair, vendor: nat, estimate: Option<nat>, input: DraftInput): Option<Repair> {
    var draft := Normalize(input);
    if draft.None? || vendor != r.vendor || Closed(r.status) || r.request.Some? then None
    else
      match WithDraft(r.estimates, estimate, draft.value)
      case None => None
      case Some(estimates) => Some(r.(estimates := estimates))
  }

  /** A draft is rewritten in place, or a new version is appended. */
  function WithDraft(estimates: seq<Estimate>, estimate: Option<nat>, content: Content): Option<seq<Estimate>> {
    if estimate.Some? then
      if estimate.value < |estimates| && estimates[estimate.value].status == Draft
      then Some(WriteDraft(estimates, estimate.value, content))
      else None
    else
      var latest := Latest(estimates);
      if latest.None? then Some(estimates + [NewDraft(1, content)])
      else
        var k := latest.value;
        var status := estimates[k].status;
        if status == Draft then Some(WriteDraft(estimates, k, content))
        else if status == Submitted then None
        else
          var kept := if status == VisitScheduled || status == Rejected
                      then estimates[k := estimates[k].(status := Superseded)] else estimates;
          Some(kept + [NewDraft(estimates[k].version + 1, content)])
  }

  function WriteDraft(estimates: seq<Estimate>, k: nat, content: Content): seq<Estimate>
    requires k < |estimates|
  {
    estimates[k := estimates[k].(content := content)]
  }

  function NewDraft(version: nat, content: Content): Estimate {
    Estimate(version, Draft, content, None, None)
  }

  function SubmitEstimate(r: Repair, vendor: nat, e: nat): Option<Repair> {
    if vendor != r.vendor || Closed(r.status) || e >= |r.estimates| then None
    else if r.estimates[e].status != Draft then
      if r.estimates[e].status == Withdrawn then None else Some(r)
    else if r.request.Some? then None
    else
      var declined := r.estimates[e].content.Decline?;
      if declined && Preserved(r.status) then None
      else
        var marked := WithSubmitted(r.estimates, e);
        if declined then
          Some(r.(estimates := SupersedeApproved(marked, |marked|), status := Cancelled, costBearer := None))
        else if Preserved(r.status) then Some(r.(estimates := marked))
        else Some(r.(estimates := marked, status := EstimateSubmitted))
  }

  function WithSubmitted(estimates: seq<Estimate>, e: nat): (out: seq<Estimate>)
    requires e < |estimates|
    ensures |out| == |estimates|
  {
    var status := if estimates[e].content.Decline? then VendorDeclined else Submitted;
    SupersedeRevisions(estimates[e := estimates[e].(status := status)], estimates[e].version)
  }

  function WithdrawEstimate(r: Repair, vendor: nat, e: nat): Option<Repair> {
    if vendor != r.vendor || e >= |r.estimates| then None
    else
      var estimate := r.estimates[e];
      if estimate.status == Withdrawn then Some(r)
      else if r.request.Some? then None
      else if (estimate.status != Draft && estimate.status != Submitted) || estimate.reviewedBy.Some? then None
      else
        var r' := r.(estimates := r.estimates[e := estimate.(status := Withdrawn)]);
        if r.status == EstimateSubmitted then Some(RestoreAfterExit(r', e)) else Some(r')
  }

  /** Where a repair goes when the estimate under review leaves. */
  function RestoreAfterExit(r: Repair, exiting: nat): Repair {
    if Preserved(r.status) then r
    else if exists k :: 0 <= k < |r.estimates| && k != exiting && r.estimates[k].status == Approved
    then r.(status := EstimateApproved)
    else r.(status := Requested, costBearer := None)
  }

  datatype Review = Approve(bearer: CostBearer) | RequestRevision | Reject

  function Target(review: Review): EstimateStatus {
    match review
    case Approve(_) => Approved
    case RequestRevision => RevisionRequested
    case Reject => Rejected
  }

  function ReviewEstimate(r: Repair, manager: nat, e: nat, review: Review, note: Option<string>): Option<Repair> {
    if manager != r.manager || TenantDriven(r) || Closed(r.status) || e >= |r.estimates| then None
    else
      var estimate := r.estimates[e];
      if estimate.status == Target(review) then
        if estimate.note == note && estimate.reviewedBy == Some(Manager)
           && (review.Approve? ==> r.costBearer == Some(review.bearer))
        then Some(r) else None
      else if estimate.status != Submitted then None
      else if !review.Approve? && note.None? then None
      else if review.Approve? && !estimate.content.Fixed? then None
      else if r.request.Some? then None
      else
        var before := if review.Approve? then SupersedeApproved(r.estimates, e) else r.estimates;
        var reviewed := r.(estimates := Reviewed(before, e, Target(review), Manager, note));
        match review
        case Approve(bearer) =>
          Some(reviewed.(costBearer := Some(bearer),
                         status := if Preserved(r.status) then r.status else EstimateApproved))
        case RequestRevision => Some(reviewed)
        case Reject => Some(RestoreAfterExit(reviewed, e))
  }

  function Reviewed(estimates: seq<Estimate>, e: nat, status: EstimateStatus, party: Party, note: Option<string>): seq<Estimate>
    requires e < |estimates|
  {
    estimates[e := estimates[e].(status := status, reviewedBy := Some(party), note := note)]
  }

  function ReviewTenantEstimate(r: Repair, tenant: nat, e: nat, approve: bool, note: Option<string>): Option<Repair> {
    var target := if approve then Approved else RevisionRequested;
    if !TenantMayAct(r, tenant) || Closed(r.status) || e >= |r.estimates| then None
    else if !approve && note.None? then None
    else
      var estimate := r.estimates[e];
      if estimate.status == target then
        if estimate.reviewedBy == Some(Tenant) && estimate.note == note then Some(r) else None
      else if estimate.status != Submitted || (approve && !estimate.content.Fixed?) || r.request.Some? then None
      else if approve then
        Some(r.(estimates := Reviewed(SupersedeApproved(r.estimates, e), e, target, Tenant, note),
                status := EstimateApproved, costBearer := Some(TenantPays)))
      else Some(r.(estimates := Reviewed(r.estimates, e, target, Tenant, note)))
  }

  /** Confirms the visit that the newest estimate proposes. There is no check for a closed
      repair here: a submitted estimate is what stands in for it. */
  function ConfirmVisit(r: Repair, party: Party, actor: nat, e: nat, at: int): Option<Repair> {
    if party == Manager && (actor != r.manager || TenantDriven(r)) then None
    else if party == Tenant && !TenantMayAct(r, actor) then None
    else if Latest(r.estimates) != Some(e) || e >= |r.estimates| then None
    else
      var estimate := r.estimates[e];
      if estimate.content != Visit(at) then None
      else if estimate.status == VisitScheduled then
        if r.scheduledAt == Some(at) && (party == Tenant ==> estimate.reviewedBy == Some(Tenant)) then Some(r) else None
      else if estimate.status != Submitted then None
      else
        Some(r.(estimates := r.estimates[e := estimate.(status := VisitScheduled, reviewedBy := Some(party))],
                status := Scheduled, scheduledAt := Some(at)))
  }

  // ---- work

  function ScheduleApproved(r: Repair, vendor: nat, at: int): Option<Repair> {
    if vendor != r.vendor || !BearerResolved(r) then None
    else if r.status == Scheduled then if r.scheduledAt == Some(at) then Some(r) else None
    else if r.status != EstimateApproved then None
    else if FindApproved(r.estimates, None).None?
         || exists k :: 0 <= k < |r.estimates| && (r.estimates[k].status == Submitted || r.estimates[k].status == RevisionRequested)
    then None
    else Some(r.(status := Scheduled, scheduledAt := Some(at)))
  }

  function StartJob(r: Repair, vendor: nat, now: int): Option<Repair> {
    if vendor != r.vendor || !BearerResolved(r) then None
    else if FindApproved(r.estimates, None).None? || HasPending(r.estimates) then None
    else if r.status == InProgress then
      if r.startedAt.Some? then Some(r) else Some(r.(startedAt := Some(now)))
    else if r.status != Scheduled then None
    else Some(r.(status := InProgress, startedAt := Some(now)))
  }

  // ---- completion

  function NewRequest(payer: Party, amount: int, estimate: nat, report: nat, status: PayStatus): Request {
    Request(payer, amount, estimate, report, None, status, None, None, None, None, [], [], {}, [])
  }

  /** A first-time completion report; the replay of a submission key is decided before. With the
      landlord paying, the report opens the payment request or is linked to the waiting one. */
  function SubmitCompletion(r: Repair, vendor: nat, completedAt: int, now: int): Option<Repair> {
    if vendor != r.vendor || !BearerResolved(r) then None
    else if LastReport(r).Some? && LastReport(r).value.decision.None? then None
    else if LastApproved(r) then None
    else if r.status != InProgress then None
    else if r.startedAt.None? || completedAt < r.startedAt.value || completedAt > now then None
    else if HasPending(r.estimates) then None
    else
      var report := |r.reports|;
      var reported := r.(reports := r.reports + [Report(completedAt, None)], status := CompletionReported);
      if r.costBearer == Some(LandlordPays) then
        match FindApproved(r.estimates, None)
        case None => None
        case Some(e) =>
          var amount := r.estimates[e].content.total;
          if amount <= 0 then None
          else if r.request.None? then
            Some(reported.(request := Some(NewRequest(Manager, amount, e, report, WaitingCompletion))))
          else
            var q := r.request.value;
            if q.status != WaitingCompletion || LastReport(r).None? || q.estimate != e || q.amount != amount then None
            else Some(reported.(request := Some(q.(report := report))))
      else if r.request.Some? then None
      else Some(reported)
  }

  function Decide(r: Repair, decision: Decision): Repair
    requires r.reports != []
  {
    var n := |r.reports| - 1;
    r.(reports := r.reports[n := r.reports[n].(decision := Some(decision))],
       status := if decision.approved then Completed else InProgress)
  }

  predicate SameDecision(decision: Decision, source: Party, approved: bool, note: Option<string>) {
    decision.source == source && decision.approved == approved && decision.note == note
  }

  function DecideCompletion(r: Repair, manager: nat, approved: bool, note: Option<string>, now: int): Option<Repair> {
    if !approved && note.None? then None
    else if manager != r.manager || TenantDriven(r) || (approved && !BearerResolved(r)) || r.reports == [] then None
    else
      var n := |r.reports| - 1;
      var made := r.reports[n].decision;
      if made.Some? then if SameDecision(made.value, Manager, approved, note) then Some(r) else None
      else if r.status != CompletionReported then None
      else if r.request.Some? && (r.request.value.report != n || r.request.value.status != WaitingCompletion) then None
      else
        var decided := Decide(r, Decision(Manager, approved, note, now));
        if r.request.Some? && approved
        then Some(decided.(request := Some(r.request.value.(decision := Some(n)))))
        else Some(decided)
  }

  /** The tenant's approval opens a payment request that the tenant pays. */
  function DecideTenantCompletion(r: Repair, tenant: nat, approved: bool, note: Option<string>, now: int): Option<Repair> {
    if !approved && note.None? then None
    else if !TenantMayAct(r, tenant) || r.reports == [] then None
    else
      var n := |r.reports| - 1;
      var made := r.reports[n].decision;
      if made.Some? then if SameDecision(made.value, Tenant, approved, note) then Some(r) else None
      else if r.status != CompletionReported || r.request.Some? then None
      else
        var decided := Decide(r, Decision(Tenant, approved, note, now));
        if !approved then Some(decided)
        else
          match FindApproved(r.estimates, Some(Tenant))
          case None => None
          case Some(e) =>
            if r.estimates[e].content.total <= 0 then None
            else Some(decided.(request := Some(NewRequest(Tenant, r.estimates[e].content.total, e, n, PendingApproval))))
  }
}
