/** The log of a run says exactly what its rows say: nothing that happened was left unannounced. */
module EventCompleteness {
  import opened Options
  import opened Types
  import opened Drafts
  import opened Workflow
  import opened Payments
  import opened Ledger
  import opened Platform
  import opened Invariant
  import opened Runs
  import opened Events
  import TR = TopupRuns
  import P = PaymentProofs
  import W = WorkflowProofs

  /** What the rows of one repair say. An estimate that was sent may have been withdrawn since, and one
      that was reviewed may have been superseded. */
  predicate RepairFact(r: Repair, key: EventKey) {
    match key
    case EstimateSent(_, e, revised) =>
      e < |r.estimates| && r.estimates[e].status !in {Draft, Withdrawn} && (revised <==> r.estimates[e].version > 1)
    case EstimateReviewed(_, e, party, outcome) =>
      && e < |r.estimates| && r.estimates[e].status == outcome && outcome in {Approved, RevisionRequested, Rejected}
      && r.estimates[e].reviewedBy == Some(party)
    case CompletionSubmitted(_, k) => k < |r.reports|
    case CompletionDecided(_, k, party, approved) =>
      && k < |r.reports| && r.reports[k].decision.Some?
      && (r.reports[k].decision.value.source, r.reports[k].decision.value.approved) == (party, approved)
    case RequestCreated(_, payer) => r.request.Some? && r.request.value.payer == payer
    case _ => false
  }

  predicate OfRepair(key: EventKey) {
    key.EstimateSent? || key.EstimateReviewed? || key.CompletionSubmitted? || key.CompletionDecided? || key.RequestCreated?
  }

  function RepairOfKey(key: EventKey): nat
    requires OfRepair(key)
  {
    match key
    case EstimateSent(i, _, _) => i
    case EstimateReviewed(i, _, _, _) => i
    case CompletionSubmitted(i, _) => i
    case CompletionDecided(i, _, _, _) => i
    case RequestCreated(i, _) => i
  }

  /** What the rows say about a key. */
  predicate Fact(s: State, key: EventKey) {
    if OfRepair(key) then RepairOfKey(key) < |s.repairs| && RepairFact(s.repairs[RepairOfKey(key)], key)
    else
      match key
      case PaymentState(i, state) => state in EventsOf(s, i)
      case TopupDone(k, approved) => k < |s.books.topups| && s.books.topups[k].status == if approved then TopupApproved else TopupFailed
      case JobAssigned(i) => i < |s.repairs|
      case _ => false
  }

  /** What has happened for good once it has happened. */
  predicate Lasting(key: EventKey) {
    !key.EstimateSent? && !key.EstimateReviewed?
  }

  // ---- commands that do no work

  predicate Works(c: Command) {
    c.TryAssignVendor? || c.TryRequestVendor? || c.TryWork? || c.TryReportCompletion? || c.TryDecideReport?
  }

  predicate SameWork(s: State, s': State) {
    && |s'.repairs| == |s.repairs|
    && forall i :: 0 <= i < |s.repairs| ==>
         && (s'.repairs[i].estimates, s'.repairs[i].reports) == (s.repairs[i].estimates, s.repairs[i].reports)
         && (s'.repairs[i].request.Some? <==> s.repairs[i].request.Some?)
         && (s.repairs[i].request.Some? ==> s'.repairs[i].request.value.payer == s.repairs[i].request.value.payer)
  }

  lemma SettleLockedSame(s: State, i: nat, mode: Mode, key: Key, payload: AttemptPayload, evidence: Option<Evidence>)
    requires HasRequest(s, i)
    ensures var next := SettleLocked(s, i, mode, key, payload, evidence); next.Some? ==> SameWork(s, next.value)
  {
    hide Announce, CanDebit, Post;
    AnnounceKeepsPayer();
  }

  lemma AnnounceKeepsPayer()
    ensures forall q: Request, key: AuditKey :: Announce(q, key).payer == q.payer
  {
  }

  lemma SettleSame(s: State, i: nat, manager: nat, mode: Mode, key: Key, actor: nat, decision: Option<nat>, evidence: Option<Evidence>, now: int)
    ensures var next := Settle(s, i, manager, mode, key, actor, decision, evidence, now); next.Some? ==> SameWork(s, next.value)
  {
    hide SettlementValid, ActiveOrder, EvidenceOk, SettleLocked;
    forall d: nat | HasRequest(s, i) {
      SettleLockedSame(WithAccount(s, manager), i, mode, key, SettlePayload(i, mode, actor, d, evidence), evidence);
    }
  }

  lemma EvaluateSame(s: State, i: nat, manager: nat, decision: nat)
    ensures var next := Evaluate(s, i, manager, decision); next.Some? ==> SameWork(s, next.value)
  {
    hide SettlementValid, ActiveOrder, Announce, ShouldAutoDebit, SettleLocked;
    AnnounceKeepsPayer();
    if HasRequest(s, i) {
      SettleLockedSame(WithAccount(s, manager), i, AutoCredit, AutoSettlement(i, decision),
                       SettlePayload(i, AutoCredit, manager, decision, None), None);
    }
  }

  lemma CorrectSame(s: State, key: Key, payload: CorrectionPayload)
    ensures var next := Correct(s, key, payload); next.Some? ==> SameWork(s, next.value)
  {
    hide VoidedCost, ActiveOrder, DebitMatches, CanCredit, Announce, Post;
    AnnounceKeepsPayer();
  }

  lemma PersistSame(s: State, c: nat)
    ensures var next := Persist(s, c); next.Some? ==> SameWork(s, next.value)
  {
    hide Judge, Announce, CanPrepareToss;
    AnnounceKeepsPayer();
  }

  lemma ConfirmSame(s: State, i: nat, vendor: nat)
    ensures var next := ConfirmDirect(s, i, vendor); next.Some? ==> SameWork(s, next.value)
  {
    hide Announce, LastStarted;
    AnnounceKeepsPayer();
  }

  lemma PaymentsWorkNot(s: State, c: Command)
    requires c.TrySettle? || c.TryRunEvaluation? || c.TryCorrect? || c.TryConfirmDirect? || c.TryPersist?
    ensures SameWork(s, Apply(s, c))
  {
    hide Settle, Evaluate, Correct, ConfirmDirect, Persist;
    match c
    case TrySettle(i, manager, mode, key, actor, decision, evidence, now) => SettleSame(s, i, manager, mode, key, actor, decision, evidence, now);
    case TryCorrect(key, payload) => CorrectSame(s, key, payload);
    case TryConfirmDirect(i, vendor) => ConfirmSame(s, i, vendor);
    case TryPersist(call) => PersistSame(s, call);
    case TryRunEvaluation(token) =>
      if IsClaimed(s, token) && EvaluationOf(s, token).request < |s.repairs| {
        EvaluateSame(s, EvaluationOf(s, token).request, s.repairs[EvaluationOf(s, token).request].manager, EvaluationOf(s, token).decision);
      }
  }

  lemma OrdersWorkNot(s: State, c: Command)
    requires c.TryRequestDirect? || c.TryCreateOrder? || c.TryRetryOrder? || c.TryCancelOrder? || c.TryBeginConfirm?
    ensures SameWork(s, Apply(s, c))
  {
    hide HasOpenOrder, OpenKeyHeld, SameCreation;
  }

  lemma OthersWorkNot(s: State, c: Command)
    requires c.TryBeginReconcile? || c.TryProviderMoves? || c.TryReceiveAnswer? || c.TryAccount? || c.TryClaimDeliveries?
             || c.TryFinishDelivery? || c.TryGiveBackDelivery?
    ensures Apply(s, c).repairs == s.repairs
  {
    hide OnBooks, Honest;
  }

  lemma WorkUntouched(s: State, c: Command)
    requires !Works(c)
    ensures SameWork(s, Apply(s, c))
  {
    hide Apply;
    if c.TrySettle? || c.TryRunEvaluation? || c.TryCorrect? || c.TryConfirmDirect? || c.TryPersist? {
      PaymentsWorkNot(s, c);
    } else if c.TryRequestDirect? || c.TryCreateOrder? || c.TryRetryOrder? || c.TryCancelOrder? || c.TryBeginConfirm? {
      OrdersWorkNot(s, c);
    } else {
      OthersWorkNot(s, c);
    }
  }

  // ---- one command

  /** New facts of a repair are announced, and what is announced is a fact. */
  predicate Tells(r: Repair, r': Repair, keys: seq<EventKey>, key: EventKey) {
    && (RepairFact(r', key) ==> RepairFact(r, key) || key in keys)
    && (key in keys ==> RepairFact(r', key))
  }

  lemma SubmissionTells(r: Repair, i: nat, vendor: nat, e: nat, key: EventKey)
    requires OfRepair(key) && RepairOfKey(key) == i && SubmitEstimate(r, vendor, e).Some?
    ensures Tells(r, SubmitEstimate(r, vendor, e).value, WorkEvents(r, i, TrySubmit(vendor, e)), key)
  {
  }

  lemma DraftTells(r: Repair, vendor: nat, estimate: Option<nat>, input: DraftInput, key: EventKey)
    requires SaveDraft(r, vendor, estimate, input).Some? && W.WorkflowOk(r)
    ensures Tells(r, SaveDraft(r, vendor, estimate, input).value, [], key)
  {
    hide Latest, Normalize, W.ReportsOk, W.SnapshotOk, W.ReviewOk, W.AtMostOne, W.RevisionsAnswered;
  }

  lemma ManagerReviewTells(r: Repair, i: nat, manager: nat, e: nat, review: Review, note: Option<string>, key: EventKey)
    requires OfRepair(key) && RepairOfKey(key) == i && ReviewEstimate(r, manager, e, review, note).Some?
    ensures Tells(r, ReviewEstimate(r, manager, e, review, note).value, WorkEvents(r, i, TryReviewByManager(manager, e, review, note)), key)
  {
  }

  lemma TenantReviewTells(r: Repair, i: nat, tenant: nat, e: nat, approve: bool, note: Option<string>, key: EventKey)
    requires OfRepair(key) && RepairOfKey(key) == i && ReviewTenantEstimate(r, tenant, e, approve, note).Some?
    ensures Tells(r, ReviewTenantEstimate(r, tenant, e, approve, note).value, WorkEvents(r, i, TryReviewByTenant(tenant, e, approve, note)), key)
  {
  }

  lemma QuietWorkTells(r: Repair, action: Action, key: EventKey)
    requires action.TryWithdraw? || action.TryVisitConfirmed? || action.TrySchedule? || action.TryStart?
    requires Act(r, action).Some? && W.WorkflowOk(r)
    ensures Tells(r, Act(r, action).value, [], key)
  {
    hide FindApproved, Latest, HasPending, W.ReportsOk, W.SnapshotOk, W.ReviewOk, W.AtMostOne, W.RevisionsAnswered;
  }

  lemma TenantDecisionTells(r: Repair, i: nat, tenant: nat, approved: bool, note: Option<string>, now: int, key: EventKey)
    requires OfRepair(key) && RepairOfKey(key) == i && DecideTenantCompletion(r, tenant, approved, note, now).Some?
    ensures Tells(r, DecideTenantCompletion(r, tenant, approved, note, now).value, WorkEvents(r, i, TryDecideByTenant(tenant, approved, note, now)), key)
  {
    hide FindApproved;
  }

  lemma ActTells(r: Repair, i: nat, action: Action, key: EventKey)
    requires OfRepair(key) && RepairOfKey(key) == i && W.WorkflowOk(r) && Act(r, action).Some?
    ensures Tells(r, Act(r, action).value, WorkEvents(r, i, action), key)
  {
    hide W.WorkflowOk, Tells, SaveDraft, SubmitEstimate, ReviewEstimate, ReviewTenantEstimate, DecideTenantCompletion, WithdrawEstimate, ConfirmVisit,
         ScheduleApproved, StartJob;
    match action
    case TrySaveDraft(vendor, estimate, input) => DraftTells(r, vendor, estimate, input, key);
    case TrySubmit(vendor, e) => SubmissionTells(r, i, vendor, e, key);
    case TryReviewByManager(manager, e, review, note) => ManagerReviewTells(r, i, manager, e, review, note, key);
    case TryReviewByTenant(tenant, e, approve, note) => TenantReviewTells(r, i, tenant, e, approve, note, key);
    case TryDecideByTenant(tenant, approved, note, now) => TenantDecisionTells(r, i, tenant, approved, note, now, key);
    case _ => QuietWorkTells(r, action, key);
  }

  lemma ReportTells(r: Repair, i: nat, vendor: nat, completedAt: int, now: int, key: EventKey)
    requires OfRepair(key) && RepairOfKey(key) == i && SubmitCompletion(r, vendor, completedAt, now).Some?
    ensures Tells(r, SubmitCompletion(r, vendor, completedAt, now).value, ReportEvents(r, i), key)
  {
    hide FindApproved, HasPending;
  }

  lemma DecisionTells(r: Repair, i: nat, manager: nat, approved: bool, note: Option<string>, now: int, key: EventKey)
    requires OfRepair(key) && RepairOfKey(key) == i && DecideCompletion(r, manager, approved, note, now).Some?
    ensures Tells(r, DecideCompletion(r, manager, approved, note, now).value,
                  if Events.Undecided(r) then [CompletionDecided(i, |r.reports| - 1, Manager, approved)] else [], key)
  {
  }

  /** A command announces exactly what it newly makes a fact. */
  predicate StepTells(s: State, c: Command, key: EventKey) {
    && (Fact(Apply(s, c), key) ==> Fact(s, key) || key in Enqueued(s, c))
    && (key in Enqueued(s, c) ==> Fact(Apply(s, c), key))
  }

  lemma EventsOfOneRepair(r: Repair, i: nat, action: Action, key: EventKey)
    requires key in WorkEvents(r, i, action) || key in ReportEvents(r, i)
    ensures OfRepair(key) && RepairOfKey(key) == i
  {
  }

  lemma WorkStepTells(s: State, i: nat, action: Action, key: EventKey)
    requires StateOk(s) && OfRepair(key)
    ensures StepTells(s, TryWork(i, action), key)
  {
    hide StateOk, Act, WorkEvents, RepairFact, W.WorkflowOk;
    if i < |s.repairs| && Act(s.repairs[i], action).Some? {
      if key in WorkEvents(s.repairs[i], i, action) {
        EventsOfOneRepair(s.repairs[i], i, action, key);
      }
      WorkflowOf(s, i);
      if RepairOfKey(key) == i {
        ActTells(s.repairs[i], i, action, key);
      }
    }
  }

  lemma WorkflowOf(s: State, i: nat)
    requires StateOk(s) && i < |s.repairs|
    ensures W.WorkflowOk(s.repairs[i])
  {
    hide W.WorkflowOk, P.RequestOk;
    assert RepairOk(s.repairs[i], i);
  }

  lemma ReportStepTells(s: State, i: nat, submission: Key, payload: CompletionPayload, now: int, key: EventKey)
    requires OfRepair(key)
    ensures StepTells(s, TryReportCompletion(i, submission, payload, now), key)
  {
    hide SubmitCompletion, ReportEvents, RepairFact;
    if ReportCompletion(s, i, submission, payload, now).Some? && submission !in s.keys.submissions {
      if key in ReportEvents(s.repairs[i], i) {
        EventsOfOneRepair(s.repairs[i], i, TryStart(0, 0), key);
      }
      if RepairOfKey(key) == i {
        ReportTells(s.repairs[i], i, payload.vendor, payload.completedAt, now, key);
      }
    }
  }

  lemma DecisionStepTells(s: State, i: nat, manager: nat, approved: bool, note: Option<string>, now: int, key: EventKey)
    requires OfRepair(key)
    ensures StepTells(s, TryDecideReport(i, manager, approved, note, now), key)
  {
    hide Apply, Enqueued, DecideCompletion, RepairFact;
    DecisionMoves(s, i, manager, approved, note, now);
    if i < |s.repairs| && DecideCompletion(s.repairs[i], manager, approved, note, now).Some? && RepairOfKey(key) == i {
      DecisionTells(s.repairs[i], i, manager, approved, note, now, key);
    }
  }

  lemma DecisionMoves(s: State, i: nat, manager: nat, approved: bool, note: Option<string>, now: int)
    ensures var c := TryDecideReport(i, manager, approved, note, now);
            var goes := i < |s.repairs| && DecideCompletion(s.repairs[i], manager, approved, note, now).Some?;
            && Apply(s, c).repairs == (if goes then s.repairs[i := DecideCompletion(s.repairs[i], manager, approved, note, now).value] else s.repairs)
            && Enqueued(s, c) == if goes && Events.Undecided(s.repairs[i]) then [CompletionDecided(i, |s.repairs[i].reports| - 1, Manager, approved)] else []
  {
    hide DecideCompletion;
  }

  lemma AssignmentStepTells(s: State, c: Command, key: EventKey)
    requires c.TryAssignVendor? || c.TryRequestVendor?
    requires OfRepair(key) || key.JobAssigned?
    ensures StepTells(s, c, key)
  {
  }

  lemma OtherStepTells(s: State, c: Command, key: EventKey)
    requires !Works(c) && (OfRepair(key) || key.JobAssigned?)
    ensures StepTells(s, c, key)
  {
    WorkUntouched(s, c);
    NotEnqueuedHere(s, c, key);
    hide Apply, Enqueued;
  }

  lemma NotEnqueuedHere(s: State, c: Command, key: EventKey)
    requires !Works(c) && (OfRepair(key) || key.JobAssigned?)
    ensures key !in Enqueued(s, c)
  {
    hide Step;
  }

  lemma WorkAssignsNothing(s: State, c: Command, i: nat)
    requires c.TryWork? || c.TryReportCompletion? || c.TryDecideReport?
    ensures StepTells(s, c, JobAssigned(i))
  {
    hide Act, SubmitCompletion, DecideCompletion, WorkEvents, ReportEvents;
    if JobAssigned(i) in Enqueued(s, c) {
      if c.TryWork? {
        EventsOfOneRepair(s.repairs[c.repair], c.repair, c.action, JobAssigned(i));
      } else if c.TryReportCompletion? {
        EventsOfOneRepair(s.repairs[c.repair], c.repair, TryStart(0, 0), JobAssigned(i));
      }
    }
  }

  lemma AccountTells(b: Books, action: AccountAction, k: nat, approved: bool)
    requires OnBooks(b, action).Some?
    ensures var b' := OnBooks(b, action).value;
            var status := if approved then TopupApproved else TopupFailed;
            && (k < |b'.topups| && b'.topups[k].status == status ==>
                  (k < |b.topups| && b.topups[k].status == status) || TopupDone(k, approved) in AccountEvents(b, action))
            && (TopupDone(k, approved) in AccountEvents(b, action) ==> k < |b'.topups| && b'.topups[k].status == status)
  {
    hide CanDebit, CanCredit, ShouldAutoDebit, Sum, HasOpening, TopupPaymentKeyTaken;
  }

  lemma TopupStepTells(s: State, c: Command, k: nat, approved: bool)
    ensures StepTells(s, c, TopupDone(k, approved))
  {
    if c.TryAccount? {
      hide OnBooks, AccountEvents;
      if OnBooks(s.books, c.account).Some? {
        AccountTells(s.books, c.account, k, approved);
      }
    } else {
      TopupsUntouched(s, c);
      TopupNotEnqueued(s, c, k, approved);
      hide Apply, Enqueued;
    }
  }

  lemma TopupsUntouched(s: State, c: Command)
    requires !c.TryAccount?
    ensures Apply(s, c).books.topups == s.books.topups
  {
    hide Apply;
    if c.TrySettle? || c.TryCorrect? || c.TryRunEvaluation? {
      TR.CreditLeavesTopups(s, c);
    } else {
      TR.OthersLeaveTopups(s, c);
    }
  }

  lemma TopupNotEnqueued(s: State, c: Command, k: nat, approved: bool)
    requires !c.TryAccount?
    ensures TopupDone(k, approved) !in Enqueued(s, c)
  {
    hide Step;
  }

  lemma EveryStepTells(s: State, c: Command, key: EventKey)
    requires StateOk(s)
    ensures StepTells(s, c, key)
  {
    if key.PaymentState? {
      hide StateOk, Apply, Enqueued, EventsOf;
      StepLogsPayments(s, c, key.request, key.state);
    } else {
      hide StateOk, StepTells;
      if key.TopupDone? {
        TopupStepTells(s, c, key.order, key.approved);
      } else if c.TryAssignVendor? || c.TryRequestVendor? {
        AssignmentStepTells(s, c, key);
      } else if !Works(c) {
        OtherStepTells(s, c, key);
      } else if key.JobAssigned? {
        WorkAssignsNothing(s, c, key.repair);
      } else {
        match c
        case TryWork(i, action) => WorkStepTells(s, i, action, key);
        case TryReportCompletion(i, submission, payload, now) => ReportStepTells(s, i, submission, payload, now, key);
        case TryDecideReport(i, manager, approved, note, now) => DecisionStepTells(s, i, manager, approved, note, now, key);
      }
    }
  }

  lemma LastingFactStays(s: State, s': State, key: EventKey)
    requires StateContinues(s, s') && Fact(s, key) && Lasting(key)
    ensures Fact(s', key)
  {
    hide OrdersContinue, KeysContinue, W.EstimatesContinue;
    if key.TopupDone? {
      TopupLater(s.books, s'.books, key.order);
    } else if OfRepair(key) {
      assert RepairContinues(s.repairs[RepairOfKey(key)], s'.repairs[RepairOfKey(key)]);
    } else if key.PaymentState? && HasRequest(s, key.request) {
      assert RepairContinues(s.repairs[key.request], s'.repairs[key.request]);
    }
  }

  // ---- the result

  /** Everything that happened was announced: over any run, whatever the rows say has its key in the log;
      and the log says nothing else, as far as what it says lasts. */
  lemma {:induction false} LogIsComplete(tickets: seq<Ticket>, commands: seq<Command>, key: EventKey)
    ensures Fact(Run(Initial(tickets), commands), key) ==> key in Log(Initial(tickets), commands)
    ensures key in Log(Initial(tickets), commands) && Lasting(key) ==> Fact(Run(Initial(tickets), commands), key)
  {
    hide StateOk, StateContinues, Apply, Enqueued;
    if commands == [] {
      NothingYet(tickets, key);
    } else {
      hide Fact;
      var n := |commands| - 1;
      var s := Run(Initial(tickets), commands[..n]);
      LogIsComplete(tickets, commands[..n], key);
      Reachable(tickets, commands[..n]);
      EveryStepTells(s, commands[n], key);
      StepKeeps(s, commands[n]);
      if Fact(s, key) && Lasting(key) {
        LastingFactStays(s, Apply(s, commands[n]), key);
      }
    }
  }

  lemma NothingYet(tickets: seq<Ticket>, key: EventKey)
    ensures !Fact(Initial(tickets), key)
  {
  }
}
