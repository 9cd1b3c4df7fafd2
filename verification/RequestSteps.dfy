/** Every command keeps the invariant and whatever is already written. */
module RequestSteps {
  import opened Options
  import opened Types
  import opened Workflow
  import opened Payments
  import opened Ledger
  import opened Platform
  import opened Invariant
  import opened Frames
  import W = WorkflowProofs
  import P = PaymentProofs
  import L = LedgerProofs
  import O = OutboxProofs
  import Outbox

  /** What the invariant says about one repair. */
  lemma RepairOf(s: State, i: nat)
    requires StateOk(s) && i < |s.repairs|
    ensures W.WorkflowOk(s.repairs[i]) && (s.repairs[i].request.Some? ==> P.RequestOk(s.repairs[i].request.value, i))
    ensures RepairCharges(s.repairs[i], i, s.charges, s.keys.payments)
  {
    hide W.WorkflowOk, P.RequestOk, RepairCharges, L.BooksOk, LedgerOk, CallsOk, KeysOk;
    assert RepairOk(s.repairs[i], i);
  }

  // ---- the workflow

  /** What a workflow transaction may do to the payment request. */
  predicate RequestKept(r: Repair, r': Repair) {
    || r'.request == r.request
    || (r.request.Some? && r'.request.Some? && r'.request.value == r.request.value.(report := r'.request.value.report))
    || (r.request.None? && r'.request.Some? &&
        var q := r'.request.value;
        q == NewRequest(q.payer, q.amount, q.estimate, q.report, if q.payer == Manager then WaitingCompletion else PendingApproval))
  }

  lemma RequestFramed(q: Request, q': Request, i: nat)
    requires P.RequestOk(q, i) && q' == q.(report := q'.report, decision := q'.decision)
    ensures P.RequestOk(q', i)
  {
    hide P.PaidByAttempt, P.OrderOk, P.LiveOrder, P.AuditReached;
    assert P.OrdersOk(q', i) by {
      forall k | 0 <= k < |q.orders| ensures P.OrderOk(q', i, q'.orders[k]) {
        OrderFramed(q, q', i, q.orders[k]);
      }
    }
    assert P.AuditsOk(q') by {
      forall s | Final(s) && OfStatus(s) in q'.audits ensures P.AuditReached(q', s) {
        AuditFramed(q, q', s);
      }
    }
  }

  lemma OrderFramed(q: Request, q': Request, i: nat, o: Order)
    requires P.OrderOk(q, i, o) && q' == q.(report := q'.report, decision := q'.decision)
    ensures P.OrderOk(q', i, o)
  {
  }

  lemma AuditFramed(q: Request, q': Request, s: PayStatus)
    requires P.AuditReached(q, s) && q' == q.(report := q'.report, decision := q'.decision)
    ensures P.AuditReached(q', s)
  {
  }

  lemma OrdersContinueItself(q: Request, q': Request)
    requires q'.orders == q.orders
    ensures OrdersContinue(q, q')
  {
  }

  lemma WorkflowMoved(s: State, i: nat, r: Repair)
    requires StateOk(s) && i < |s.repairs|
    requires W.WorkflowOk(r) && W.Continues(s.repairs[i], r) && RequestKept(s.repairs[i], r)
    ensures Steps(s, WithRepair(s, i, r))
  {
    hide StateOk, W.WorkflowOk, P.RequestOk, OrderCharge;
    var before := s.repairs[i];
    RepairOf(s, i);
    if before.request.Some? {
      RequestFramed(before.request.value, r.request.value, i);
      OrdersContinueItself(before.request.value, r.request.value);
    } else if r.request.Some? {
      var q := r.request.value;
      P.NewRequestOk(q.payer, q.amount, q.estimate, q.report, i);
    }
    assert r.manager == before.manager;
    hide W.Continues;
    RepairMoved(s, i, r);
  }

  lemma ActKeepsRequest(r: Repair, action: Action)
    ensures Act(r, action).Some? ==> RequestKept(r, Act(r, action).value)
  {
  }

  lemma ActKeeps(r: Repair, action: Action)
    requires W.WorkflowOk(r)
    ensures W.Keeps(r, Act(r, action))
  {
    hide W.WorkflowOk, W.Continues;
    match action
    case TrySaveDraft(vendor, estimate, input) => W.SaveDraftKeeps(r, vendor, estimate, input);
    case TrySubmit(vendor, e) => W.SubmitEstimateKeeps(r, vendor, e);
    case TryWithdraw(vendor, e) => W.WithdrawEstimateKeeps(r, vendor, e);
    case TryReviewByManager(manager, e, review, note) => W.ReviewEstimateKeeps(r, manager, e, review, note);
    case TryReviewByTenant(tenant, e, approve, note) => W.ReviewTenantEstimateKeeps(r, tenant, e, approve, note);
    case TryVisitConfirmed(party, actor, e, at) => W.ConfirmVisitKeeps(r, party, actor, e, at);
    case TrySchedule(vendor, at) => W.ScheduleApprovedKeeps(r, vendor, at);
    case TryStart(vendor, now) => W.StartJobKeeps(r, vendor, now);
    case TryDecideByTenant(tenant, approved, note, now) => W.DecideTenantCompletionKeeps(r, tenant, approved, note, now);
  }

  lemma WorkKeeps(s: State, i: nat, action: Action)
    requires StateOk(s) && Work(s, i, action).Some?
    ensures Steps(s, Work(s, i, action).value)
  {
    hide StateOk, Act, W.WorkflowOk, W.Continues, RequestKept, P.RequestOk, RepairCharges;
    RepairOf(s, i);
    ActKeeps(s.repairs[i], action);
    ActKeepsRequest(s.repairs[i], action);
    WorkflowMoved(s, i, Act(s.repairs[i], action).value);
  }

  lemma ReportKeepsRequest(r: Repair, vendor: nat, completedAt: int, now: int)
    ensures var next := SubmitCompletion(r, vendor, completedAt, now); next.Some? ==> RequestKept(r, next.value)
  {
  }

  lemma ReportCompletionKeeps(s: State, i: nat, key: Key, payload: CompletionPayload, now: int)
    requires StateOk(s) && ReportCompletion(s, i, key, payload, now).Some?
    ensures Steps(s, ReportCompletion(s, i, key, payload, now).value)
  {
    hide StateOk, StateContinues, SubmitCompletion, W.WorkflowOk, W.Continues, RequestKept, P.RequestOk, RepairCharges, BearerResolved;
    StateContinuesItself(s);
    if key !in s.keys.submissions {
      RepairOf(s, i);
      var r := SubmitCompletion(s.repairs[i], payload.vendor, payload.completedAt, now);
      W.SubmitCompletionKeeps(s.repairs[i], payload.vendor, payload.completedAt, now);
      ReportKeepsRequest(s.repairs[i], payload.vendor, payload.completedAt, now);
      WorkflowMoved(s, i, r.value);
      var mid := WithRepair(s, i, r.value);
      KeysGrown(mid, s.keys.(submissions := s.keys.submissions[key := payload]));
      StepsTransitive(s, mid, ReportCompletion(s, i, key, payload, now).value);
    }
  }

  // ---- deciding a report

  /** The decision that a transaction records, if it records one. */
  lemma DecideEffect(r: Repair, manager: nat, approved: bool, note: Option<string>, now: int)
    requires W.WorkflowOk(r) && DecideCompletion(r, manager, approved, note, now).Some?
    ensures var r' := DecideCompletion(r, manager, approved, note, now).value;
            var records := approved && r'.request.Some? && LastReport(r).Some? && LastReport(r).value.decision.None?;
            && (!records ==> r'.request == r.request)
            && (records ==> r.request.Some? && r.request.value.decision.None?
                            && r'.request == Some(r.request.value.(decision := Some(|r.reports| - 1))))
  {
    hide W.EstimatesOk, W.RevisionsAnswered, W.ReviewOk;
  }

  lemma DecisionRecorded(s: State, i: nat, r: Repair, decision: nat, now: int)
    requires StateOk(s) && i < |s.repairs| && s.repairs[i].request.Some? && s.repairs[i].request.value.decision.None?
    requires W.WorkflowOk(r) && W.Continues(s.repairs[i], r)
    requires r.request == Some(s.repairs[i].request.value.(decision := Some(decision)))
    ensures Steps(s, WithRepair(s, i, r).(box := Outbox.Enqueued(s.box, now), evaluations := s.evaluations + [Evaluation(i, decision)]))
  {
    hide W.WorkflowOk, P.RequestOk, OrderCharge, L.BooksOk, LedgerOk, ChargesOk, CallsOk, KeysOk, O.BoxOk, EvaluationsOk,
         DeliveriesOk, O.BoxContinues, RepairsOk, OneOpen, RepairsContinue, AccountContinues, KeysContinue;
    var before := s.repairs[i];
    var s' := WithRepair(s, i, r).(box := Outbox.Enqueued(s.box, now), evaluations := s.evaluations + [Evaluation(i, decision)]);
    RepairOf(s, i);
    StateContinuesItself(s);
    RequestFramed(before.request.value, r.request.value, i);
    OrdersContinueItself(before.request.value, r.request.value);
    assert r.manager == before.manager;
    hide W.Continues, OrdersContinue;
    RepairReplaced(s.repairs, i, r);
    LedgerQuiet(s.repairs, i, r, s.books);
    ChargesReplaced(s.repairs, i, r, s.charges, s.keys.payments);
    CallsStay(s.repairs, s'.repairs, s.charges, s.charges, s.calls);
    KeysSame(s.repairs, s'.repairs, s.books, s.keys);
    DeliveriesStay(s.repairs, s'.repairs, s.evaluations, s.box, s.evaluated);
    O.EnqueuedKeeps(s.box, now);
    EvaluationEnqueued(s.repairs, i, r, decision, s.evaluations, s.box, s.evaluated, now);
  }

  lemma EvaluationEnqueued(repairs: seq<Repair>, i: nat, r: Repair, decision: nat, evaluations: seq<Evaluation>, box: Outbox.Box,
                           evaluated: set<nat>, now: int)
    requires EvaluationsOk(repairs, evaluations) && i < |repairs|
    requires repairs[i].request.Some? && repairs[i].request.value.decision.None?
    requires r.request.Some? && r.request.value.decision == Some(decision)
    requires DeliveriesOk(repairs[i := r], evaluations, box, evaluated) && O.BoxOk(box)
    ensures EvaluationsOk(repairs[i := r], evaluations + [Evaluation(i, decision)])
    ensures DeliveriesOk(repairs[i := r], evaluations + [Evaluation(i, decision)], Outbox.Enqueued(box, now), evaluated)
  {
    var evaluations' := evaluations + [Evaluation(i, decision)];
    forall d | 0 <= d < |evaluations'| ensures EvaluationOk(repairs[i := r], evaluations'[d]) {
      if d < |evaluations| {
        assert EvaluationOk(repairs, evaluations[d]);
      }
    }
    assert evaluations'[|evaluations|] in evaluations';
    hide LeftWaiting;
  }

  lemma DecideReportKeeps(s: State, i: nat, manager: nat, approved: bool, note: Option<string>, now: int)
    requires StateOk(s) && DecideReport(s, i, manager, approved, note, now).Some?
    ensures Steps(s, DecideReport(s, i, manager, approved, note, now).value)
  {
    hide StateOk, DecideCompletion, W.WorkflowOk, W.Continues, P.RequestOk, RepairCharges;
    var r := s.repairs[i];
    RepairOf(s, i);
    W.DecideCompletionKeeps(r, manager, approved, note, now);
    DecideEffect(r, manager, approved, note, now);
    var r' := DecideCompletion(r, manager, approved, note, now).value;
    if approved && r'.request.Some? && LastReport(r).Some? && LastReport(r).value.decision.None? {
      DecisionRecorded(s, i, r', |r.reports| - 1, now);
    } else {
      WorkflowMoved(s, i, r');
    }
  }

  // ---- assigning vendors

  lemma NewRepairOk(s: State, ticket: nat, vendor: nat, byTenant: bool)
    requires ticket < |s.tickets|
    ensures W.WorkflowOk(NewRepair(s, ticket, vendor, byTenant))
  {
  }

  lemma CancelledOk(r: Repair)
    requires W.WorkflowOk(r) && r.status == Requested
    ensures W.WorkflowOk(r.(status := Cancelled)) && W.Continues(r, r.(status := Cancelled))
  {
    hide W.EstimatesOk, W.RevisionsAnswered;
  }

  lemma NothingOpen(repairs: seq<Repair>, k: nat, r: Repair)
    requires OneOpen(repairs) && k < |repairs| && !Closed(repairs[k].status)
    requires r.ticket == repairs[k].ticket && Closed(r.status)
    ensures FindOpen(repairs[k := r], r.ticket).None?
  {
  }

  lemma OneOpenOf(s: State)
    requires StateOk(s)
    ensures OneOpen(s.repairs)
  {
    hide OneOpen;
  }

  lemma AssignVendorKeeps(s: State, manager: nat, ticket: nat, vendor: nat, eligible: bool, assignable: bool)
    requires StateOk(s) && AssignVendor(s, manager, ticket, vendor, eligible, assignable).Some?
    ensures Steps(s, AssignVendor(s, manager, ticket, vendor, eligible, assignable).value)
  {
    hide StateOk, StateContinues, W.WorkflowOk, W.Continues, P.RequestOk, RepairCharges, OneOpen;
    StateContinuesItself(s);
    NewRepairOk(s, ticket, vendor, false);
    var created := NewRepair(s, ticket, vendor, false);
    var found := FindOpen(s.repairs, ticket);
    if found.None? {
      RepairAppended(s, created);
    } else if s.repairs[found.value].vendor != vendor {
      var k := found.value;
      var cancelled := s.repairs[k].(status := Cancelled);
      RepairOf(s, k);
      CancelledOk(s.repairs[k]);
      assert OneOpen(s.repairs) by { OneOpenOf(s); }
      NothingOpen(s.repairs, k, cancelled);
      WorkflowMoved(s, k, cancelled);
      var mid := WithRepair(s, k, cancelled);
      RepairAppended(mid, created);
      StepsTransitive(s, mid, AssignVendor(s, manager, ticket, vendor, eligible, assignable).value);
    }
  }

  lemma RequestVendorKeeps(s: State, tenant: nat, ticket: nat, vendor: nat, key: Key, eligible: bool, requestable: bool)
    requires StateOk(s) && RequestVendor(s, tenant, ticket, vendor, key, eligible, requestable).Some?
    ensures Steps(s, RequestVendor(s, tenant, ticket, vendor, key, eligible, requestable).value)
  {
    hide StateOk, StateContinues, W.WorkflowOk;
    StateContinuesItself(s);
    if key !in s.keys.connections {
      NewRepairOk(s, ticket, vendor, true);
      var mid := s.(repairs := s.repairs + [NewRepair(s, ticket, vendor, true)]);
      RepairAppended(s, NewRepair(s, ticket, vendor, true));
      KeysGrown(mid, s.keys.(connections := s.keys.connections[key := |s.repairs|]));
      StepsTransitive(s, mid, RequestVendor(s, tenant, ticket, vendor, key, eligible, requestable).value);
    }
  }

  // ---- payment transactions that leave the credit account alone

  /** The workflow side of a payment transaction. A manager's request that is still undecided is
      waiting, and nothing but a decision lets it move on. */
  lemma PaymentMoves(r: Repair, q: Request)
    requires W.WorkflowOk(r) && r.request.Some? && P.PaymentStep(r.request.value, q)
    requires q.status == r.request.value.status || r.request.value.status != WaitingCompletion || r.request.value.decision.Some?
    ensures var r' := r.(request := Some(q)); W.WorkflowOk(r') && RepairContinues(r, r')
  {
    hide W.EstimatesOk, W.RevisionsAnswered, W.ReviewOk, P.OrderContinues, HasPending;
  }

  lemma PaymentMoved(s: State, i: nat, q: Request)
    requires StateOk(s) && HasRequest(s, i)
    requires P.Keeps(s.repairs[i].request.value, i, Some(q))
    requires q.status == s.repairs[i].request.value.status || s.repairs[i].request.value.status != WaitingCompletion
             || s.repairs[i].request.value.decision.Some?
    requires SameMoney(s.repairs[i], s.repairs[i].(request := Some(q)))
    requires RepairCharges(s.repairs[i].(request := Some(q)), i, s.charges, s.keys.payments)
    ensures Steps(s, WithRequest(s, i, q))
  {
    hide StateOk, RepairContinues, SameMoney, RepairCharges, W.WorkflowOk, P.RequestOk;
    RepairOf(s, i);
    PaymentMoves(s.repairs[i], q);
    assert q.decision == s.repairs[i].request.value.decision;
    hide P.PaymentStep;
    RepairMoved(s, i, s.repairs[i].(request := Some(q)));
  }

  /** Orders untouched. */
  lemma SameOrdersMoved(s: State, i: nat, q: Request)
    requires StateOk(s) && HasRequest(s, i)
    requires P.Keeps(s.repairs[i].request.value, i, Some(q)) && q.orders == s.repairs[i].request.value.orders
    requires q.status == s.repairs[i].request.value.status || s.repairs[i].request.value.status != WaitingCompletion
             || s.repairs[i].request.value.decision.Some?
    requires SameMoney(s.repairs[i], s.repairs[i].(request := Some(q)))
    ensures Steps(s, WithRequest(s, i, q))
  {
    hide StateOk, SameMoney, OrderCharge, P.RequestOk, P.PaymentStep, W.WorkflowOk;
    RepairOf(s, i);
    PaymentMoved(s, i, q);
  }

  lemma RequestIsOk(s: State, i: nat)
    requires StateOk(s) && HasRequest(s, i)
    ensures P.RequestOk(s.repairs[i].request.value, i) && W.WorkflowOk(s.repairs[i])
  {
    hide W.WorkflowOk, P.RequestOk, RepairCharges, StateOk;
    RepairOf(s, i);
  }

  /** Once out of WAITING_COMPLETION, a manager's request has a decision, and a debit exactly
      when credit paid for it. */
  lemma RequestFacts(s: State, i: nat)
    requires StateOk(s) && HasRequest(s, i)
    ensures var q := s.repairs[i].request.value;
            && (q.debit.Some? ==> CreditPaid(q.status) || q.status == Reversed)
            && (q.payer == Tenant ==> q.status != WaitingCompletion && !CreditPaid(q.status))
            && (CreditPaid(q.status) ==> q.debit.Some?)
  {
    RequestIsOk(s, i);
  }

  lemma ExecuteQuietKeeps(s: State, i: nat, kind: Correction, key: Key)
    requires StateOk(s) && HasRequest(s, i) && kind != CreditReversal && Execute(s, i, kind, key).Some?
    ensures Steps(s, Execute(s, i, kind, key).value)
  {
    hide StateOk, W.WorkflowOk, P.RequestOk, P.PaymentStep, RepairCharges, ActiveOrder, VoidedCost;
    var q := s.repairs[i].request.value;
    RepairOf(s, i);
    RequestFacts(s, i);
    match kind
    case DirectVoid =>
      P.VoidedDirectKeeps(q, i);
      SameOrdersMoved(s, i, VoidedDirect(q, i).value);
    case PaymentCancel =>
      P.CancelledKeeps(q, i);
      SameOrdersMoved(s, i, CancelledRequest(q, i).value);
  }

  lemma RequestDirectKeeps(s: State, i: nat, tenant: nat, key: Key)
    requires StateOk(s) && RequestDirect(s, i, tenant, key).Some?
    ensures Steps(s, RequestDirect(s, i, tenant, key).value)
  {
    hide StateOk, StateContinues, W.WorkflowOk, P.RequestOk, P.PaymentStep, RepairCharges, HasOpenOrder;
    StateContinuesItself(s);
    var q := s.repairs[i].request.value;
    var payload := TenantDirectPayload(i, tenant, q.amount);
    if !IsTenantDirectPending(q) && !IsTenantDirectPaid(q) {
      RepairOf(s, i);
      P.DirectRequestedKeeps(q, i, key, payload);
      var q' := DirectRequested(q, key, payload).value;
      SameOrdersMoved(s, i, q');
      var mid := WithRequest(s, i, q');
      KeysGrown(mid, s.keys.(attempts := s.keys.attempts[key := payload]));
      StepsTransitive(s, mid, RequestDirect(s, i, tenant, key).value);
    }
  }

  lemma ConfirmDirectKeeps(s: State, i: nat, vendor: nat)
    requires StateOk(s) && ConfirmDirect(s, i, vendor).Some?
    ensures Steps(s, ConfirmDirect(s, i, vendor).value)
  {
    hide StateOk, W.WorkflowOk, P.RequestOk, P.PaymentStep, RepairCharges;
    var q := s.repairs[i].request.value;
    RepairOf(s, i);
    RequestFacts(s, i);
    P.DirectConfirmedKeeps(q, i, s.repairs[i].tenant);
    SameOrdersMoved(s, i, DirectConfirmed(q, s.repairs[i].tenant).value);
  }

  // ---- credit settlement and reversal

  lemma AmountIsPositive(r: Repair)
    requires W.WorkflowOk(r) && r.request.Some?
    ensures 0 < r.request.value.amount <= MAX_DATABASE_INT
  {
    var e := r.estimates[r.request.value.estimate];
    assert W.EstimateOk(e);
  }

  /** An entry for a payment request leaves top-ups, payouts and openings as they were. */
  lemma RequestPostKeeps(b: Books, manager: nat, kind: EntryKind, amount: int, i: nat, reverses: Option<nat>, key: LedgerKey)
    requires L.BooksOk(b) && (key.PaymentKey? || key.ReversalKey?)
    requires 0 <= Balance(b, manager) + amount <= MAX_SAFE_CREDIT_BALANCE
    ensures var b' := Post(b, manager, kind, amount, RequestReference(i), reverses, key);
            L.BooksOk(b') && AccountContinues(b, b')
  {
    hide L.BalancesOk;
    L.PostKeepsBalances(b, manager, kind, amount, RequestReference(i), reverses, key);
    L.PostEffect(b, manager, kind, amount, RequestReference(i), reverses, key);
  }

  lemma LedgerSettled(repairs: seq<Repair>, i: nat, q: Request, b: Books, kind: EntryKind, key: LedgerKey)
    requires LedgerOk(repairs, b) && i < |repairs| && repairs[i].request.Some?
    requires repairs[i].request.value.debit.None? && !CreditPaid(repairs[i].request.value.status)
    requires q.amount == repairs[i].request.value.amount && q.debit == Some(|b.ledger|)
    requires (q.status == AutoPaid && kind == AutoDebit) || (q.status == ManualCreditPaid && kind == ManualDebit)
    ensures LedgerOk(repairs[i := repairs[i].(request := Some(q))],
                     Post(b, repairs[i].manager, kind, -q.amount, RequestReference(i), None, key))
  {
    hide L.Count, L.Net, PaidTotal;
    var m := repairs[i].manager;
    var r := repairs[i].(request := Some(q));
    var repairs' := repairs[i := r];
    var b' := Post(b, m, kind, -q.amount, RequestReference(i), None, key);
    L.PostEffect(b, m, kind, -q.amount, RequestReference(i), None, key);
    forall j: nat ensures LedgerRow(repairs', b', j) {
      assert LedgerRow(repairs, b, j);
    }
    forall n: nat ensures L.Net(b'.ledger, n, L.Requests) == -PaidTotal(repairs', n) {
      PaidTotalReplaced(repairs, i, r, n);
    }
  }

  lemma LedgerReversed(repairs: seq<Repair>, i: nat, q: Request, b: Books, key: LedgerKey)
    requires LedgerOk(repairs, b) && i < |repairs| && repairs[i].request.Some?
    requires CreditPaid(repairs[i].request.value.status) && repairs[i].request.value.debit.Some?
    requires q.status == Reversed && (q.amount, q.debit) == (repairs[i].request.value.amount, repairs[i].request.value.debit)
    ensures LedgerOk(repairs[i := repairs[i].(request := Some(q))],
                     Post(b, repairs[i].manager, Reversal, q.amount, RequestReference(i), q.debit, key))
  {
    hide L.Count, L.Net, PaidTotal;
    var m := repairs[i].manager;
    var r := repairs[i].(request := Some(q));
    var repairs' := repairs[i := r];
    var b' := Post(b, m, Reversal, q.amount, RequestReference(i), q.debit, key);
    L.PostEffect(b, m, Reversal, q.amount, RequestReference(i), q.debit, key);
    forall j: nat ensures LedgerRow(repairs', b', j) {
      assert LedgerRow(repairs, b, j);
    }
    forall n: nat ensures L.Net(b'.ledger, n, L.Requests) == -PaidTotal(repairs', n) {
      PaidTotalReplaced(repairs, i, r, n);
    }
  }

  /** What a credit transaction needs to know about the account and the request. */
  lemma CreditFacts(s: State, i: nat)
    requires StateOk(s) && HasRequest(s, i)
    ensures P.RequestOk(s.repairs[i].request.value, i)
    ensures LedgerOk(s.repairs, s.books)
    ensures 0 < s.repairs[i].request.value.amount <= MAX_DATABASE_INT
    ensures 0 <= Balance(s.books, s.repairs[i].manager) <= MAX_SAFE_CREDIT_BALANCE
  {
    hide P.RequestOk, LedgerOk, W.WorkflowOk, L.BalancesOk;
    RequestIsOk(s, i);
    AmountIsPositive(s.repairs[i]);
    L.BalanceInRange(s.books, s.repairs[i].manager);
  }

  /** The parts of the invariant that do not look at the account, after a payment transaction. */
  lemma PaymentParts(s: State, i: nat, q: Request)
    requires StateOk(s) && HasRequest(s, i)
    requires P.Keeps(s.repairs[i].request.value, i, Some(q)) && q.orders == s.repairs[i].request.value.orders
    requires s.repairs[i].request.value.status != WaitingCompletion || s.repairs[i].request.value.decision.Some?
    ensures var repairs' := s.repairs[i := s.repairs[i].(request := Some(q))];
            && RepairsOk(repairs') && OneOpen(repairs') && RepairsContinue(s.repairs, repairs')
            && ChargesOk(repairs', s.charges, s.keys.payments) && CallsOk(repairs', s.charges, s.calls)
            && EvaluationsOk(repairs', s.evaluations) && DeliveriesOk(repairs', s.evaluations, s.box, s.evaluated)
  {
    hide W.WorkflowOk, P.RequestOk, OrderCharge, RepairContinues, L.BooksOk, LedgerOk, ChargesOk, CallsOk, O.BoxOk,
         EvaluationsOk, DeliveriesOk, RepairsOk, OneOpen, RepairsContinue, KeysOk;
    var r := s.repairs[i].(request := Some(q));
    RepairOf(s, i);
    PaymentMoves(s.repairs[i], q);
    assert q.decision == s.repairs[i].request.value.decision;
    hide P.PaymentStep;
    RepairReplaced(s.repairs, i, r);
    ChargesReplaced(s.repairs, i, r, s.charges, s.keys.payments);
    CallsStay(s.repairs, s.repairs[i := r], s.charges, s.charges, s.calls);
    EvaluationsStay(s.repairs, i, r, s.evaluations);
    DeliveriesStay(s.repairs, s.repairs[i := r], s.evaluations, s.box, s.evaluated);
  }

  /** A request and the account move together. */
  lemma CreditMoved(s: State, i: nat, q: Request, kind: EntryKind, amount: int, reverses: Option<nat>, key: LedgerKey)
    requires StateOk(s) && HasRequest(s, i)
    requires P.Keeps(s.repairs[i].request.value, i, Some(q)) && q.orders == s.repairs[i].request.value.orders
    requires s.repairs[i].request.value.status != WaitingCompletion || s.repairs[i].request.value.decision.Some?
    requires (key.PaymentKey? && key.key in s.keys.attempts) || (key.ReversalKey? && key.key in s.keys.receipts)
    requires 0 <= Balance(s.books, s.repairs[i].manager) + amount <= MAX_SAFE_CREDIT_BALANCE
    requires LedgerOk(s.repairs[i := s.repairs[i].(request := Some(q))],
                      Post(s.books, s.repairs[i].manager, kind, amount, RequestReference(i), reverses, key))
    ensures Steps(s, WithRequest(s, i, q).(books := Post(s.books, s.repairs[i].manager, kind, amount, RequestReference(i), reverses, key)))
  {
    hide P.Keeps, L.BooksOk, LedgerOk, ChargesOk, CallsOk, O.BoxOk, EvaluationsOk, DeliveriesOk, O.BoxContinues, RepairsOk, OneOpen,
         RepairsContinue, AccountContinues, KeysContinue, KeysOk;
    var b := Post(s.books, s.repairs[i].manager, kind, amount, RequestReference(i), reverses, key);
    StateContinuesItself(s);
    PaymentParts(s, i, q);
    RequestPostKeeps(s.books, s.repairs[i].manager, kind, amount, i, reverses, key);
    KeysStay(s.repairs, WithRequest(s, i, q).repairs, s.books, b, s.keys, s.keys);
  }

  lemma CreditSettledKeeps(s: State, i: nat, mode: Mode, key: Key, payload: AttemptPayload)
    requires StateOk(s) && HasRequest(s, i) && key in s.keys.attempts
    requires mode == AutoCredit || mode == ManualCredit
    requires var q := s.repairs[i].request.value;
             q.payer == Manager && !Final(q.status) && !ActiveOrder(q, i) && q.decision.Some? && CanDebit(s.books, s.repairs[i].manager, q.amount)
    ensures var q := s.repairs[i].request.value;
            var next := Settled(q, i, mode, key, payload, None, Some(|s.books.ledger|));
            && next.Some?
            && Steps(s, WithRequest(s, i, next.value).(
                        books := Post(s.books, s.repairs[i].manager, DebitKind(mode), -q.amount, RequestReference(i), None, PaymentKey(key))))
  {
    hide StateOk, P.RequestOk, P.PaymentStep, LedgerOk, ActiveOrder, Settled;
    var q := s.repairs[i].request.value;
    CreditFacts(s, i);
    RequestFacts(s, i);
    P.SettledKeeps(q, i, mode, key, payload, None, Some(|s.books.ledger|));
    var paid := Settled(q, i, mode, key, payload, None, Some(|s.books.ledger|)).value;
    SettledFields(q, i, mode, key, payload, Some(|s.books.ledger|));
    LedgerSettled(s.repairs, i, paid, s.books, DebitKind(mode), PaymentKey(key));
    CreditMoved(s, i, paid, DebitKind(mode), -q.amount, None, PaymentKey(key));
  }

  lemma SettledFields(q: Request, i: nat, mode: Mode, key: Key, payload: AttemptPayload, debit: Option<nat>)
    requires Settled(q, i, mode, key, payload, None, debit).Some?
    ensures var paid := Settled(q, i, mode, key, payload, None, debit).value;
            paid.orders == q.orders && paid.debit == debit && paid.status == PaidStatus(mode) && paid.amount == q.amount
  {
  }

  lemma ReverseKeeps(s: State, i: nat, key: Key)
    requires StateOk(s) && HasRequest(s, i) && Reverse(s, i, key).Some? && key in s.keys.receipts
    ensures Steps(s, Reverse(s, i, key).value)
  {
    hide StateOk, P.RequestOk, P.PaymentStep, LedgerOk;
    var q := s.repairs[i].request.value;
    CreditFacts(s, i);
    P.ReversedKeeps(q, i);
    var q' := ReversedRequest(q, i).value;
    LedgerReversed(s.repairs, i, q', s.books, ReversalKey(key));
    CreditMoved(s, i, q', Reversal, q.amount, q.debit, ReversalKey(key));
  }

  lemma DirectSettledKeeps(s: State, i: nat, key: Key, payload: AttemptPayload, evidence: Evidence)
    requires StateOk(s) && HasRequest(s, i)
    requires var q := s.repairs[i].request.value; q.payer == Manager && !Final(q.status) && !ActiveOrder(q, i) && q.decision.Some?
    ensures var next := Settled(s.repairs[i].request.value, i, Direct, key, payload, Some(evidence), None);
            next.Some? && Steps(s, WithRequest(s, i, next.value))
  {
    hide StateOk, P.RequestOk, P.PaymentStep, ActiveOrder;
    var q := s.repairs[i].request.value;
    CreditFacts(s, i);
    RequestFacts(s, i);
    P.SettledKeeps(q, i, Direct, key, payload, Some(evidence), None);
    SameOrdersMoved(s, i, Settled(q, i, Direct, key, payload, Some(evidence), None).value);
  }

  lemma LackCreditKeeps(s: State, i: nat, mode: Mode, key: Key, payload: AttemptPayload)
    requires StateOk(s) && HasRequest(s, i)
    requires var q := s.repairs[i].request.value; q.payer == Manager && !Final(q.status) && !ActiveOrder(q, i) && q.decision.Some?
    ensures Steps(s, WithRequest(s, i, LackCredit(s.repairs[i].request.value, mode, key, payload)))
  {
    hide StateOk, P.RequestOk, P.PaymentStep, ActiveOrder;
    var q := s.repairs[i].request.value;
    CreditFacts(s, i);
    RequestFacts(s, i);
    P.LackCreditKeeps(q, i, mode, key, payload);
    SameOrdersMoved(s, i, LackCredit(q, mode, key, payload));
  }

  predicate Settleable(s: State, i: nat) {
    HasRequest(s, i) &&
    var q := s.repairs[i].request.value;
    q.payer == Manager && !Final(q.status) && !ActiveOrder(q, i) && q.decision.Some?
  }

  lemma SettleLockedKeeps(s: State, i: nat, mode: Mode, key: Key, payload: AttemptPayload, evidence: Option<Evidence>)
    requires StateOk(s) && Settleable(s, i) && mode != Toss && (mode == Direct <==> evidence.Some?)
    ensures var next := SettleLocked(s, i, mode, key, payload, evidence); next.Some? ==> Steps(s, next.value)
  {
    hide StateOk, StateContinues, Settled, LackCredit, ActiveOrder, Post;
    var next := SettleLocked(s, i, mode, key, payload, evidence);
    if next.Some? {
      var mid := s.(keys := s.keys.(attempts := s.keys.attempts[key := payload]));
      KeysGrown(s, mid.keys);
      if mode == Direct {
        DirectSettledKeeps(mid, i, key, payload, evidence.value);
      } else if !CanDebit(s.books, s.repairs[i].manager, s.repairs[i].request.value.amount) {
        LackCreditKeeps(mid, i, mode, key, payload);
      } else {
        CreditSettledKeeps(mid, i, mode, key, payload);
      }
      StepsTransitive(s, mid, next.value);
    }
  }

  /** A settlement key that is new to the attempts is new to the ledger, so a valid settlement
      of an open request is never refused for a duplicate. */
  lemma SettleLockedSucceeds(s: State, i: nat, mode: Mode, key: Key, payload: AttemptPayload, evidence: Option<Evidence>)
    requires StateOk(s) && Settleable(s, i) && mode != Toss && (mode == Direct <==> evidence.Some?)
    ensures SettleLocked(s, i, mode, key, payload, evidence).Some? <==> key !in s.keys.attempts
  {
    assert PaymentKey(key) in s.books.ledgerKeys ==> key in s.keys.attempts;
    assert s.repairs[i].request.value.cost.None? by { RequestIsOk(s, i); }
  }

  lemma EnsureAccountContinues(b: Books, manager: nat)
    ensures AccountContinues(b, EnsureAccount(b, manager))
  {
  }

  lemma WithAccountKeeps(s: State, manager: nat)
    requires StateOk(s)
    ensures Steps(s, WithAccount(s, manager))
  {
    hide L.BalancesOk, L.RowsOk, L.TopupEntriesOk;
    L.EnsureAccountKeeps(s.books, manager);
    EnsureAccountContinues(s.books, manager);
    hide L.BooksOk, L.Keeps, AccountContinues;
    BooksMoved(s, EnsureAccount(s.books, manager));
  }

  lemma ValidIsManaged(s: State, i: nat, decision: nat)
    requires StateOk(s) && HasRequest(s, i) && SettlementValid(s.repairs[i], decision)
    ensures s.repairs[i].request.value.payer == Manager && s.repairs[i].request.value.decision == Some(decision)
  {
    RequestIsOk(s, i);
  }

  lemma SettleKeeps(s: State, i: nat, manager: nat, mode: Mode, key: Key, actor: nat, decision: Option<nat>, evidence: Option<Evidence>, now: int)
    requires StateOk(s)
    ensures var next := Settle(s, i, manager, mode, key, actor, decision, evidence, now); next.Some? ==> Steps(s, next.value)
  {
    var next := Settle(s, i, manager, mode, key, actor, decision, evidence, now);
    StateContinuesItself(s);
    if next.Some? && next != Some(s) {
      hide StateOk, StateContinues, SettlementValid, SettleLocked, EvidenceOk;
      var q := s.repairs[i].request.value;
      var chosen := if decision.Some? then decision else q.decision;
      ValidIsManaged(s, i, chosen.value);
      WithAccountKeeps(s, manager);
      SettleLockedKeeps(WithAccount(s, manager), i, mode, key, SettlePayload(i, mode, actor, chosen.value, evidence), evidence);
      StepsTransitive(s, WithAccount(s, manager), next.value);
    }
  }

  lemma AwaitApprovalKeeps(s: State, i: nat)
    requires StateOk(s) && HasRequest(s, i)
    requires s.repairs[i].request.value.status == WaitingCompletion && s.repairs[i].request.value.decision.Some?
    ensures Steps(s, WithRequest(s, i, AwaitApproval(s.repairs[i].request.value)))
  {
    hide StateOk, P.RequestOk, P.PaymentStep;
    var q := s.repairs[i].request.value;
    CreditFacts(s, i);
    RequestFacts(s, i);
    P.AwaitApprovalKeeps(q, i);
    SameOrdersMoved(s, i, AwaitApproval(q));
  }

  lemma EvaluateKeeps(s: State, i: nat, manager: nat, decision: nat)
    requires StateOk(s)
    ensures var next := Evaluate(s, i, manager, decision); next.Some? ==> Steps(s, next.value)
  {
    var next := Evaluate(s, i, manager, decision);
    StateContinuesItself(s);
    if next.Some? && s.repairs[i].request.value.status != WaitingCompletion {
    } else if next.Some? {
      hide StateOk, StateContinues, SettlementValid, SettleLocked, AwaitApproval;
      ValidIsManaged(s, i, decision);
      WithAccountKeeps(s, manager);
      var mid := WithAccount(s, manager);
      if !ShouldAutoDebit(mid.books, manager, s.repairs[i].request.value.amount) {
        AwaitApprovalKeeps(mid, i);
      } else {
        SettleLockedKeeps(mid, i, AutoCredit, AutoSettlement(i, decision), SettlePayload(i, AutoCredit, manager, decision, None), None);
      }
      StepsTransitive(s, mid, next.value);
    }
  }

  lemma ExecuteKeeps(s: State, i: nat, kind: Correction, key: Key)
    requires StateOk(s) && HasRequest(s, i) && Execute(s, i, kind, key).Some? && key in s.keys.receipts
    ensures Steps(s, Execute(s, i, kind, key).value)
  {
    hide StateOk, StateContinues, Reverse;
    if kind == CreditReversal {
      ReverseKeeps(s, i, key);
    } else {
      ExecuteQuietKeeps(s, i, kind, key);
    }
  }

  lemma CorrectKeeps(s: State, key: Key, payload: CorrectionPayload)
    requires StateOk(s)
    ensures Correct(s, key, payload).Some? ==> Steps(s, Correct(s, key, payload).value)
  {
    hide StateOk, StateContinues, Execute;
    var next := Correct(s, key, payload);
    StateContinuesItself(s);
    if next.Some? && key !in s.keys.receipts {
      var i := payload.request;
      var mid := s.(keys := s.keys.(receipts := s.keys.receipts[key := payload]));
      KeysGrown(s, mid.keys);
      ExecuteFramed(s, i, payload.kind, key, mid.keys);
      ExecuteLeavesKeys(s, i, payload.kind, key);
      ExecuteKeeps(mid, i, payload.kind, key);
      StepsTransitive(s, mid, next.value);
    }
  }

  lemma ExecuteLeavesKeys(s: State, i: nat, kind: Correction, key: Key)
    requires HasRequest(s, i) && Execute(s, i, kind, key).Some?
    ensures Execute(s, i, kind, key).value.keys == s.keys
  {
  }

  /** A correction does not look at the unique keys outside the ledger. */
  lemma ExecuteFramed(s: State, i: nat, kind: Correction, key: Key, keys: Keys)
    requires HasRequest(s, i) && Execute(s, i, kind, key).Some?
    ensures Execute(s.(keys := keys), i, kind, key) == Some(Execute(s, i, kind, key).value.(keys := keys))
  {
  }
}
