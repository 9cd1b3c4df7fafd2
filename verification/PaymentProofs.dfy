/** What every payment transaction keeps for its request. */
module PaymentProofs {
  import opened Options
  import opened Types
  import opened Payments

  // ---- the invariant of one payment request

  /** Costs, debits and statuses agree. */
  predicate BooksAgree(q: Request, id: nat) {
    match q.payer
    case Tenant =>
      && q.cost.None? && q.debit.None?
      && (q.status == PendingApproval || q.status == DirectPaid || q.status == TossPaid || q.status == PaymentCancelled)
      && (q.status == DirectPaid ==> q.lastMode == Some(Direct))
    case Manager =>
      && (q.debit.Some? <==> CreditPaid(q.status) || q.status == Reversed)
      && match q.status
         case AutoPaid | ManualCreditPaid => q.cost == Some(Cost(Confirmed, q.amount, ByRepair(id)))
         case DirectPaid => q.directReference.Some? && q.cost == Some(Cost(Confirmed, q.amount, q.directReference.value))
         case TossPaid => q.cost.Some? && q.cost.value.reference.ByOrder? && q.cost == Some(Cost(Confirmed, q.amount, q.cost.value.reference))
         case Reversed | DirectPaymentVoided => q.cost.Some? && q.cost == Some(Cost(Void, q.amount, q.cost.value.reference))
         case _ => q.cost.None?
  }

  /** A success by credit or direct payment has happened. */
  predicate PaidByAttempt(status: PayStatus) {
    CreditPaid(status) || status == DirectPaid || status == Reversed || status == DirectPaymentVoided
  }

  /** Which kind of attempt may have succeeded in which status. */
  predicate ModeFits(status: PayStatus, mode: Mode) {
    match status
    case AutoPaid => mode == AutoCredit
    case ManualCreditPaid => mode == ManualCredit
    case Reversed => mode == AutoCredit || mode == ManualCredit
    case DirectPaid | DirectPaymentVoided => mode == Direct
    case _ => false
  }

  predicate AttemptsOk(q: Request) {
    && (forall j, k :: 0 <= j < k < |q.attempts| && q.attempts[j].status == Succeeded ==> q.attempts[k].status != Succeeded)
    && (forall k :: 0 <= k < |q.attempts| && q.attempts[k].status == Succeeded ==> ModeFits(q.status, q.attempts[k].mode))
    && (PaidByAttempt(q.status) ==> exists k :: 0 <= k < |q.attempts| && q.attempts[k].status == Succeeded)
    && (q.status == WaitingCompletion ==> q.attempts == [])
    && (IsTenantDirectPending(q) ==> exists k :: 0 <= k < |q.attempts| && q.attempts[k].mode == Direct && q.attempts[k].status == Started)
    && (q.payer == Manager ==> forall k :: 0 <= k < |q.attempts| ==> q.attempts[k].status != Started)
  }

  predicate OrderOk(q: Request, id: nat, order: Order) {
    && order.amount == q.amount
    && order.openOrderKey == (if OpenOrder(order.status) then Some(id) else None)
    && (order.status == Ready ==> order.paymentKey.None?)
    && (InFlight(order.status) || order.status == OrderApproved || order.status == Failed ==> order.paymentKey.Some?)
    && (order.status == OrderApproved <==> order.approval.Some?)
    && (order.status == OrderApproved ==> q.status == TossPaid)
    && (OpenOrder(order.status) ==> CanPrepareToss(q))
  }

  /** At most one order is open or approved; an open one pins the request. */
  predicate OrdersOk(q: Request, id: nat) {
    && (forall k :: 0 <= k < |q.orders| ==> OrderOk(q, id, q.orders[k]))
    && (forall j, k :: 0 <= j < k < |q.orders| && LiveOrder(q.orders[j].status) ==> !LiveOrder(q.orders[k].status))
    && (q.status == TossPaid ==> exists k :: 0 <= k < |q.orders| && q.orders[k].status == OrderApproved)
    && (q.status == WaitingCompletion ==> q.orders == [])
  }

  predicate LiveOrder(status: OrderStatus) {
    OpenOrder(status) || status == OrderApproved
  }

  /** A terminal status in the audit trail has really been reached. */
  predicate AuditReached(q: Request, status: PayStatus) {
    || q.status == status
    || (q.status == Reversed && CreditPaid(status))
    || (q.status == DirectPaymentVoided && status == DirectPaid)
  }

  /** Every audit row is written once, and so is the domain event under the same key. */
  predicate AuditsOk(q: Request) {
    && (forall s :: Final(s) && OfStatus(s) in q.audits ==> AuditReached(q, s))
    && (TenantDirectPaid in q.audits ==> q.status == DirectPaid && q.payer == Tenant)
    && (forall k :: 0 <= k < |q.events| ==> q.events[k] in q.audits)
    && (forall j, k :: 0 <= j < k < |q.events| ==> q.events[j] != q.events[k])
  }

  predicate RequestOk(q: Request, id: nat) {
    BooksAgree(q, id) && AttemptsOk(q) && OrdersOk(q, id) && AuditsOk(q)
  }

  /** What a payment transaction never changes; a request leaves WAITING_COMPLETION once. */
  predicate PaymentStep(q: Request, q': Request) {
    && (q'.payer, q'.amount, q'.estimate, q'.report, q'.decision) == (q.payer, q.amount, q.estimate, q.report, q.decision)
    && (q.status != WaitingCompletion ==> q'.status != WaitingCompletion)
    && (Final(q.status) ==> Final(q'.status))
    && q.events <= q'.events
    && |q.attempts| <= |q'.attempts|
    && (forall k :: 0 <= k < |q.attempts| ==> q'.attempts[k].key == q.attempts[k].key && q'.attempts[k].payload == q.attempts[k].payload)
    && |q.orders| <= |q'.orders|
    && (forall k :: 0 <= k < |q.orders| ==> OrderContinues(q.orders[k], q'.orders[k]))
  }

  predicate OrderContinues(o: Order, o': Order) {
    && (o'.amount, o'.creation, o'.retryOf) == (o.amount, o.creation, o.retryOf)
    && (o.paymentKey.Some? ==> o'.paymentKey == o.paymentKey)
    && (o.status != Ready ==> o'.status != Ready)
    && (o.status == OrderApproved || o.status == OrderCancelled ==> o' == o)
  }

  predicate Keeps(q: Request, id: nat, next: Option<Request>) {
    next.Some? ==> RequestOk(next.value, id) && PaymentStep(q, next.value)
  }

  // ---- audit

  /** A status change followed by its audit row. */
  lemma AnnouncedOk(q: Request, moved: Request, key: AuditKey)
    requires AuditsOk(q)
    requires (moved.audits, moved.events, moved.payer) == (q.audits, q.events, q.payer)
    requires key == OfStatus(moved.status) || (key == TenantDirectPaid && moved.status == DirectPaid && moved.payer == Tenant)
    requires forall s :: Final(s) && AuditReached(q, s) ==> AuditReached(moved, s)
    requires q.status == DirectPaid && q.payer == Tenant ==> moved.status == DirectPaid
    ensures var q' := Announce(moved, key);
            && AuditsOk(q') && key in q'.audits
            && q' == moved.(audits := q'.audits, events := q'.events)
  {
  }

  // ---- new requests

  lemma {:induction false} NewRequestOk(payer: Party, amount: int, estimate: nat, report: nat, id: nat)
    ensures RequestOk(Request(payer, amount, estimate, report, None,
                              if payer == Manager then WaitingCompletion else PendingApproval,
                              None, None, None, None, [], [], {}, []), id)
  {
  }

  // ---- settlement

  lemma {:induction false} AwaitApprovalKeeps(q: Request, id: nat)
    requires RequestOk(q, id) && q.status == WaitingCompletion
    ensures Keeps(q, id, Some(AwaitApproval(q)))
  {
    hide AuditsOk;
    AnnouncedOk(q, q.(status := PendingApproval, lastMode := None), OfStatus(PendingApproval));
  }

  lemma {:induction false} LackCreditKeeps(q: Request, id: nat, mode: Mode, key: Key, payload: AttemptPayload)
    requires RequestOk(q, id) && q.payer == Manager && !Final(q.status) && !ActiveOrder(q, id)
    ensures Keeps(q, id, Some(LackCredit(q, mode, key, payload)))
  {
    hide AuditsOk;
    AnnouncedOk(q, q.(status := InsufficientCredit, lastMode := Some(mode),
                      attempts := q.attempts + [Attempt(key, mode, NoCredit, payload)]), OfStatus(InsufficientCredit));
  }

  lemma SuccessAppended(q: Request, q': Request, attempt: Attempt)
    requires AttemptsOk(q) && !PaidByAttempt(q.status) && ModeFits(q'.status, attempt.mode) && attempt.status == Succeeded
    requires q'.payer == Manager == q.payer && q'.attempts == q.attempts + [attempt]
    ensures AttemptsOk(q')
  {
    assert q'.attempts[|q.attempts|].status == Succeeded;
  }

  /** Without an active order, any status but TOSS_PAID suits the orders. */
  lemma IdleOrdersOk(q: Request, id: nat, q': Request)
    requires OrdersOk(q, id) && !ActiveOrder(q, id) && q.status != TossPaid
    requires (q'.orders, q'.amount) == (q.orders, q.amount) && q'.status != TossPaid && q'.status != WaitingCompletion
    ensures OrdersOk(q', id)
  {
  }

  lemma {:induction false} SettledKeeps(q: Request, id: nat, mode: Mode, key: Key, payload: AttemptPayload,
                     evidence: Option<Evidence>, debit: Option<nat>)
    requires RequestOk(q, id) && q.payer == Manager && !Final(q.status) && !ActiveOrder(q, id)
    requires mode != Toss && (mode == Direct <==> evidence.Some?) && (mode == Direct <==> debit.None?)
    ensures Settled(q, id, mode, key, payload, evidence, debit).Some?
    ensures Keeps(q, id, Settled(q, id, mode, key, payload, evidence, debit))
  {
    hide AuditsOk, OrdersOk, AttemptsOk, ActiveOrder;
    var next := Settled(q, id, mode, key, payload, evidence, debit).value;
    SuccessAppended(q, next, Attempt(key, mode, Succeeded, payload));
    IdleOrdersOk(q, id, next);
    AnnouncedOk(q, next.(audits := q.audits, events := q.events), OfStatus(PaidStatus(mode)));
  }

  // ---- corrections

  /** The consistency checks of a reversal never fail for a credit-paid request. */
  lemma {:induction false} ReversedKeeps(q: Request, id: nat)
    requires RequestOk(q, id)
    ensures ReversedRequest(q, id).Some? <==> CreditPaid(q.status)
    ensures Keeps(q, id, ReversedRequest(q, id))
  {
    var next := ReversedRequest(q, id);
    if CreditPaid(q.status) {
      assert OfStatus(Reversed) !in q.audits;
      hide AuditsOk;
      AnnouncedOk(q, q.(status := Reversed, cost := next.value.cost), OfStatus(Reversed));
    }
  }

  /** Those of a void never fail for a manager's direct payment, and always fail for a tenant's. */
  lemma {:induction false} VoidedDirectKeeps(q: Request, id: nat)
    requires RequestOk(q, id)
    ensures VoidedDirect(q, id).Some? <==> q.status == DirectPaid && q.payer == Manager
    ensures Keeps(q, id, VoidedDirect(q, id))
  {
    var next := VoidedDirect(q, id);
    if q.status == DirectPaid && q.payer == Manager {
      assert OfStatus(DirectPaymentVoided) !in q.audits;
      hide AuditsOk;
      AnnouncedOk(q, q.(status := DirectPaymentVoided, cost := next.value.cost), OfStatus(DirectPaymentVoided));
    }
  }

  lemma {:induction false} CancelledKeeps(q: Request, id: nat)
    requires RequestOk(q, id)
    ensures CancelledRequest(q, id).Some? <==> Payable(q.status) && !HasOpenOrder(q)
    ensures Keeps(q, id, CancelledRequest(q, id))
  {
    if CancelledRequest(q, id).Some? {
      hide AuditsOk;
      AnnouncedOk(q, q.(status := PaymentCancelled), OfStatus(PaymentCancelled));
    }
  }

  // ---- the tenant's direct payment

  lemma {:induction false} DirectRequestedKeeps(q: Request, id: nat, key: Key, payload: AttemptPayload)
    requires RequestOk(q, id) && q.payer == Tenant
    ensures Keeps(q, id, DirectRequested(q, key, payload))
  {
    if DirectRequested(q, key, payload).Some? {
      assert DirectRequested(q, key, payload).value.attempts[|q.attempts|].status == Started;
    }
  }

  lemma {:induction false} DirectConfirmedKeeps(q: Request, id: nat, tenant: nat)
    requires RequestOk(q, id)
    ensures Keeps(q, id, DirectConfirmed(q, tenant))
  {
    var next := DirectConfirmed(q, tenant);
    if next.Some? && !IsTenantDirectPaid(q) {
      hide AuditsOk;
      var k := LastStarted(q.attempts).value;
      AnnouncedOk(q, next.value.(audits := q.audits, events := q.events), TenantDirectPaid);
      assert next.value.attempts[k].status == Succeeded;
    }
  }

  // ---- Toss orders

  /** Only one part of the invariant looks at the orders. */
  lemma OrdersOnly(q: Request, q': Request, id: nat)
    requires RequestOk(q, id) && q' == q.(orders := q'.orders)
    ensures BooksAgree(q', id) && AttemptsOk(q') && AuditsOk(q')
  {
  }

  /** An order row is judged by the request's own columns. */
  lemma SameRow(q: Request, q': Request, id: nat)
    requires q' == q.(orders := q'.orders)
    ensures forall o :: OrderOk(q, id, o) ==> OrderOk(q', id, o)
  {
  }

  /** Replacing one order row that is neither approved before nor after. */
  lemma {:induction false} OrderRowKeeps(q: Request, id: nat, k: nat, row: Order)
    requires RequestOk(q, id) && k < |q.orders|
    requires OrderOk(q, id, row) && OrderContinues(q.orders[k], row)
    requires q.orders[k].status != OrderApproved && row.status != OrderApproved
    requires OpenOrder(row.status) ==> OpenOrder(q.orders[k].status)
    ensures Keeps(q, id, Some(WithOrder(q, k, row)))
  {
    hide BooksAgree, AttemptsOk, AuditsOk, CanPrepareToss;
    OrdersOnly(q, WithOrder(q, k, row), id);
    SameRow(q, WithOrder(q, k, row), id);
    var orders := q.orders[k := row];
    if q.status == TossPaid {
      var j :| 0 <= j < |q.orders| && q.orders[j].status == OrderApproved;
      assert orders[j] == q.orders[j];
    }
    assert forall j :: 0 <= j < |orders| && LiveOrder(orders[j].status) ==> LiveOrder(q.orders[j].status);
  }

  /** Adding one order when none is open. */
  lemma {:induction false} OrderAddedKeeps(q: Request, id: nat, creation: CreationPayload, retryOf: Option<nat>)
    requires RequestOk(q, id) && CanPrepareToss(q) && !OpenKeyHeld(q, id)
    ensures Keeps(q, id, Some(q.(orders := q.orders + [NewOrder(q, id, creation, retryOf)])))
  {
    hide BooksAgree, AttemptsOk, AuditsOk;
    var q' := q.(orders := q.orders + [NewOrder(q, id, creation, retryOf)]);
    OrdersOnly(q, q', id);
    SameRow(q, q', id);
    assert forall k :: 0 <= k < |q.orders| ==> OrderOk(q, id, q.orders[k]) && !OpenOrder(q.orders[k].status);
  }

  lemma {:induction false} OrderPlacedKeeps(q: Request, id: nat, creation: CreationPayload)
    requires RequestOk(q, id)
    ensures Keeps(q, id, OrderPlaced(q, id, creation))
  {
    if OrderPlaced(q, id, creation).Some? {
      OrderAddedKeeps(q, id, creation, None);
    }
  }

  lemma {:induction false} OrderRetriedKeeps(q: Request, id: nat, k: nat, creation: CreationPayload)
    requires RequestOk(q, id)
    ensures Keeps(q, id, OrderRetried(q, id, k, creation))
  {
    if OrderRetried(q, id, k, creation).Some? {
      if q.orders[k].status == Ready {
        var row := q.orders[k].(status := OrderCancelled, openOrderKey := None);
        OrderRowKeeps(q, id, k, row);
        OrderAddedKeeps(WithOrder(q, k, row), id, creation, Some(k));
      } else {
        OrderAddedKeeps(q, id, creation, Some(k));
      }
    }
  }

  lemma {:induction false} ClaimKeeps(q: Request, id: nat, k: nat, paymentKey: string, amount: int, keyTaken: bool)
    requires RequestOk(q, id)
    ensures var c := ClaimConfirmation(q, id, k, paymentKey, amount, keyTaken);
            c.Claimed? ==> Keeps(q, id, Some(c.request))
  {
    if ClaimConfirmation(q, id, k, paymentKey, amount, keyTaken).Claimed? {
      OrderRowKeeps(q, id, k, q.orders[k].(status := Confirming, paymentKey := Some(paymentKey), openOrderKey := Some(id)));
    }
  }

  lemma ApprovedOrdersOk(q: Request, id: nat, k: nat, q': Request)
    requires OrdersOk(q, id) && k < |q.orders| && InFlight(q.orders[k].status)
    requires q'.status == TossPaid && q'.amount == q.amount && |q'.orders| == |q.orders|
    requires q'.orders == q.orders[k := q'.orders[k]]
    requires OrderOk(q', id, q'.orders[k]) && q'.orders[k].status == OrderApproved
    ensures OrdersOk(q', id)
  {
    assert forall j :: 0 <= j < |q.orders| && j != k ==> !LiveOrder(q.orders[j].status);
  }

  lemma {:induction false} OrderFinalizedKeeps(q: Request, id: nat, k: nat, payment: Snapshot)
    requires RequestOk(q, id)
    ensures Keeps(q, id, OrderFinalized(q, id, k, payment))
  {
    var next := OrderFinalized(q, id, k, payment);
    if next.Some? && InFlight(q.orders[k].status) {
      ApprovedOrdersOk(q, id, k, next.value);
      hide AuditsOk, OrdersOk;
      AnnouncedOk(q, next.value.(audits := q.audits, events := q.events), OfStatus(TossPaid));
    }
  }

  lemma {:induction false} OrderRejectedKeeps(q: Request, id: nat, k: nat)
    requires RequestOk(q, id)
    ensures Keeps(q, id, OrderRejected(q, k))
  {
    if OrderRejected(q, k).Some? {
      OrderRowKeeps(q, id, k, q.orders[k].(status := Failed, openOrderKey := None));
    }
  }

  lemma {:induction false} OrderUncertainKeeps(q: Request, id: nat, k: nat)
    requires RequestOk(q, id)
    ensures Keeps(q, id, OrderUncertain(q, id, k))
  {
    if OrderUncertain(q, id, k).Some? {
      OrderRowKeeps(q, id, k, q.orders[k].(status := ReconciliationRequired, openOrderKey := Some(id)));
    }
  }

  lemma {:induction false} OrderCancelledKeeps(q: Request, id: nat, k: nat)
    requires RequestOk(q, id)
    ensures Keeps(q, id, OrderCancelledByUser(q, k))
  {
    if OrderCancelledByUser(q, k).Some? {
      OrderRowKeeps(q, id, k, q.orders[k].(status := OrderCancelled, openOrderKey := None));
    }
  }

  /** For a confirming or uncertain order the conflict checks of finalization cannot fire. */
  lemma {:induction false} FinalizationSucceeds(q: Request, id: nat, k: nat, payment: Snapshot)
    requires RequestOk(q, id) && k < |q.orders| && InFlight(q.orders[k].status)
    requires payment.status == Done && payment.means.Some? && payment.approvedAt.Some?
    requires (payment.repair, payment.order) == (id, k)
    requires q.orders[k].paymentKey == Some(payment.paymentKey) && payment.amount == q.orders[k].amount
    ensures OrderFinalized(q, id, k, payment).Some?
    ensures var q' := OrderFinalized(q, id, k, payment).value;
            k < |q'.orders| && q'.status == TossPaid && q'.orders[k].status == OrderApproved
  {
    assert OrderOk(q, id, q.orders[k]);
  }
}
