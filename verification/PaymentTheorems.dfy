/** No stranded charge: what the provider has charged is always on its way to being booked, and
    no request is paid twice. */
module PaymentTheorems {
  import opened Options
  import opened Types
  import opened Payments
  import opened Ledger
  import opened Platform
  import opened Invariant
  import opened RequestSteps
  import opened OrderSteps
  import opened Runs
  import P = PaymentProofs
  import W = WorkflowProofs

  predicate IsCharged(s: State, ref: OrderRef) {
    ref in s.charges && s.charges[ref] == Charged
  }

  predicate NothingSucceeded(q: Request) {
    forall k :: 0 <= k < |q.attempts| ==> q.attempts[k].status != Succeeded
  }

  lemma ChargedOrder(s: State, ref: OrderRef)
    requires StateOk(s) && IsCharged(s, ref)
    ensures HasOrder(s, ref) && P.LiveOrder(OrderAt(s, ref).status) && OrderAt(s, ref).status != Ready
    ensures P.OrderOk(s.repairs[ref.request].request.value, ref.request, OrderAt(s, ref))
  {
    hide StateOk, P.OrderOk;
    ChargeIsKnown(s, ref);
    OrderFacts(s, ref);
    KeyedStatus(s.repairs[ref.request].request.value, ref.request, OrderAt(s, ref));
  }

  lemma ChargeIsKnown(s: State, ref: OrderRef)
    requires StateOk(s) && ref in s.charges
    ensures HasOrder(s, ref)
  {
    hide RepairsOk, LedgerOk, CallsOk, KeysOk, RepairCharges;
    assert OrderKnown(s.repairs, ref);
  }

  /** Only an order that was claimed has a payment key. */
  lemma KeyedStatus(q: Request, i: nat, o: Order)
    requires P.OrderOk(q, i, o) && o.paymentKey.Some?
    ensures o.status != Ready
  {
  }

  /** A charged order is confirming, uncertain or approved. Until it is approved its request is
      open for exactly this payment: nothing else has paid it, no other order of it was charged,
      and it is not a tenant's direct payment in progress. */
  lemma NoStrandedCharge(tickets: seq<Ticket>, commands: seq<Command>, ref: OrderRef)
    ensures var s := Run(Initial(tickets), commands);
            IsCharged(s, ref) ==>
              && HasOrder(s, ref)
              && var q, o := s.repairs[ref.request].request.value, OrderAt(s, ref);
                 && (InFlight(o.status) || o.status == OrderApproved)
                 && (InFlight(o.status) ==> Payable(q.status) && !IsTenantDirectPending(q) && q.cost.None?)
                 && (o.status == OrderApproved ==> q.status == TossPaid)
                 && q.debit.None? && NothingSucceeded(q)
                 && forall k: nat :: IsCharged(s, OrderRef(ref.request, k)) ==> k == ref.order
  {
    hide StateOk, Run, P.AuditsOk, P.OrderOk;
    var s := Run(Initial(tickets), commands);
    Reachable(tickets, commands);
    if IsCharged(s, ref) {
      ChargedOrder(s, ref);
      RequestIsOk(s, ref.request);
      var q, o := s.repairs[ref.request].request.value, OrderAt(s, ref);
      ChargedRequest(q, ref.request, o);
      forall k: nat | IsCharged(s, OrderRef(ref.request, k)) ensures k == ref.order {
        ChargedOrder(s, OrderRef(ref.request, k));
      }
    }
  }

  lemma ChargedRequest(q: Request, i: nat, o: Order)
    requires P.BooksAgree(q, i) && P.AttemptsOk(q) && P.OrderOk(q, i, o) && P.LiveOrder(o.status)
    ensures OpenOrder(o.status) ==> Payable(q.status) && !IsTenantDirectPending(q) && q.cost.None?
    ensures o.status == OrderApproved ==> q.status == TossPaid
    ensures q.debit.None? && NothingSucceeded(q)
  {
  }

  /** Whenever an answer says that an order in flight was paid, with its method and time, the
      transaction that follows approves the order and the request: no conflict check of the
      finalization can fire. */
  lemma AnswerCompletes(s: State, c: nat, payment: Snapshot)
    requires StateOk(s) && c < |s.calls| && s.calls[c].phase == Answered(Payment(payment))
    requires SameIdentity(payment, s.calls[c]) && payment.status == Done && payment.means.Some? && payment.approvedAt.Some?
    requires HasOrder(s, s.calls[c].ref) && InFlight(OrderAt(s, s.calls[c].ref).status)
    ensures Persist(s, c).Some?
    ensures var ref := s.calls[c].ref;
            var s' := Persist(s, c).value;
            HasOrder(s', ref) && OrderAt(s', ref).status == OrderApproved && s'.repairs[ref.request].request.value.status == TossPaid
  {
    hide StateOk, P.RequestOk, OrderFinalized;
    var ref := s.calls[c].ref;
    CallIsOk(s, c);
    RequestIsOk(s, ref.request);
    P.FinalizationSucceeds(s.repairs[ref.request].request.value, ref.request, ref.order, payment);
  }

  lemma CallIsOk(s: State, c: nat)
    requires StateOk(s) && c < |s.calls|
    ensures CallOk(s.repairs, s.charges, s.calls[c])
  {
    CallsOf(s);
    hide StateOk, CallOk;
  }

  /** The next successful reconciliation of a charged order ends with the order approved and the
      request paid, whatever happened before. */
  lemma ReconcileCompletes(tickets: seq<Ticket>, commands: seq<Command>, ref: OrderRef, party: Party, user: nat, payment: Snapshot)
    requires var s := Run(Initial(tickets), commands);
             && IsCharged(s, ref) && HasOrder(s, ref) && InFlight(OrderAt(s, ref).status) && Pays(s, ref.request, party, user)
             && (payment.repair, payment.order) == (ref.request, ref.order)
             && Some(payment.paymentKey) == OrderAt(s, ref).paymentKey && payment.amount == OrderAt(s, ref).amount
    requires payment.status == Done && payment.means.Some? && payment.approvedAt.Some?
    ensures var s := Run(Initial(tickets), commands);
            var c := |s.calls|;
            var after := Apply(Apply(Apply(s, TryBeginReconcile(ref, party, user)), TryReceiveAnswer(c, Payment(payment))), TryPersist(c));
            && HasOrder(after, ref) && OrderAt(after, ref).status == OrderApproved
            && after.repairs[ref.request].request.value.status == TossPaid
  {
    hide StateOk, StateContinues, Run, Persist;
    Reachable(tickets, commands);
    var s := Run(Initial(tickets), commands);
    var c := |s.calls|;
    var asked := Apply(s, TryBeginReconcile(ref, party, user));
    StepKeeps(s, TryBeginReconcile(ref, party, user));
    var answered := Apply(asked, TryReceiveAnswer(c, Payment(payment)));
    StepKeeps(asked, TryReceiveAnswer(c, Payment(payment)));
    AnswerCompletes(answered, c, payment);
  }

  /** However many confirmations and reconciliations race, the provider is asked to confirm an
      order at most once. */
  lemma ConfirmedAtMostOnce(tickets: seq<Ticket>, commands: seq<Command>, c: nat, d: nat)
    ensures var calls := Run(Initial(tickets), commands).calls;
            c < |calls| && d < |calls| && calls[c].kind == ConfirmCall && calls[d].kind == ConfirmCall && calls[c].ref == calls[d].ref ==>
              c == d
  {
    hide StateOk, Run, CallOk;
    Reachable(tickets, commands);
    CallsOf(Run(Initial(tickets), commands));
  }

  // ---- one open order

  /** At most one order of a request is open, the open key is held exactly by it, and while it
      exists the request stays payable and is not a tenant's direct payment in progress. */
  lemma TossMutex(tickets: seq<Ticket>, commands: seq<Command>, i: nat, j: nat, k: nat)
    ensures var s := Run(Initial(tickets), commands);
            HasOrder(s, OrderRef(i, j)) && HasOrder(s, OrderRef(i, k)) ==>
              var q := s.repairs[i].request.value;
              && (OpenOrder(q.orders[j].status) && OpenOrder(q.orders[k].status) ==> j == k)
              && (q.orders[j].openOrderKey == Some(i) <==> OpenOrder(q.orders[j].status))
              && (q.orders[j].openOrderKey.None? <==> !OpenOrder(q.orders[j].status))
              && (OpenOrder(q.orders[j].status) ==> Payable(q.status) && !IsTenantDirectPending(q))
  {
    hide StateOk, Run, P.BooksAgree, P.AttemptsOk, P.AuditsOk;
    var s := Run(Initial(tickets), commands);
    Reachable(tickets, commands);
    if HasOrder(s, OrderRef(i, j)) && HasOrder(s, OrderRef(i, k)) {
      RequestIsOk(s, i);
      assert P.OrderOk(s.repairs[i].request.value, i, s.repairs[i].request.value.orders[j]);
      assert P.OrderOk(s.repairs[i].request.value, i, s.repairs[i].request.value.orders[k]);
    }
  }

  /** Two orders never share a payment key. */
  lemma PaymentKeysAreUnique(tickets: seq<Ticket>, commands: seq<Command>, ref: OrderRef, ref': OrderRef)
    ensures var s := Run(Initial(tickets), commands);
            HasOrder(s, ref) && HasOrder(s, ref') && OrderAt(s, ref).paymentKey.Some? && OrderAt(s, ref).paymentKey == OrderAt(s, ref').paymentKey ==>
              ref == ref'
  {
    hide StateOk, Run, P.OrderOk;
    var s := Run(Initial(tickets), commands);
    Reachable(tickets, commands);
    if HasOrder(s, ref) && HasOrder(s, ref') {
      OrderFacts(s, ref);
      OrderFacts(s, ref');
    }
  }

  // ---- one payment, agreeing books

  function Successes(attempts: seq<Attempt>): nat {
    if attempts == [] then 0
    else Successes(attempts[..|attempts| - 1]) + if attempts[|attempts| - 1].status == Succeeded then 1 else 0
  }

  function Approvals(orders: seq<Order>): nat {
    if orders == [] then 0
    else Approvals(orders[..|orders| - 1]) + if orders[|orders| - 1].status == OrderApproved then 1 else 0
  }

  lemma {:induction false} SuccessesAre(attempts: seq<Attempt>)
    requires forall j, k :: 0 <= j < k < |attempts| && attempts[j].status == Succeeded ==> attempts[k].status != Succeeded
    ensures Successes(attempts) == if exists k :: 0 <= k < |attempts| && attempts[k].status == Succeeded then 1 else 0
  {
    if attempts == [] {
    } else {
      var n := |attempts| - 1;
      SuccessesAre(attempts[..n]);
      if exists k :: 0 <= k < n && attempts[k].status == Succeeded {
        var k :| 0 <= k < n && attempts[k].status == Succeeded;
        assert attempts[..n][k].status == Succeeded;
      }
    }
  }

  lemma {:induction false} ApprovalsAre(orders: seq<Order>)
    requires forall j, k :: 0 <= j < k < |orders| && orders[j].status == OrderApproved ==> orders[k].status != OrderApproved
    ensures Approvals(orders) == if exists k :: 0 <= k < |orders| && orders[k].status == OrderApproved then 1 else 0
  {
    if orders == [] {
    } else {
      var n := |orders| - 1;
      ApprovalsAre(orders[..n]);
      if exists k :: 0 <= k < n && orders[k].status == OrderApproved {
        var k :| 0 <= k < n && orders[k].status == OrderApproved;
        assert orders[..n][k].status == OrderApproved;
      }
    }
  }

  predicate Paid(status: PayStatus) {
    CreditPaid(status) || status == DirectPaid || status == TossPaid
  }

  predicate Undone(status: PayStatus) {
    status == Reversed || status == DirectPaymentVoided
  }

  /** Over all four methods together, a request is paid at most once, and exactly once when it is
      paid or its payment was undone. */
  lemma PaidAtMostOnce(tickets: seq<Ticket>, commands: seq<Command>, i: nat)
    ensures var s := Run(Initial(tickets), commands);
            HasRequest(s, i) ==>
              var q := s.repairs[i].request.value;
              Successes(q.attempts) + Approvals(q.orders) == if Paid(q.status) || Undone(q.status) then 1 else 0
  {
    hide StateOk, Run, P.BooksAgree, P.AuditsOk;
    var s := Run(Initial(tickets), commands);
    Reachable(tickets, commands);
    if HasRequest(s, i) {
      RequestIsOk(s, i);
      OnePayment(s.repairs[i].request.value, i);
    }
  }

  lemma OnePayment(q: Request, i: nat)
    requires P.AttemptsOk(q) && P.OrdersOk(q, i)
    ensures Successes(q.attempts) + Approvals(q.orders) == if Paid(q.status) || Undone(q.status) then 1 else 0
  {
    SuccessesAre(q.attempts);
    assert forall j, k :: 0 <= j < k < |q.orders| && q.orders[j].status == OrderApproved ==> q.orders[k].status != OrderApproved;
    ApprovalsAre(q.orders);
    assert forall k :: 0 <= k < |q.orders| && q.orders[k].status == OrderApproved ==> P.OrderOk(q, i, q.orders[k]);
  }

  /** A manager's request has one confirmed cost of its amount exactly while it is paid and a void
      one exactly when that payment was undone; a tenant's request never has a cost or a debit. */
  lemma CostsAgree(tickets: seq<Ticket>, commands: seq<Command>, i: nat)
    ensures var s := Run(Initial(tickets), commands);
            HasRequest(s, i) ==>
              var q := s.repairs[i].request.value;
              match q.payer
              case Manager =>
                && (Paid(q.status) <==> q.cost.Some? && q.cost.value.status == Confirmed)
                && (Undone(q.status) <==> q.cost.Some? && q.cost.value.status == Void)
                && (q.cost.Some? ==> q.cost.value.amount == q.amount)
                && (q.debit.Some? <==> CreditPaid(q.status) || q.status == Reversed)
              case Tenant => q.cost.None? && q.debit.None?
  {
    hide StateOk, Run, P.AttemptsOk, P.OrdersOk, P.AuditsOk;
    var s := Run(Initial(tickets), commands);
    Reachable(tickets, commands);
    if HasRequest(s, i) {
      RequestIsOk(s, i);
    }
  }

  /** Which corrections go through. The consistency checks on cost, debit and ledger entry never
      fail: what can stop a reversal is only a balance too high to take the amount back. */
  lemma CorrectionsSucceed(tickets: seq<Ticket>, commands: seq<Command>, key: Key, payload: CorrectionPayload)
    ensures var s := Run(Initial(tickets), commands);
            var i := payload.request;
            HasRequest(s, i) && s.repairs[i].manager == payload.manager && key !in s.keys.receipts ==>
              var q := s.repairs[i].request.value;
              Correct(s, key, payload).Some? <==>
                match payload.kind
                case CreditReversal => CreditPaid(q.status) && CanCredit(s.books, s.repairs[i].manager, q.amount)
                case DirectVoid => q.status == DirectPaid && q.payer == Manager
                case PaymentCancel => Payable(q.status) && !HasOpenOrder(q)
  {
    hide StateOk, Run, P.RequestOk, P.PaymentStep, HasOpenOrder, VoidedDirect, CancelledRequest, ReversedRequest;
    var s := Run(Initial(tickets), commands);
    var i := payload.request;
    Reachable(tickets, commands);
    if HasRequest(s, i) {
      RequestIsOk(s, i);
      var q := s.repairs[i].request.value;
      P.ReversedKeeps(q, i);
      P.VoidedDirectKeeps(q, i);
      P.CancelledKeeps(q, i);
      DebitOf(s, i);
      ReversalKeyFresh(s, key);
    }
  }

  lemma ReversalKeyFresh(s: State, key: Key)
    requires StateOk(s)
    ensures ReversalKey(key) in s.books.ledgerKeys ==> key in s.keys.receipts
    ensures PaymentKey(key) in s.books.ledgerKeys ==> key in s.keys.attempts
  {
    hide RepairsOk, LedgerOk, CallsOk, ChargesOk;
  }

  lemma DebitOf(s: State, i: nat)
    requires StateOk(s) && HasRequest(s, i)
    ensures CreditPaid(s.repairs[i].request.value.status) ==> DebitMatches(s.books, i, s.repairs[i].request.value)
  {
    hide StateOk, DebitMatches;
    CreditFacts(s, i);
    RequestFacts(s, i);
    assert LedgerRow(s.repairs, s.books, i);
  }

  // ---- events

  /** Every payment event is written once: its key is the request and the audit entry. */
  lemma EventsAreWrittenOnce(tickets: seq<Ticket>, commands: seq<Command>, i: nat, j: nat, a: nat, b: nat)
    ensures var s := Run(Initial(tickets), commands);
            HasRequest(s, i) && HasRequest(s, j) ==>
              var events, events' := s.repairs[i].request.value.events, s.repairs[j].request.value.events;
              a < |events| && b < |events'| && (i, events[a]) == (j, events'[b]) ==> a == b
  {
    hide StateOk, Run, P.BooksAgree, P.AttemptsOk, P.OrdersOk;
    var s := Run(Initial(tickets), commands);
    Reachable(tickets, commands);
    if HasRequest(s, i) {
      RequestIsOk(s, i);
    }
  }
}
