/** Toss orders, the provider and the credit worker: every command keeps the invariant. */
module OrderSteps {
  import opened Options
  import opened Types
  import opened Workflow
  import opened Payments
  import opened Ledger
  import opened Platform
  import opened Invariant
  import opened Frames
  import opened RequestSteps
  import W = WorkflowProofs
  import P = PaymentProofs
  import L = LedgerProofs
  import O = OutboxProofs
  import Outbox

  // ---- order rows

  /** A payment transaction that changes orders but not the request's own columns. */
  lemma OrdersMoved(s: State, i: nat, q: Request)
    requires StateOk(s) && HasRequest(s, i)
    requires P.Keeps(s.repairs[i].request.value, i, Some(q))
    requires q == s.repairs[i].request.value.(orders := q.orders)
    requires RepairCharges(s.repairs[i].(request := Some(q)), i, s.charges, s.keys.payments)
    ensures Steps(s, WithRequest(s, i, q))
  {
    hide StateOk, RepairCharges, P.RequestOk, P.PaymentStep;
    PaymentMoved(s, i, q);
  }

  lemma RowCharges(r: Repair, i: nat, k: nat, row: Order, charges: map<OrderRef, Charge>, payments: map<string, OrderRef>)
    requires r.request.Some? && k < |r.request.value.orders| && RepairCharges(r, i, charges, payments)
    requires OrderCharge(row, OrderRef(i, k), charges, payments)
    ensures RepairCharges(r.(request := Some(WithOrder(r.request.value, k, row))), i, charges, payments)
  {
    hide OrderCharge;
  }

  /** A new order is unknown to the provider. */
  lemma AddedCharges(s: State, r: Repair, i: nat, creation: CreationPayload, retryOf: Option<nat>)
    requires StateOk(s) && HasRequest(s, i) && r.request.Some?
    requires |r.request.value.orders| == |s.repairs[i].request.value.orders| && RepairCharges(r, i, s.charges, s.keys.payments)
    ensures var q := r.request.value;
            RepairCharges(r.(request := Some(q.(orders := q.orders + [NewOrder(q, i, creation, retryOf)]))), i, s.charges, s.keys.payments)
  {
    var q := r.request.value;
    var ref := OrderRef(i, |q.orders|);
    assert ref !in s.charges by {
      assert !OrderKnown(s.repairs, ref);
    }
    hide StateOk;
    forall k | 0 <= k < |q.orders| + 1
      ensures OrderCharge((q.orders + [NewOrder(q, i, creation, retryOf)])[k], OrderRef(i, k), s.charges, s.keys.payments) {
      if k < |q.orders| {
        assert OrderCharge(q.orders[k], OrderRef(i, k), s.charges, s.keys.payments);
      }
    }
  }

  lemma OrderFacts(s: State, ref: OrderRef)
    requires StateOk(s) && HasOrder(s, ref)
    ensures OrderCharge(OrderAt(s, ref), ref, s.charges, s.keys.payments)
    ensures P.OrderOk(s.repairs[ref.request].request.value, ref.request, OrderAt(s, ref))
  {
    hide OrderCharge, P.OrderOk, StateOk, W.WorkflowOk;
    RepairOf(s, ref.request);
  }

  /** One order row changes and keeps its payment key. */
  lemma OrderRowMoved(s: State, ref: OrderRef, row: Order)
    requires StateOk(s) && HasOrder(s, ref)
    requires var q := s.repairs[ref.request].request.value; P.Keeps(q, ref.request, Some(WithOrder(q, ref.order, row)))
    requires OrderCharge(row, ref, s.charges, s.keys.payments)
    ensures Steps(s, WithRequest(s, ref.request, WithOrder(s.repairs[ref.request].request.value, ref.order, row)))
  {
    hide StateOk, P.RequestOk, P.PaymentStep, OrderCharge, RepairCharges, W.WorkflowOk;
    var q := s.repairs[ref.request].request.value;
    RepairOf(s, ref.request);
    RowCharges(s.repairs[ref.request], ref.request, ref.order, row, s.charges, s.keys.payments);
    OrdersMoved(s, ref.request, WithOrder(q, ref.order, row));
  }

  lemma RejectedKeeps(s: State, ref: OrderRef)
    requires StateOk(s) && HasOrder(s, ref) && ref in s.charges && s.charges[ref] == Dead
    ensures var next := OrderRejected(s.repairs[ref.request].request.value, ref.order);
            next.Some? ==> Steps(s, WithRequest(s, ref.request, next.value))
  {
    hide StateOk, P.RequestOk, P.PaymentStep;
    var q := s.repairs[ref.request].request.value;
    CreditFacts(s, ref.request);
    OrderFacts(s, ref);
    P.OrderRejectedKeeps(q, ref.request, ref.order);
    if OrderRejected(q, ref.order).Some? {
      OrderRowMoved(s, ref, q.orders[ref.order].(status := Failed, openOrderKey := None));
    }
  }

  lemma UncertainKeeps(s: State, ref: OrderRef)
    requires StateOk(s) && HasOrder(s, ref)
    ensures var next := OrderUncertain(s.repairs[ref.request].request.value, ref.request, ref.order);
            next.Some? ==> Steps(s, WithRequest(s, ref.request, next.value))
  {
    hide StateOk, P.RequestOk, P.PaymentStep;
    var q := s.repairs[ref.request].request.value;
    CreditFacts(s, ref.request);
    OrderFacts(s, ref);
    P.OrderUncertainKeeps(q, ref.request, ref.order);
    if OrderUncertain(q, ref.request, ref.order).Some? {
      OrderRowMoved(s, ref, q.orders[ref.order].(status := ReconciliationRequired, openOrderKey := Some(ref.request)));
    }
  }

  lemma CancelOrderKeeps(s: State, ref: OrderRef, party: Party, user: nat)
    requires StateOk(s) && CancelOrder(s, ref, party, user).Some?
    ensures Steps(s, CancelOrder(s, ref, party, user).value)
  {
    hide StateOk, P.RequestOk, P.PaymentStep;
    var q := s.repairs[ref.request].request.value;
    CreditFacts(s, ref.request);
    OrderFacts(s, ref);
    P.OrderCancelledKeeps(q, ref.request, ref.order);
    OrderRowMoved(s, ref, q.orders[ref.order].(status := OrderCancelled, openOrderKey := None));
  }

  /** An order that the provider has charged is approved together with its request. */
  lemma FinalizedKeeps(s: State, ref: OrderRef, payment: Snapshot)
    requires StateOk(s) && HasOrder(s, ref) && ref in s.charges && s.charges[ref] == Charged
    ensures var next := OrderFinalized(s.repairs[ref.request].request.value, ref.request, ref.order, payment);
            next.Some? ==> Steps(s, WithRequest(s, ref.request, next.value))
  {
    hide StateOk, StateContinues, P.RequestOk, P.PaymentStep, RepairCharges, OrderCharge, P.OrderOk, OrderFinalized;
    StateContinuesItself(s);
    var i := ref.request;
    var q := s.repairs[i].request.value;
    var next := OrderFinalized(q, i, ref.order, payment);
    CreditFacts(s, i);
    P.OrderFinalizedKeeps(q, i, ref.order, payment);
    if next.Some? && next.value != q {
      FinalizedFields(q, i, ref.order, payment);
      FinalizedCharges(s, ref, payment);
      RequestFacts(s, i);
      PaymentMoved(s, i, next.value);
    } else if next.Some? {
      assert WithRequest(s, i, q) == s;
    }
  }

  lemma FinalizedFields(q: Request, i: nat, k: nat, payment: Snapshot)
    requires OrderFinalized(q, i, k, payment).Some? && OrderFinalized(q, i, k, payment).value != q
    ensures var q' := OrderFinalized(q, i, k, payment).value;
            && k < |q.orders| && q.debit.None? && q'.debit.None? && q'.status == TossPaid && Payable(q.status)
            && q'.orders == q.orders[k := q'.orders[k]]
            && q'.orders[k] == q.orders[k].(status := OrderApproved, approval := q'.orders[k].approval, openOrderKey := None)
  {
  }

  lemma FinalizedCharges(s: State, ref: OrderRef, payment: Snapshot)
    requires StateOk(s) && HasOrder(s, ref) && ref in s.charges && s.charges[ref] == Charged
    requires var q := s.repairs[ref.request].request.value;
             var next := OrderFinalized(q, ref.request, ref.order, payment); next.Some? && next.value != q
    ensures var next := OrderFinalized(s.repairs[ref.request].request.value, ref.request, ref.order, payment);
            RepairCharges(s.repairs[ref.request].(request := next), ref.request, s.charges, s.keys.payments)
  {
    hide StateOk, RepairCharges, OrderFinalized, P.OrderOk, W.WorkflowOk, P.RequestOk;
    var r := s.repairs[ref.request];
    var next := OrderFinalized(r.request.value, ref.request, ref.order, payment);
    FinalizedFields(r.request.value, ref.request, ref.order, payment);
    OrderFacts(s, ref);
    RepairOf(s, ref.request);
    var row := next.value.orders[ref.order];
    RowCharges(r, ref.request, ref.order, row, s.charges, s.keys.payments);
    SameCharges(r.(request := Some(WithOrder(r.request.value, ref.order, row))), r.(request := next), ref.request, s.charges, s.keys.payments);
  }

  lemma SameCharges(r: Repair, r': Repair, i: nat, charges: map<OrderRef, Charge>, payments: map<string, OrderRef>)
    requires RepairCharges(r, i, charges, payments) && r.request.Some? && r'.request.Some?
    requires r.request.value.orders == r'.request.value.orders
    ensures RepairCharges(r', i, charges, payments)
  {
    hide OrderCharge;
  }

  // ---- new orders

  lemma CreatedKeeps(s: State, i: nat, q: Request, creation: CreationPayload)
    requires StateOk(s) && HasRequest(s, i) && creation.key !in s.keys.creations
    requires P.Keeps(s.repairs[i].request.value, i, Some(q)) && q == s.repairs[i].request.value.(orders := q.orders)
    requires RepairCharges(s.repairs[i].(request := Some(q)), i, s.charges, s.keys.payments)
    requires |q.orders| > 0 && q.orders[|q.orders| - 1].creation == creation
    ensures Steps(s, Created(s, i, q, creation))
  {
    hide StateOk, StateContinues, P.RequestOk, P.PaymentStep, RepairCharges;
    OrdersMoved(s, i, q);
    KeysGrown(WithRequest(s, i, q), Created(s, i, q, creation).keys);
    StepsTransitive(s, WithRequest(s, i, q), Created(s, i, q, creation));
  }

  lemma CreateOrderKeeps(s: State, i: nat, party: Party, user: nat, creation: CreationPayload)
    requires StateOk(s) && CreateOrder(s, i, party, user, creation).Some?
    ensures Steps(s, CreateOrder(s, i, party, user, creation).value)
  {
    hide StateOk, StateContinues, P.RequestOk, P.PaymentStep, RepairCharges, OpenKeyHeld, W.WorkflowOk, SameCreation, LedgerOk;
    StateContinuesItself(s);
    var q := s.repairs[i].request.value;
    if creation.key !in s.keys.creations {
      RepairOf(s, i);
      P.OrderPlacedKeeps(q, i, creation);
      AddedCharges(s, s.repairs[i], i, creation, None);
      CreatedKeeps(s, i, OrderPlaced(q, i, creation).value, creation);
    }
  }

  lemma RetriedCharges(s: State, ref: OrderRef, creation: CreationPayload)
    requires StateOk(s) && HasOrder(s, ref)
    ensures var next := OrderRetried(s.repairs[ref.request].request.value, ref.request, ref.order, creation);
            next.Some? ==> RepairCharges(s.repairs[ref.request].(request := next), ref.request, s.charges, s.keys.payments)
  {
    hide StateOk, RepairCharges, OpenKeyHeld, W.WorkflowOk, P.RequestOk;
    var r := s.repairs[ref.request];
    var q := r.request.value;
    var next := OrderRetried(q, ref.request, ref.order, creation);
    RepairOf(s, ref.request);
    OrderFacts(s, ref);
    if next.Some? {
      if q.orders[ref.order].status == Ready {
        var row := q.orders[ref.order].(status := OrderCancelled, openOrderKey := None);
        RowCharges(r, ref.request, ref.order, row, s.charges, s.keys.payments);
        AddedCharges(s, r.(request := Some(WithOrder(q, ref.order, row))), ref.request, creation, Some(ref.order));
      } else {
        AddedCharges(s, r, ref.request, creation, Some(ref.order));
      }
    }
  }

  lemma RetriedFields(q: Request, i: nat, k: nat, creation: CreationPayload)
    requires OrderRetried(q, i, k, creation).Some?
    ensures var q' := OrderRetried(q, i, k, creation).value;
            && q' == q.(orders := q'.orders) && |q'.orders| == |q.orders| + 1
            && q'.orders[|q.orders|] == NewOrder(q, i, creation, Some(k))
  {
  }

  lemma RetryOrderKeeps(s: State, ref: OrderRef, party: Party, user: nat, creation: CreationPayload)
    requires StateOk(s) && RetryOrder(s, ref, party, user, creation).Some?
    ensures Steps(s, RetryOrder(s, ref, party, user, creation).value)
  {
    hide StateOk, StateContinues, P.RequestOk, P.PaymentStep, RepairCharges, OpenKeyHeld, W.WorkflowOk, SameCreation, LedgerOk, OrderRetried;
    StateContinuesItself(s);
    var q := s.repairs[ref.request].request.value;
    if creation.key !in s.keys.creations {
      RepairOf(s, ref.request);
      P.OrderRetriedKeeps(q, ref.request, ref.order, creation);
      RetriedCharges(s, ref, creation);
      RetriedFields(q, ref.request, ref.order, creation);
      CreatedKeeps(s, ref.request, OrderRetried(q, ref.request, ref.order, creation).value, creation);
    }
  }

  // ---- claiming an order for confirmation

  lemma ClaimedCharges(repairs: seq<Repair>, ref: OrderRef, q: Request, paymentKey: string, charges: map<OrderRef, Charge>, payments: map<string, OrderRef>)
    requires ChargesOk(repairs, charges, payments) && OrderKnown(repairs, ref)
    requires ref !in charges && (paymentKey in payments ==> payments[paymentKey] == ref)
    requires |q.orders| > ref.order && q.orders == repairs[ref.request].request.value.orders[ref.order := q.orders[ref.order]]
    requires q.orders[ref.order].status == Confirming && q.orders[ref.order].paymentKey == Some(paymentKey)
    requires RepairsContinue(repairs, repairs[ref.request := repairs[ref.request].(request := Some(q))])
    ensures ChargesOk(repairs[ref.request := repairs[ref.request].(request := Some(q))],
                      charges[ref := Authorized], payments[paymentKey := ref])
  {
    hide RepairsContinue, RepairCharges;
    var repairs' := repairs[ref.request := repairs[ref.request].(request := Some(q))];
    var charges' := charges[ref := Authorized];
    var payments' := payments[paymentKey := ref];
    forall x | x in charges' ensures OrderKnown(repairs', x) {
      if x != ref {
        OrdersStay(repairs, repairs', x);
      }
    }
    forall i | 0 <= i < |repairs'| ensures RepairCharges(repairs'[i], i, charges', payments') {
      ClaimedRepairCharges(repairs[i], i, repairs'[i], ref, paymentKey, charges, payments);
    }
  }

  lemma ClaimedRepairCharges(r: Repair, i: nat, r': Repair, ref: OrderRef, paymentKey: string,
                             charges: map<OrderRef, Charge>, payments: map<string, OrderRef>)
    requires RepairCharges(r, i, charges, payments)
    requires ref !in charges && (paymentKey in payments ==> payments[paymentKey] == ref)
    requires i != ref.request ==> r' == r
    requires i == ref.request ==>
               && r.request.Some? && r'.request.Some? && ref.order < |r.request.value.orders| == |r'.request.value.orders|
               && r'.request.value.orders == r.request.value.orders[ref.order := r'.request.value.orders[ref.order]]
               && r'.request.value.orders[ref.order].status == Confirming
               && r'.request.value.orders[ref.order].paymentKey == Some(paymentKey)
    ensures RepairCharges(r', i, charges[ref := Authorized], payments[paymentKey := ref])
  {
  }

  lemma ClaimedCalls(s: State, repairs: seq<Repair>, ref: OrderRef, charges: map<OrderRef, Charge>, call: Call)
    requires StateOk(s) && RepairsContinue(s.repairs, repairs) && ChargesContinue(s.charges, charges)
    requires ref !in s.charges && call.ref == ref && call.phase == Asking
    requires CallOk(repairs, charges, call)
    ensures CallsOk(repairs, charges, s.calls + [call])
  {
    CallsStay(s.repairs, repairs, s.charges, charges, s.calls);
    forall c | 0 <= c < |s.calls| ensures s.calls[c].ref != ref {
      assert CallOk(s.repairs, s.charges, s.calls[c]);
      OrderIsCharged(s, s.calls[c].ref);
    }
    hide StateOk, RepairsContinue, CallOk;
  }

  lemma OrderIsCharged(s: State, ref: OrderRef)
    requires StateOk(s) && OrderKnown(s.repairs, ref)
    ensures OrderOf(s.repairs, ref).paymentKey.Some? <==> ref in s.charges
  {
    OrderFacts(s, ref);
  }

  lemma BeginConfirmKeeps(s: State, ref: OrderRef, party: Party, user: nat, paymentKey: string, amount: int)
    requires StateOk(s) && BeginConfirm(s, ref, party, user, paymentKey, amount).Some?
    ensures Steps(s, BeginConfirm(s, ref, party, user, paymentKey, amount).value)
  {
    hide StateOk, StateContinues, P.RequestOk, P.PaymentStep, RepairContinues;
    StateContinuesItself(s);
    var i := ref.request;
    var q := s.repairs[i].request.value;
    var taken := paymentKey in s.keys.payments && s.keys.payments[paymentKey] != ref;
    var claim := ClaimConfirmation(q, i, ref.order, paymentKey, amount, taken);
    if claim.Claimed? {
      CreditFacts(s, i);
      OrderFacts(s, ref);
      P.ClaimKeeps(q, i, ref.order, paymentKey, amount, taken);
      hide P.OrderOk;
      OrderClaimed(s, ref, claim.request, paymentKey, amount);
    }
  }

  lemma OrderClaimed(s: State, ref: OrderRef, q: Request, paymentKey: string, amount: int)
    requires StateOk(s) && HasOrder(s, ref) && ref !in s.charges
    requires paymentKey in s.keys.payments ==> s.keys.payments[paymentKey] == ref
    requires P.Keeps(s.repairs[ref.request].request.value, ref.request, Some(q))
    requires ref.order < |q.orders| && amount == q.orders[ref.order].amount
    requires q == WithOrder(s.repairs[ref.request].request.value, ref.order, q.orders[ref.order])
    requires q.orders[ref.order].status == Confirming && q.orders[ref.order].paymentKey == Some(paymentKey)
    ensures Steps(s, WithRequest(s, ref.request, q).(
                       keys := s.keys.(payments := s.keys.payments[paymentKey := ref]),
                       charges := s.charges[ref := Authorized],
                       calls := s.calls + [Call(ref, ConfirmCall, Some(paymentKey), amount, Asking)]))
  {
    hide W.WorkflowOk, P.RequestOk, P.PaymentStep, RepairContinues, L.BooksOk, LedgerOk, ChargesOk, CallsOk, O.BoxOk, EvaluationsOk,
         DeliveriesOk, O.BoxContinues, RepairsOk, OneOpen, RepairsContinue, AccountContinues, KeysOk;
    var i := ref.request;
    var r := s.repairs[i].(request := Some(q));
    var keys' := s.keys.(payments := s.keys.payments[paymentKey := ref]);
    var charges' := s.charges[ref := Authorized];
    var repairs' := s.repairs[i := r];
    StateContinuesItself(s);
    RequestIsOk(s, i);
    PaymentMoves(s.repairs[i], q);
    RepairReplaced(s.repairs, i, r);
    RequestFacts(s, i);
    LedgerQuiet(s.repairs, i, r, s.books);
    ClaimedCharges(s.repairs, ref, q, paymentKey, s.charges, s.keys.payments);
    ClaimedCalls(s, repairs', ref, charges', Call(ref, ConfirmCall, Some(paymentKey), amount, Asking));
    PaymentKeyStays(s, ref, paymentKey);
    KeysStay(s.repairs, repairs', s.books, s.books, s.keys, keys');
    EvaluationsStay(s.repairs, i, r, s.evaluations);
    DeliveriesStay(s.repairs, repairs', s.evaluations, s.box, s.evaluated);
  }

  lemma PaymentKeyStays(s: State, ref: OrderRef, paymentKey: string)
    requires paymentKey in s.keys.payments ==> s.keys.payments[paymentKey] == ref
    ensures KeysContinue(s.keys, s.keys.(payments := s.keys.payments[paymentKey := ref]))
  {
  }

  // ---- calls

  lemma BeginReconcileKeeps(s: State, ref: OrderRef, party: Party, user: nat)
    requires StateOk(s) && BeginReconcile(s, ref, party, user).Some?
    ensures Steps(s, BeginReconcile(s, ref, party, user).value)
  {
    hide StateOk, StateContinues, OrderCharge;
    StateContinuesItself(s);
    var order := OrderAt(s, ref);
    if InFlight(order.status) {
      OrderFacts(s, ref);
      LookupIsOk(s, Call(ref, LookupCall, order.paymentKey, order.amount, Asking));
      CallsMoved(s, s.calls + [Call(ref, LookupCall, order.paymentKey, order.amount, Asking)]);
    }
  }

  lemma LookupIsOk(s: State, call: Call)
    requires StateOk(s) && CallOk(s.repairs, s.charges, call) && call.kind == LookupCall
    ensures CallsOk(s.repairs, s.charges, s.calls + [call])
  {
    hide StateOk, CallOk;
    CallsOf(s);
  }

  lemma ProviderMovesKeeps(s: State, ref: OrderRef, outcome: Charge)
    requires StateOk(s) && ProviderMoves(s, ref, outcome).Some?
    ensures Steps(s, ProviderMoves(s, ref, outcome).value)
  {
    hide RepairContinues, L.BooksOk, LedgerOk, CallsOk, O.BoxOk, EvaluationsOk, DeliveriesOk, O.BoxContinues, RepairsOk, OneOpen,
         RepairsContinue, AccountContinues, KeysOk, KeysContinue;
    StateContinuesItself(s);
    var charges' := s.charges[ref := outcome];
    assert ChargesContinue(s.charges, charges');
    CallsStay(s.repairs, s.repairs, s.charges, charges', s.calls);
    forall i | 0 <= i < |s.repairs| ensures RepairCharges(s.repairs[i], i, charges', s.keys.payments) {
      assert RepairCharges(s.repairs[i], i, s.charges, s.keys.payments);
    }
  }

  lemma PhaseKeeps(s: State, c: nat, phase: Phase)
    requires StateOk(s) && c < |s.calls| && (phase.Answered? ==> Honest(s.charges, s.calls[c], phase.answer))
    ensures Steps(s, WithPhase(s, c, phase))
  {
    hide StateOk, StateContinues, Honest, CallsOk;
    assert CallsOk(s.repairs, s.charges, s.calls) by { CallsOf(s); }
    RephasedCalls(s.repairs, s.charges, s.calls, c, phase);
    CallsMoved(s, WithPhase(s, c, phase).calls);
  }

  lemma ReceiveAnswerKeeps(s: State, c: nat, answer: Answer)
    requires StateOk(s) && ReceiveAnswer(s, c, answer).Some?
    ensures Steps(s, ReceiveAnswer(s, c, answer).value)
  {
    hide StateOk, StateContinues, Honest;
    PhaseKeeps(s, c, Answered(answer));
  }

  lemma CallsOf(s: State)
    requires StateOk(s)
    ensures CallsOk(s.repairs, s.charges, s.calls)
  {
    hide CallsOk;
  }

  lemma RephasedCalls(repairs: seq<Repair>, charges: map<OrderRef, Charge>, calls: seq<Call>, c: nat, phase: Phase)
    requires CallsOk(repairs, charges, calls) && c < |calls| && (phase.Answered? ==> Honest(charges, calls[c], phase.answer))
    ensures CallsOk(repairs, charges, calls[c := calls[c].(phase := phase)])
  {
    hide Honest;
    var calls' := calls[c := calls[c].(phase := phase)];
    forall d | 0 <= d < |calls'| ensures CallOk(repairs, charges, calls'[d]) {
      assert CallOk(repairs, charges, calls[d]);
      HonestAgain(charges, calls[c], phase);
    }
  }

  /** Honesty does not depend on how far the call has come. */
  lemma HonestAgain(charges: map<OrderRef, Charge>, call: Call, phase: Phase)
    ensures forall answer :: Honest(charges, call, answer) ==> Honest(charges, call.(phase := phase), answer)
  {
  }

  /** The service rejects an order only on an answer that promises it will never be charged, and
      finalizes one only on an answer that says it has been. */
  lemma VerdictIsJustified(charges: map<OrderRef, Charge>, call: Call, answer: Answer)
    requires Honest(charges, call, answer)
    ensures Judge(call, answer).MarkRejected? ==> call.ref in charges && charges[call.ref] == Dead
    ensures Judge(call, answer).Finalize? ==> call.ref in charges && charges[call.ref] == Charged
  {
  }

  lemma StepEnds(s: State, s': State)
    requires Steps(s, s')
    ensures StateOk(s')
  {
    hide StateOk;
  }

  lemma HonestAnswer(s: State, c: nat)
    requires StateOk(s) && c < |s.calls| && s.calls[c].phase.Answered?
    ensures Honest(s.charges, s.calls[c], s.calls[c].phase.answer)
  {
    CallsOf(s);
    hide StateOk, Honest;
    assert CallOk(s.repairs, s.charges, s.calls[c]);
  }

  lemma RewrittenKeeps(s: State, mid: State, i: nat, next: Option<Request>)
    requires Steps(s, mid) && i < |mid.repairs| && (next.Some? ==> Steps(mid, WithRequest(mid, i, next.value)))
    ensures Steps(s, Rewritten(mid, i, next))
  {
    hide StateOk, StateContinues;
    if next.Some? {
      StepsTransitive(s, mid, WithRequest(mid, i, next.value));
    }
  }

  lemma PersistKeeps(s: State, c: nat)
    requires StateOk(s) && Persist(s, c).Some?
    ensures Steps(s, Persist(s, c).value)
  {
    hide StateOk, StateContinues, Honest, Judge, OrderRejected, OrderUncertain, OrderFinalized, Rewritten, Steps;
    var ref := s.calls[c].ref;
    var i, k := ref.request, ref.order;
    var q := s.repairs[i].request.value;
    var over := WithPhase(s, c, Over);
    PhaseKeeps(s, c, Over);
    PhaseKeeps(s, c, FinalizeFailed);
    assert StateOk(over) by { StepEnds(s, over); }
    if s.calls[c].phase.Answered? {
      HonestAnswer(s, c);
      VerdictIsJustified(s.charges, s.calls[c], s.calls[c].phase.answer);
      match Judge(s.calls[c], s.calls[c].phase.answer)
      case MarkRejected =>
        RejectedKeeps(over, ref);
        RewrittenKeeps(s, over, i, OrderRejected(q, k));
      case MarkUncertain =>
        UncertainKeeps(over, ref);
        RewrittenKeeps(s, over, i, OrderUncertain(q, i, k));
      case Finalize(payment) =>
        var next := OrderFinalized(q, i, k, payment);
        var mid := WithPhase(s, c, if next.Some? then Over else FinalizeFailed);
        if next.Some? {
          FinalizedKeeps(over, ref, payment);
        }
        RewrittenKeeps(s, mid, i, next);
    } else {
      UncertainKeeps(over, ref);
      RewrittenKeeps(s, over, i, OrderUncertain(q, i, k));
    }
  }

  // ---- the account and the worker

  lemma OnBooksKeeps(b: Books, action: AccountAction)
    requires L.BooksOk(b)
    ensures L.Keeps(b, OnBooks(b, action))
  {
    hide L.BooksOk, L.SameRequestEntries, L.TopupsContinue;
    match action
    case TryCreateTopup(manager, amount, key, registration, path, active) => L.CreateTopupKeeps(b, manager, amount, key, registration, path, active);
    case TryClaimTopup(manager, k, paymentKey, amount) => L.ClaimTopupKeeps(b, manager, k, paymentKey, amount);
    case TryFinalizeTopup(manager, k, paymentKey, amount, active) => L.FinalizeTopupKeeps(b, manager, k, paymentKey, amount, active);
    case TryRejectTopup(manager, k) => L.RejectTopupKeeps(b, manager, k);
    case TryMarkTopupUncertain(manager, k) => L.MarkTopupUncertainKeeps(b, manager, k);
    case TryCancelTopup(manager, k) => L.CancelTopupKeeps(b, manager, k);
    case TrySavePolicy(manager, policy) => L.SavePolicyKeeps(b, manager, policy);
    case TryCreatePayout(manager, registration, amount, key, active) => L.CreatePayoutKeeps(b, manager, registration, amount, key, active);
    case TryRequestPayout(manager, registration, amount, key, active) => L.RequestPayoutKeeps(b, manager, registration, amount, key, active);
    case TrySettlePayout(manager, k, key) => L.SettlePayoutKeeps(b, manager, k, key);
    case TrySeedDemo(manager) => L.SeedDemoKeeps(b, manager);
  }

  /** Creation and idempotency keys of top-ups and payouts keep their rows. */
  lemma OnBooksExtendsKeys(b: Books, action: AccountAction)
    ensures var next := OnBooks(b, action);
            next.Some? ==> Extends(b.topupKeys, next.value.topupKeys) && Extends(b.payoutKeys, next.value.payoutKeys)
  {
    hide ShouldAutoDebit, CanDebit, CanCredit, Sum, HasOpening, TopupPaymentKeyTaken;
  }

  lemma OnBooksKeepsAccounts(b: Books, action: AccountAction)
    ensures var next := OnBooks(b, action); next.Some? ==> AccountsStay(b, next.value)
  {
    hide ShouldAutoDebit, CanDebit, CanCredit, Sum, HasOpening, TopupPaymentKeyTaken;
  }

  lemma OnBooksContinuesPayouts(b: Books, action: AccountAction)
    ensures var next := OnBooks(b, action); next.Some? ==> PayoutsContinue(b.payouts, next.value.payouts)
  {
    hide EnsureAccount, ShouldAutoDebit, CanDebit, CanCredit, Sum, HasOpening, TopupPaymentKeyTaken;
    assert EnsureAccount(b, action.manager).payouts == b.payouts by { AccountOnlyOpened(b, action.manager); }
  }

  lemma AccountOnlyOpened(b: Books, manager: nat)
    ensures EnsureAccount(b, manager).payouts == b.payouts
  {
  }

  lemma AccountKeeps(s: State, action: AccountAction)
    requires StateOk(s) && Account(s, action).Some?
    ensures Steps(s, Account(s, action).value)
  {
    OnBooksKeeps(s.books, action);
    OnBooksExtendsKeys(s.books, action);
    OnBooksKeepsAccounts(s.books, action);
    OnBooksContinuesPayouts(s.books, action);
    hide StateOk, StateContinues, OnBooks, L.BooksOk, L.SameRequestEntries, L.TopupsContinue;
    BooksMoved(s, OnBooks(s.books, action).value);
  }

  lemma ClaimDeliveriesKeeps(s: State, limit: int, now: int, locked: set<nat>)
    requires StateOk(s) && ClaimDeliveries(s, limit, now, locked).Some?
    ensures Steps(s, ClaimDeliveries(s, limit, now, locked).value)
  {
    O.ClaimPendingKeeps(s.box, limit, now, now + Outbox.LEASE_MS, locked);
    var box := Outbox.ClaimPending(s.box, limit, now, now + Outbox.LEASE_MS, locked).value;
    hide Outbox.ClaimPending, O.BoxOk, LeftWaiting;
    assert DeliveriesOk(s.repairs, s.evaluations, box, s.evaluated) by {
      assert DeliveriesOk(s.repairs, s.evaluations, s.box, s.evaluated);
      ClaimLeavesRows(s.box, box);
    }
    hide StateOk, StateContinues, DeliveriesOk;
    BoxMoved(s, box, s.evaluated);
  }

  lemma ClaimLeavesRows(b: Outbox.Box, b': Outbox.Box)
    requires O.BoxContinues(b, b')
    ensures forall t :: 0 <= t < |b.claims| ==> t < |b'.claims| && b'.claims[t] == b.claims[t]
  {
  }

  lemma EvaluationHappens(s: State, i: nat, manager: nat, decision: nat)
    requires Evaluate(s, i, manager, decision).Some?
    ensures LeftWaiting(Evaluate(s, i, manager, decision).value.repairs, i)
    ensures Evaluate(s, i, manager, decision).value == s.(repairs := Evaluate(s, i, manager, decision).value.repairs,
                                                          books := Evaluate(s, i, manager, decision).value.books,
                                                          keys := Evaluate(s, i, manager, decision).value.keys)
  {
    hide SettlementValid;
  }

  lemma RunEvaluationKeeps(s: State, token: nat)
    requires StateOk(s) && RunEvaluation(s, token).Some?
    ensures Steps(s, RunEvaluation(s, token).value)
  {
    hide StateOk, StateContinues, Evaluate, LeftWaiting;
    var e := EvaluationOf(s, token);
    var manager := s.repairs[e.request].manager;
    EvaluateKeeps(s, e.request, manager, e.decision);
    EvaluationHappens(s, e.request, manager, e.decision);
    var mid := Evaluate(s, e.request, manager, e.decision).value;
    EvaluatedMarked(mid, token);
    StepsTransitive(s, mid, RunEvaluation(s, token).value);
  }

  lemma EvaluatedMarked(s: State, token: nat)
    requires StateOk(s) && IsClaimed(s, token) && LeftWaiting(s.repairs, EvaluationOf(s, token).request)
    ensures Steps(s, s.(evaluated := s.evaluated + {token}))
  {
    StateContinuesItself(s);
    hide LeftWaiting, RepairContinues, L.BooksOk, LedgerOk, CallsOk, ChargesOk, O.BoxOk, EvaluationsOk, RepairsOk, OneOpen,
         RepairsContinue, AccountContinues, KeysOk, KeysContinue;
    BoxMoved(s, s.box, s.evaluated + {token});
  }

  lemma FinishDeliveryKeeps(s: State, token: nat)
    requires StateOk(s) && FinishDelivery(s, token).Some?
    ensures Steps(s, FinishDelivery(s, token).value)
  {
    hide LeftWaiting, RepairContinues, L.BooksOk, LedgerOk, CallsOk, ChargesOk, O.BoxOk, EvaluationsOk, RepairsOk, OneOpen,
         RepairsContinue, AccountContinues, KeysOk, KeysContinue;
    O.MarkDeliveredKeeps(s.box, s.box.claims[token], token);
    BoxMoved(s, FinishDelivery(s, token).value.box, s.evaluated);
  }

  lemma GiveBackDeliveryKeeps(s: State, token: nat, now: int, attempts: nat)
    requires StateOk(s) && GiveBackDelivery(s, token, now, attempts).Some?
    ensures Steps(s, GiveBackDelivery(s, token, now, attempts).value)
  {
    hide LeftWaiting, RepairContinues, L.BooksOk, LedgerOk, CallsOk, ChargesOk, O.BoxOk, EvaluationsOk, RepairsOk, OneOpen,
         RepairsContinue, AccountContinues, KeysOk, KeysContinue, Outbox.RetryAt;
    O.RescheduleKeeps(s.box, s.box.claims[token], token, Outbox.RetryAt(now, attempts));
    BoxMoved(s, GiveBackDelivery(s, token, now, attempts).value.box, s.evaluated);
  }
}
