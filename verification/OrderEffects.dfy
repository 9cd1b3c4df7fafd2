/** What each command of a Toss order does, and what the service makes of every answer of the
    provider. */
module OrderEffects {
  import opened Options
  import opened Types
  import opened Payments
  import opened Platform
  import opened Invariant
  import opened RequestSteps
  import opened PaymentEffects
  import P = PaymentProofs
  import OS = OrderSteps
  import W = WorkflowProofs
  import L = LedgerProofs

  // ---- creating, retrying and cancelling

  lemma PaysMeans(s: State, i: nat, party: Party, user: nat)
    ensures Pays(s, i, party, user) <==> PaysFor(s, i, party, user)
  {
  }

  /** Creating and retrying with a new key: only the payer may, exactly where the request row allows
      it, and the new order is stored under the key. */
  lemma CreationEffect(s: State, ref: OrderRef, party: Party, user: nat, creation: CreationPayload)
    requires StateOk(s) && HasRequest(s, ref.request) && creation.key !in s.keys.creations
    ensures var i := ref.request;
            var r := s.repairs[i];
            var q := r.request.value;
            var keys := s.keys.(creations := s.keys.creations[creation.key := OrderRef(i, |q.orders|)]);
            && CreateOrder(s, i, party, user, creation)
               == (if PaysFor(s, i, party, user) && OrderPlaced(q, i, creation).Some?
                   then Some(s.(repairs := s.repairs[i := r.(request := OrderPlaced(q, i, creation))], keys := keys)) else None)
            && RetryOrder(s, ref, party, user, creation)
               == (if PaysFor(s, i, party, user) && OrderRetried(q, i, ref.order, creation).Some?
                   then Some(s.(repairs := s.repairs[i := r.(request := OrderRetried(q, i, ref.order, creation))], keys := keys)) else None)
  {
    hide StateOk, W.WorkflowOk, OrderPlaced, OrderRetried, P.BooksAgree, P.AttemptsOk, P.AuditsOk;
    RequestIsOk(s, ref.request);
    PaysMeans(s, ref.request, party, user);
    hide Pays;
    NewOrderEffect(s.repairs[ref.request].request.value, ref.request, ref.order, creation);
  }

  /** A request row with one order replaced. */
  function WithRow(s: State, ref: OrderRef, row: Order): State
    requires HasOrder(s, ref)
  {
    var r := s.repairs[ref.request];
    var q := r.request.value;
    s.(repairs := s.repairs[ref.request := r.(request := Some(q.(orders := q.orders[ref.order := row])))])
  }

  /** Only the payer cancels, and only an order that no payment can belong to. */
  lemma CancelEffect(s: State, ref: OrderRef, party: Party, user: nat)
    ensures CancelOrder(s, ref, party, user)
            == if HasOrder(s, ref) && PaysFor(s, ref.request, party, user) && OrderAt(s, ref).status in {Ready, Failed}
               then Some(WithRow(s, ref, OrderAt(s, ref).(status := OrderCancelled, openOrderKey := None))) else None
  {
  }

  // ---- asking the provider

  /** The one caller that claims a READY order records the payment key and asks the provider to confirm;
      a repetition asks nothing, and everybody else is refused. */
  lemma BeginConfirmEffect(s: State, ref: OrderRef, party: Party, user: nat, paymentKey: string, amount: int)
    requires StateOk(s) && HasOrder(s, ref)
    ensures var o := OrderAt(s, ref);
            var free := paymentKey !in s.keys.payments || s.keys.payments[paymentKey] == ref;
            BeginConfirm(s, ref, party, user, paymentKey, amount)
            == if !PaysFor(s, ref.request, party, user) || amount != o.amount then None
               else if o.status == Ready && free then
                 Some(WithRow(s, ref, o.(status := Confirming, paymentKey := Some(paymentKey))).(
                      keys := s.keys.(payments := s.keys.payments[paymentKey := ref]), charges := s.charges[ref := Authorized],
                      calls := s.calls + [Call(ref, ConfirmCall, Some(paymentKey), amount, Asking)]))
               else if o.status in {Confirming, ReconciliationRequired, OrderApproved} && o.paymentKey == Some(paymentKey) then Some(s)
               else None
  {
    hide StateOk, W.WorkflowOk, P.BooksAgree, P.AttemptsOk, P.AuditsOk, ClaimConfirmation;
    RequestIsOk(s, ref.request);
    PaysMeans(s, ref.request, party, user);
    hide Pays;
    var q := s.repairs[ref.request].request.value;
    var taken := paymentKey in s.keys.payments && s.keys.payments[paymentKey] != ref;
    ClaimEffect(q, ref.request, ref.order, paymentKey, amount, taken);
    assert P.OrderOk(q, ref.request, q.orders[ref.order]);
  }

  /** Reconciling looks up an order in flight and leaves any other alone. */
  lemma BeginReconcileEffect(s: State, ref: OrderRef, party: Party, user: nat)
    requires HasOrder(s, ref)
    ensures var o := OrderAt(s, ref);
            BeginReconcile(s, ref, party, user)
            == if !PaysFor(s, ref.request, party, user) then None
               else if o.status in {Confirming, ReconciliationRequired}
               then Some(s.(calls := s.calls + [Call(ref, LookupCall, o.paymentKey, o.amount, Asking)]))
               else Some(s)
  {
  }

  // ---- the provider's answer

  /** The answer is about the payment that was asked for. */
  predicate About(payment: Snapshot, call: Call) {
    && payment.repair == call.ref.request && payment.order == call.ref.order
    && call.paymentKey == Some(payment.paymentKey) && payment.amount == call.amount
  }

  datatype Ending = Refuse | Approve(payment: Snapshot) | KeepOpen

  /** What an answer must lead to: a confirmation ends on a refusal, a lookup on a report that this
      payment was aborted or has expired, either on a complete report that it was paid, and on anything
      else the order stays open to be reconciled. */
  function Ends(call: Call, answer: Answer): Ending {
    if answer == Declined && call.kind == ConfirmCall then Refuse
    else if answer.Payment? && About(answer.payment, call) then
      var p := answer.payment;
      if p.status == ProviderStatus.Done && p.means.Some? && p.approvedAt.Some? then Approve(p)
      else if (p.status == Aborted || p.status == Expired) && call.kind == LookupCall then Refuse
      else KeepOpen
    else KeepOpen
  }

  /** The rows of an order in flight after its ending. */
  function EndedRow(q: Request, ref: OrderRef, ending: Ending): Request
    requires ref.order < |q.orders|
  {
    var o := q.orders[ref.order];
    match ending
    case Refuse => q.(orders := q.orders[ref.order := o.(status := Failed, openOrderKey := None)])
    case KeepOpen => q.(orders := q.orders[ref.order := o.(status := ReconciliationRequired, openOrderKey := Some(ref.request))])
    case Approve(p) =>
      if p.means.None? || p.approvedAt.None? then q
      else
        q.(orders := q.orders[ref.order := o.(status := OrderApproved, openOrderKey := None, approval := Some(Approval(p.means.value, p.approvedAt.value)))],
           status := TossPaid, lastMode := Some(Toss),
           cost := if q.payer == Manager then Some(Cost(Confirmed, q.amount, ByOrder(ref.request, ref.order))) else None,
           audits := q.audits + {OfStatus(TossPaid)}, events := q.events + [OfStatus(TossPaid)])
  }

  /** The state after the transactions that follow an answer; a finalization that throws has a second. */
  function Concluded(s: State, c: nat): State {
    var once := Persist(s, c);
    if once.None? then s
    else if c < |once.value.calls| && once.value.calls[c].phase == FinalizeFailed && Persist(once.value, c).Some? then Persist(once.value, c).value
    else once.value
  }

  /** Every answer about an order in flight ends as it must, and nothing but the order's request row and
      the call itself changes. */
  lemma AnswerEffect(s: State, c: nat)
    requires StateOk(s) && c < |s.calls| && s.calls[c].phase.Answered? && HasOrder(s, s.calls[c].ref)
    requires OrderAt(s, s.calls[c].ref).status in {Confirming, ReconciliationRequired}
    ensures var call := s.calls[c];
            var i := call.ref.request;
            Concluded(s, c)
            == s.(calls := s.calls[c := call.(phase := Over)],
                  repairs := s.repairs[i := s.repairs[i].(request := Some(EndedRow(s.repairs[i].request.value, call.ref, Ends(call, call.phase.answer))))])
  {
    hide StateOk, W.WorkflowOk, P.RequestOk, EndedRow, OrderRejected, OrderUncertain, OrderFinalized;
    var call := s.calls[c];
    var q := s.repairs[call.ref.request].request.value;
    RequestIsOk(s, call.ref.request);
    CallFits(s, c);
    assert s.calls[c := call.(phase := FinalizeFailed)][c := call.(phase := Over)] == s.calls[c := call.(phase := Over)];
    EndingRows(q, call.ref);
    if call.phase.answer.Payment? && About(call.phase.answer.payment, call) && call.phase.answer.payment.status == ProviderStatus.Done {
      ApprovalRow(q, call.ref, call.phase.answer.payment);
    }
  }

  lemma EndingRows(q: Request, ref: OrderRef)
    requires ref.order < |q.orders| && q.orders[ref.order].status in {Confirming, ReconciliationRequired}
    ensures OrderRejected(q, ref.order) == Some(EndedRow(q, ref, Refuse))
    ensures OrderUncertain(q, ref.request, ref.order) == Some(EndedRow(q, ref, KeepOpen))
  {
  }

  lemma ApprovalRow(q: Request, ref: OrderRef, p: Snapshot)
    requires P.RequestOk(q, ref.request) && ref.order < |q.orders| && q.orders[ref.order].status in {Confirming, ReconciliationRequired}
    requires p.status == ProviderStatus.Done && (p.repair, p.order) == (ref.request, ref.order)
    requires q.orders[ref.order].paymentKey == Some(p.paymentKey) && p.amount == q.orders[ref.order].amount
    ensures OrderFinalized(q, ref.request, ref.order, p)
            == if p.means.Some? && p.approvedAt.Some? then Some(EndedRow(q, ref, Approve(p))) else None
  {
    hide P.AttemptsOk;
    assert P.OrderOk(q, ref.request, q.orders[ref.order]);
    assert OfStatus(TossPaid) !in q.audits;
  }

  lemma CallFits(s: State, c: nat)
    requires StateOk(s) && c < |s.calls| && HasOrder(s, s.calls[c].ref)
    ensures s.calls[c].paymentKey == OrderAt(s, s.calls[c].ref).paymentKey && s.calls[c].amount == OrderAt(s, s.calls[c].ref).amount
  {
    OS.CallsOf(s);
    hide StateOk;
    assert CallOk(s.repairs, s.charges, s.calls[c]);
  }

  /** An answer about an order that is no longer in flight changes no row. */
  lemma LateAnswerEffect(s: State, c: nat)
    requires StateOk(s) && c < |s.calls| && s.calls[c].phase.Answered? && HasOrder(s, s.calls[c].ref)
    requires OrderAt(s, s.calls[c].ref).status !in {Confirming, ReconciliationRequired}
    ensures Concluded(s, c) == s.(calls := s.calls[c := s.calls[c].(phase := Over)])
  {
    hide StateOk, W.WorkflowOk, P.AttemptsOk, Announce;
    var call := s.calls[c];
    var i := call.ref.request;
    assert s.calls[c := call.(phase := FinalizeFailed)][c := call.(phase := Over)] == s.calls[c := call.(phase := Over)];
    assert s.repairs[i := s.repairs[i].(request := s.repairs[i].request)] == s.repairs;
  }

  /** A refused order holds its request up no longer: a new order can be placed for it at once. */
  lemma RefusalFreesRequest(s: State, c: nat, creation: CreationPayload)
    requires StateOk(s) && c < |s.calls| && s.calls[c].phase.Answered? && HasOrder(s, s.calls[c].ref)
    requires OrderAt(s, s.calls[c].ref).status in {Confirming, ReconciliationRequired}
    requires Ends(s.calls[c], s.calls[c].phase.answer) == Refuse
    ensures var ref := s.calls[c].ref;
            var q := EndedRow(s.repairs[ref.request].request.value, ref, Refuse);
            OrderPlaced(q, ref.request, creation).Some? && OrderRetried(q, ref.request, ref.order, creation).Some?
  {
    hide StateOk, W.WorkflowOk, P.BooksAgree, P.AttemptsOk, P.AuditsOk;
    var ref := s.calls[c].ref;
    var q := s.repairs[ref.request].request.value;
    RequestIsOk(s, ref.request);
    assert P.OrderOk(q, ref.request, q.orders[ref.order]);
    assert forall k :: 0 <= k < |q.orders| ==> P.OrderOk(q, ref.request, q.orders[k]);
  }

  /** When finalizing goes through: for a complete report about this very order and payment, while the
      order is in flight, or again with the same method and time once it is approved. */
  lemma FinalizeEffect(q: Request, i: nat, k: nat, payment: Snapshot)
    requires P.RequestOk(q, i) && k < |q.orders|
    ensures var o := q.orders[k];
            OrderFinalized(q, i, k, payment).Some? <==>
            && payment.status == ProviderStatus.Done && payment.means.Some? && payment.approvedAt.Some?
            && (payment.repair, payment.order, payment.amount) == (i, k, q.amount) && o.paymentKey == Some(payment.paymentKey)
            && (o.status in {Confirming, ReconciliationRequired}
                || (o.status == OrderApproved && o.approval == Some(Approval(payment.means.value, payment.approvedAt.value))))
  {
    assert P.OrderOk(q, i, q.orders[k]);
    hide P.AttemptsOk;
  }

  // ---- the provider itself

  /** When the provider may say what: it may always fail to answer clearly, report a payment that is still
      open, refuse a lookup, or report another payment; only a charged payment is reported as done, and
      only a dead one is refused on confirmation or reported as aborted or expired. */
  lemma ReceiveAnswerEffect(s: State, c: nat, answer: Answer)
    ensures ReceiveAnswer(s, c, answer).Some? <==>
            && c < |s.calls| && s.calls[c].phase == Asking
            && var call := s.calls[c];
               var charged := call.ref in s.charges && s.charges[call.ref] == Charged;
               var dead := call.ref in s.charges && s.charges[call.ref] == Dead;
               if answer == Declined then call.kind == ConfirmCall ==> dead
               else if answer == Unknown then true
               else
                 var status := answer.payment.status;
                 About(answer.payment, call) ==> (status == ProviderStatus.Done ==> charged) && (status in {Aborted, Expired} ==> dead)
    ensures ReceiveAnswer(s, c, answer).Some? ==>
              ReceiveAnswer(s, c, answer).value == s.(calls := s.calls[c := s.calls[c].(phase := Answered(answer))])
  {
  }

  /** A claimed payment is charged or dies once, at any time. */
  lemma ProviderMovesEffect(s: State, ref: OrderRef, outcome: Charge)
    ensures ProviderMoves(s, ref, outcome)
            == if ref in s.charges && s.charges[ref] == Authorized && outcome in {Charged, Dead}
               then Some(s.(charges := s.charges[ref := outcome])) else None
  {
  }
}
