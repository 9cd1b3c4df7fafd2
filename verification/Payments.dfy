/** The payment request of one repair: settlement, corrections, the tenant's direct payment and
    Toss orders. A request has the id of its repair, because a repair has at most one.

    As in Workflow, None means that the transaction throws. What a transaction does to the
    credit account and to indexes that span requests is in module World.
 */
module Payments {
  import opened Options
  import opened Types

  predicate Final(status: PayStatus) {
    match status
    case WaitingCompletion | PendingApproval | InsufficientCredit => false
    case _ => true
  }

  predicate Payable(status: PayStatus) {
    status == PendingApproval || status == InsufficientCredit
  }

  predicate CreditPaid(status: PayStatus) {
    status == AutoPaid || status == ManualCreditPaid
  }

  predicate OpenOrder(status: OrderStatus) {
    status == Ready || status == Confirming || status == ReconciliationRequired
  }

  predicate InFlight(status: OrderStatus) {
    status == Confirming || status == ReconciliationRequired
  }

  predicate HasOpenOrder(q: Request) {
    exists k :: 0 <= k < |q.orders| && OpenOrder(q.orders[k].status)
  }

  predicate OpenKeyHeld(q: Request, id: nat) {
    exists k :: 0 <= k < |q.orders| && q.orders[k].openOrderKey == Some(id)
  }

  /** The lookup that settlement and cancellation make: by open key, then by status. */
  predicate ActiveOrder(q: Request, id: nat) {
    exists k :: 0 <= k < |q.orders| && q.orders[k].openOrderKey == Some(id) && OpenOrder(q.orders[k].status)
  }

  predicate CanPrepareToss(q: Request) {
    Payable(q.status) && !(q.payer == Tenant && q.lastMode == Some(Direct))
  }

  // ---- audit trail

  /** Appends an audit row unless its dedupe key exists; a new row writes its event once. */
  function Announce(q: Request, key: AuditKey): Request {
    if key in q.audits then q else q.(audits := q.audits + {key}, events := q.events + [key])
  }

  // ---- settlement

  function PaidStatus(mode: Mode): PayStatus {
    match mode
    case AutoCredit => AutoPaid
    case ManualCredit => ManualCreditPaid
    case Direct => DirectPaid
    case Toss => TossPaid
  }

  function AwaitApproval(q: Request): Request {
    Announce(q.(status := PendingApproval, lastMode := None), OfStatus(PendingApproval))
  }

  function LackCredit(q: Request, mode: Mode, key: Key, payload: AttemptPayload): Request {
    Announce(q.(status := InsufficientCredit,
                lastMode := Some(mode),
                attempts := q.attempts + [Attempt(key, mode, NoCredit, payload)]),
             OfStatus(InsufficientCredit))
  }

  /** The request rows of a settlement that succeeds; the cost id is derived from the request,
      so a second cost row would be refused by the database. */
  function Settled(q: Request, id: nat, mode: Mode, key: Key, payload: AttemptPayload,
                   evidence: Option<Evidence>, debit: Option<nat>): Option<Request> {
    if q.cost.Some? then None
    else
      var reference := if evidence.Some? then ByReference(evidence.value.reference) else ByRepair(id);
      Some(Announce(q.(status := PaidStatus(mode),
                       cost := Some(Cost(Confirmed, q.amount, reference)),
                       debit := debit,
                       lastMode := Some(mode),
                       directReference := if evidence.Some? then Some(reference) else q.directReference,
                       attempts := q.attempts + [Attempt(key, mode, Succeeded, payload)]),
                    OfStatus(PaidStatus(mode))))
  }

  // ---- corrections

  /** The consistency check of a reversal or void, and the voided cost. */
  function VoidedCost(q: Request, id: nat): Option<Cost> {
    var expected := if q.status == DirectPaid then q.directReference else Some(ByRepair(id));
    if q.cost.None? || q.cost.value.status != Confirmed || expected.None?
       || q.cost.value.reference != expected.value || q.cost.value.amount != q.amount
    then None
    else Some(q.cost.value.(status := Void))
  }

  function Finished(q: Request, status: PayStatus): Option<Request> {
    if OfStatus(status) in q.audits then None
    else Some(Announce(q.(status := status), OfStatus(status)))
  }

  function ReversedRequest(q: Request, id: nat): Option<Request> {
    if !CreditPaid(q.status) || q.debit.None? then None
    else
      match VoidedCost(q, id)
      case None => None
      case Some(cost) => Finished(q.(cost := Some(cost)), Reversed)
  }

  function VoidedDirect(q: Request, id: nat): Option<Request> {
    if q.status != DirectPaid || q.debit.Some? then None
    else
      match VoidedCost(q, id)
      case None => None
      case Some(cost) => Finished(q.(cost := Some(cost)), DirectPaymentVoided)
  }

  function CancelledRequest(q: Request, id: nat): Option<Request> {
    if ActiveOrder(q, id) || !Payable(q.status) || q.cost.Some? || q.debit.Some? then None
    else Finished(q, PaymentCancelled)
  }

  // ---- the tenant's direct payment

  predicate IsTenantDirectPending(q: Request) {
    q.payer == Tenant && q.status == PendingApproval && q.lastMode == Some(Direct)
  }

  predicate IsTenantDirectPaid(q: Request) {
    q.payer == Tenant && q.status == DirectPaid && q.lastMode == Some(Direct)
  }

  /** A first request with an unused key. */
  function DirectRequested(q: Request, key: Key, payload: AttemptPayload): Option<Request> {
    if q.status != PendingApproval || q.cost.Some? || q.debit.Some? || HasOpenOrder(q) then None
    else
      Some(q.(lastMode := Some(Direct),
              attempts := q.attempts + [Attempt(key, Direct, Started, payload)],
              audits := q.audits + {TenantDirectPending}))
  }

  function LastStarted(attempts: seq<Attempt>): (k: Option<nat>)
    ensures k.Some? ==> k.value < |attempts| && attempts[k.value].mode == Direct && attempts[k.value].status == Started
    ensures k.None? ==> forall j :: 0 <= j < |attempts| ==> !(attempts[j].mode == Direct && attempts[j].status == Started)
  {
    if attempts == [] then None
    else
      var n := |attempts| - 1;
      if attempts[n].mode == Direct && attempts[n].status == Started then Some(n) else LastStarted(attempts[..n])
  }

  /** The vendor confirms receipt; there is no check for a Toss order here. */
  function DirectConfirmed(q: Request, tenant: nat): Option<Request> {
    if IsTenantDirectPaid(q) then Some(q)
    else if !IsTenantDirectPending(q) || q.cost.Some? || q.debit.Some? then None
    else
      match LastStarted(q.attempts)
      case None => None
      case Some(k) =>
        if !(q.attempts[k].payload.TenantDirectPayload? && q.attempts[k].payload.tenant == tenant) then None
        else
          Some(Announce(q.(status := DirectPaid,
                           attempts := q.attempts[k := q.attempts[k].(status := Succeeded)],
                           directReference := Some(ByAttempt(k))),
                        TenantDirectPaid))
  }

  // ---- Toss orders

  function NewOrder(q: Request, id: nat, creation: CreationPayload, retryOf: Option<nat>): Order {
    Order(Ready, q.amount, creation, retryOf, Some(id), None, None)
  }

  function WithOrder(q: Request, k: nat, order: Order): Request
    requires k < |q.orders|
  {
    q.(orders := q.orders[k := order])
  }

  function OrderPlaced(q: Request, id: nat, creation: CreationPayload): Option<Request> {
    if !CanPrepareToss(q) || OpenKeyHeld(q, id) then None
    else Some(q.(orders := q.orders + [NewOrder(q, id, creation, None)]))
  }

  function OrderRetried(q: Request, id: nat, k: nat, creation: CreationPayload): Option<Request> {
    if k >= |q.orders| || !CanPrepareToss(q) then None
    else if q.orders[k].status != Ready && q.orders[k].status != Failed then None
    else
      var cleared := if q.orders[k].status == Ready
                     then WithOrder(q, k, q.orders[k].(status := OrderCancelled, openOrderKey := None)) else q;
      if OpenKeyHeld(cleared, id) then None
      else Some(cleared.(orders := cleared.orders + [NewOrder(cleared, id, creation, Some(k))]))
  }

  datatype Claim = Claimed(request: Request) | Replayed | ClaimRefused

  /** The atomic step that makes one caller responsible for asking the provider to charge. */
  function ClaimConfirmation(q: Request, id: nat, k: nat, paymentKey: string, amount: int, keyTaken: bool): Claim {
    if k >= |q.orders| || q.orders[k].amount != amount || q.amount != amount then ClaimRefused
    else
      var order := q.orders[k];
      if order.status == OrderApproved || InFlight(order.status) then
        if order.paymentKey == Some(paymentKey) then Replayed else ClaimRefused
      else if order.status != Ready || !CanPrepareToss(q) || keyTaken then ClaimRefused
      else Claimed(WithOrder(q, k, order.(status := Confirming, paymentKey := Some(paymentKey), openOrderKey := Some(id))))
  }

  datatype ProviderStatus = Done | Aborted | Expired | Nonterminal

  /** What the provider says about a payment. A method or time that is absent or blank is None. */
  datatype Snapshot = Snapshot(
    repair: nat,
    order: nat,
    paymentKey: string,
    amount: int,
    status: ProviderStatus,
    means: Option<string>,
    approvedAt: Option<int>)

  function OrderFinalized(q: Request, id: nat, k: nat, payment: Snapshot): Option<Request> {
    if k >= |q.orders| || payment.status != Done || payment.means.None? || payment.approvedAt.None? then None
    else
      var order := q.orders[k];
      var approval := Approval(payment.means.value, payment.approvedAt.value);
      if (payment.repair, payment.order) != (id, k) || order.paymentKey != Some(payment.paymentKey) || payment.amount != order.amount then None
      else if order.status == OrderApproved then if order.approval == Some(approval) then Some(q) else None
      else if !InFlight(order.status) || !CanPrepareToss(q) then None
      else if q.amount != order.amount || q.cost.Some? || q.debit.Some? || OfStatus(TossPaid) in q.audits then None
      else
        var approved := WithOrder(q, k, order.(status := OrderApproved, approval := Some(approval), openOrderKey := None));
        Some(Announce(approved.(status := TossPaid,
                                cost := if q.payer == Manager then Some(Cost(Confirmed, q.amount, ByOrder(id, k))) else None,
                                debit := None,
                                lastMode := Some(Toss)),
                      OfStatus(TossPaid)))
  }

  function OrderRejected(q: Request, k: nat): Option<Request> {
    if k >= |q.orders| || !InFlight(q.orders[k].status) then None
    else Some(WithOrder(q, k, q.orders[k].(status := Failed, openOrderKey := None)))
  }

  function OrderUncertain(q: Request, id: nat, k: nat): Option<Request> {
    if k >= |q.orders| || !InFlight(q.orders[k].status) then None
    else Some(WithOrder(q, k, q.orders[k].(status := ReconciliationRequired, openOrderKey := Some(id))))
  }

  function OrderCancelledByUser(q: Request, k: nat): Option<Request> {
    if k >= |q.orders| || (q.orders[k].status != Ready && q.orders[k].status != Failed) then None
    else Some(WithOrder(q, k, q.orders[k].(status := OrderCancelled, openOrderKey := None)))
  }
}
