/** The invariant of the whole machine, and what never changes once it is written. */
module Invariant {
  import opened Options
  import opened Types
  import opened Workflow
  import opened Payments
  import opened Ledger
  import opened Platform
  import W = WorkflowProofs
  import P = PaymentProofs
  import L = LedgerProofs
  import O = OutboxProofs
  import Outbox

  // ---- repairs

  predicate RepairOk(r: Repair, i: nat) {
    W.WorkflowOk(r) && (r.request.Some? ==> P.RequestOk(r.request.value, i))
  }

  predicate RepairsOk(repairs: seq<Repair>) {
    forall i :: 0 <= i < |repairs| ==> RepairOk(repairs[i], i)
  }

  predicate OneOpen(repairs: seq<Repair>) {
    forall j, k :: 0 <= j < k < |repairs| && repairs[j].ticket == repairs[k].ticket && !Closed(repairs[j].status) ==>
      Closed(repairs[k].status)
  }

  // ---- the ledger against the requests

  /** A request has exactly one debit once credit has paid for it, and exactly one reversal once
      that payment was reversed; the debit is the one the request points to. */
  predicate LedgerAgrees(r: Repair, i: nat, b: Books) {
    var autos := L.Count(b.ledger, AutoDebit, RequestReference(i));
    var manuals := L.Count(b.ledger, ManualDebit, RequestReference(i));
    var reversals := L.Count(b.ledger, Reversal, RequestReference(i));
    if r.request.Some? && r.request.value.debit.Some? then
      var q := r.request.value;
      && autos + manuals == 1
      && (q.status == AutoPaid ==> autos == 1)
      && (q.status == ManualCreditPaid ==> manuals == 1)
      && reversals == (if q.status == Reversed then 1 else 0)
      && DebitMatches(b, i, q)
      && b.ledger[q.debit.value].manager == r.manager
    else autos == 0 && manuals == 0 && reversals == 0
  }

  predicate LedgerRow(repairs: seq<Repair>, b: Books, i: nat) {
    if i < |repairs| then LedgerAgrees(repairs[i], i, b)
    else
      && L.Count(b.ledger, AutoDebit, RequestReference(i)) == 0
      && L.Count(b.ledger, ManualDebit, RequestReference(i)) == 0
      && L.Count(b.ledger, Reversal, RequestReference(i)) == 0
  }

  function PaidPart(r: Repair, manager: nat): int {
    if r.manager == manager && r.request.Some? && CreditPaid(r.request.value.status) then r.request.value.amount else 0
  }

  /** What one manager's requests are currently paid from credit. */
  function PaidTotal(repairs: seq<Repair>, manager: nat): int {
    if repairs == [] then 0 else PaidTotal(repairs[..|repairs| - 1], manager) + PaidPart(repairs[|repairs| - 1], manager)
  }

  ghost predicate LedgerOk(repairs: seq<Repair>, b: Books) {
    && (forall i: nat :: LedgerRow(repairs, b, i))
    && (forall m: nat :: L.Net(b.ledger, m, L.Requests) == -PaidTotal(repairs, m))
  }

  // ---- orders against the provider

  predicate OrderKnown(repairs: seq<Repair>, ref: OrderRef) {
    && ref.request < |repairs| && repairs[ref.request].request.Some?
    && ref.order < |repairs[ref.request].request.value.orders|
  }

  function OrderOf(repairs: seq<Repair>, ref: OrderRef): Order
    requires OrderKnown(repairs, ref)
  {
    repairs[ref.request].request.value.orders[ref.order]
  }

  /** The provider can only have charged an order that is confirming, uncertain or approved; an
      approved order has been charged and a failed one never will be. */
  predicate OrderCharge(o: Order, ref: OrderRef, charges: map<OrderRef, Charge>, payments: map<string, OrderRef>) {
    && (o.paymentKey.Some? <==> ref in charges)
    && (o.paymentKey.Some? ==> o.paymentKey.value in payments && payments[o.paymentKey.value] == ref)
    && (ref in charges ==>
          && (o.status == OrderApproved ==> charges[ref] == Charged)
          && (o.status == Failed || o.status == OrderCancelled ==> charges[ref] == Dead))
  }

  predicate RepairCharges(r: Repair, i: nat, charges: map<OrderRef, Charge>, payments: map<string, OrderRef>) {
    r.request.Some? ==>
      forall k :: 0 <= k < |r.request.value.orders| ==> OrderCharge(r.request.value.orders[k], OrderRef(i, k), charges, payments)
  }

  predicate ChargesOk(repairs: seq<Repair>, charges: map<OrderRef, Charge>, payments: map<string, OrderRef>) {
    && (forall i :: 0 <= i < |repairs| ==> RepairCharges(repairs[i], i, charges, payments))
    && (forall ref :: ref in charges ==> OrderKnown(repairs, ref))
  }

  predicate CallOk(repairs: seq<Repair>, charges: map<OrderRef, Charge>, call: Call) {
    && OrderKnown(repairs, call.ref)
    && call.paymentKey.Some? && call.paymentKey == OrderOf(repairs, call.ref).paymentKey
    && call.amount == OrderOf(repairs, call.ref).amount
    && (call.phase.Answered? ==> Honest(charges, call, call.phase.answer))
  }

  /** The provider's confirm is called at most once per order. */
  predicate ConfirmedOnce(calls: seq<Call>) {
    forall c, d :: 0 <= c < d < |calls| && calls[c].kind == ConfirmCall && calls[d].kind == ConfirmCall ==> calls[c].ref != calls[d].ref
  }

  predicate CallsOk(repairs: seq<Repair>, charges: map<OrderRef, Charge>, calls: seq<Call>) {
    (forall c :: 0 <= c < |calls| ==> CallOk(repairs, charges, calls[c])) && ConfirmedOnce(calls)
  }

  // ---- unique keys

  predicate CreationOk(repairs: seq<Repair>, key: Key, ref: OrderRef) {
    OrderKnown(repairs, ref) && OrderOf(repairs, ref).creation.key == key
  }

  ghost predicate KeysOk(repairs: seq<Repair>, b: Books, keys: Keys) {
    && (forall key :: PaymentKey(key) in b.ledgerKeys ==> key in keys.attempts)
    && (forall key :: ReversalKey(key) in b.ledgerKeys ==> key in keys.receipts)
    && (forall key :: key in keys.creations ==> CreationOk(repairs, key, keys.creations[key]))
  }

  // ---- the outbox

  predicate LeftWaiting(repairs: seq<Repair>, i: nat) {
    i < |repairs| && repairs[i].request.Some? && repairs[i].request.value.status != WaitingCompletion
  }

  predicate EvaluationOk(repairs: seq<Repair>, e: Evaluation) {
    && e.request < |repairs| && repairs[e.request].request.Some?
    && repairs[e.request].request.value.decision == Some(e.decision)
  }

  predicate Queued(r: Repair, i: nat, evaluations: seq<Evaluation>) {
    r.request.Some? && r.request.value.decision.Some? ==> Evaluation(i, r.request.value.decision.value) in evaluations
  }

  /** A request has at most one evaluation, the one of its decision. */
  predicate EvaluatedOnce(evaluations: seq<Evaluation>) {
    forall c, d :: 0 <= c < d < |evaluations| ==> evaluations[c].request != evaluations[d].request
  }

  predicate EvaluationsOk(repairs: seq<Repair>, evaluations: seq<Evaluation>) {
    && EvaluatedOnce(evaluations)
    && (forall d :: 0 <= d < |evaluations| ==> EvaluationOk(repairs, evaluations[d]))
    && (forall i :: 0 <= i < |repairs| ==> Queued(repairs[i], i, evaluations))
  }

  /** What is marked delivered, or was evaluated under some token, has left WAITING_COMPLETION. */
  predicate DeliveriesOk(repairs: seq<Repair>, evaluations: seq<Evaluation>, box: Outbox.Box, evaluated: set<nat>)
  {
    && |box.rows| == |evaluations|
    && (forall d :: 0 <= d < |box.rows| && box.rows[d].state == Outbox.Delivered ==> LeftWaiting(repairs, evaluations[d].request))
    && (forall t :: t in evaluated ==>
          t < |box.claims| && box.claims[t] < |evaluations| && LeftWaiting(repairs, evaluations[box.claims[t]].request))
  }

  // ---- all together

  ghost predicate StateOk(s: State) {
    && RepairsOk(s.repairs) && OneOpen(s.repairs)
    && L.BooksOk(s.books) && LedgerOk(s.repairs, s.books)
    && ChargesOk(s.repairs, s.charges, s.keys.payments) && CallsOk(s.repairs, s.charges, s.calls)
    && KeysOk(s.repairs, s.books, s.keys)
    && O.BoxOk(s.box) && EvaluationsOk(s.repairs, s.evaluations)
    && DeliveriesOk(s.repairs, s.evaluations, s.box, s.evaluated)
  }

  // ---- what never changes

  predicate OrdersContinue(q: Request, q': Request) {
    && |q.orders| <= |q'.orders|
    && forall k :: 0 <= k < |q.orders| ==> P.OrderContinues(q.orders[k], q'.orders[k])
  }

  predicate RepairContinues(r: Repair, r': Repair) {
    && W.Continues(r, r')
    && (r.request.Some? ==>
          && (Final(r.request.value.status) ==> Final(r'.request.value.status))
          && r.request.value.events <= r'.request.value.events
          && OrdersContinue(r.request.value, r'.request.value))
  }

  predicate RepairsContinue(repairs: seq<Repair>, repairs': seq<Repair>) {
    && |repairs| <= |repairs'|
    && forall i :: 0 <= i < |repairs| ==> RepairContinues(repairs[i], repairs'[i])
  }

  /** Rows under unique keys stay. */
  predicate Extends<K(==), V(==)>(m: map<K, V>, m': map<K, V>) {
    forall k :: k in m ==> k in m' && m'[k] == m[k]
  }

  predicate KeysContinue(keys: Keys, keys': Keys) {
    && Extends(keys.attempts, keys'.attempts) && Extends(keys.receipts, keys'.receipts)
    && Extends(keys.creations, keys'.creations) && Extends(keys.payments, keys'.payments)
    && Extends(keys.submissions, keys'.submissions) && Extends(keys.connections, keys'.connections)
  }

  /** The provider decides once. */
  predicate ChargesContinue(charges: map<OrderRef, Charge>, charges': map<OrderRef, Charge>) {
    forall ref :: ref in charges ==> ref in charges' && (charges[ref] != Authorized ==> charges'[ref] == charges[ref])
  }

  /** A payout may still be debited, and nothing else about it changes. */
  predicate PayoutContinues(p: Payout, p': Payout) {
    p' == p || (!p.debited && p' == p.(debited := true))
  }

  predicate PayoutsContinue(payouts: seq<Payout>, payouts': seq<Payout>) {
    && |payouts| <= |payouts'|
    && forall k :: 0 <= k < |payouts| ==> PayoutContinues(payouts[k], payouts'[k])
  }

  predicate AccountsStay(b: Books, b': Books) {
    b.balances.Keys <= b'.balances.Keys && b.policies.Keys <= b'.policies.Keys
  }

  predicate AccountContinues(b: Books, b': Books) {
    && b.ledger <= b'.ledger && L.TopupsContinue(b, b') && PayoutsContinue(b.payouts, b'.payouts) && AccountsStay(b, b')
    && Extends(b.topupKeys, b'.topupKeys) && Extends(b.payoutKeys, b'.payoutKeys)
  }

  predicate StateContinues(s: State, s': State) {
    && s'.tickets == s.tickets
    && RepairsContinue(s.repairs, s'.repairs)
    && AccountContinues(s.books, s'.books)
    && KeysContinue(s.keys, s'.keys)
    && ChargesContinue(s.charges, s'.charges)
    && s.evaluations <= s'.evaluations
    && O.BoxContinues(s.box, s'.box)
  }

  ghost predicate Steps(s: State, s': State) {
    StateOk(s') && StateContinues(s, s')
  }

  lemma RepairContinuesTransitive(a: Repair, b: Repair, c: Repair)
    requires RepairContinues(a, b) && RepairContinues(b, c)
    ensures RepairContinues(a, c)
  {
    hide W.Continues;
    W.ContinuesTransitive(a, b, c);
    if a.request.Some? {
      assert b.request.Some? && c.request.Some? by { RequestStays(a, b); RequestStays(b, c); }
      OrdersContinueTransitive(a.request.value, b.request.value, c.request.value);
    }
  }

  lemma RequestStays(a: Repair, b: Repair)
    requires W.Continues(a, b) && a.request.Some?
    ensures b.request.Some?
  {
  }

  lemma OrdersContinueTransitive(a: Request, b: Request, c: Request)
    requires OrdersContinue(a, b) && OrdersContinue(b, c)
    ensures OrdersContinue(a, c)
  {
    forall k | 0 <= k < |a.orders| ensures P.OrderContinues(a.orders[k], c.orders[k]) {
      assert P.OrderContinues(a.orders[k], b.orders[k]) && P.OrderContinues(b.orders[k], c.orders[k]);
    }
  }

  lemma RepairsContinueTransitive(a: seq<Repair>, b: seq<Repair>, c: seq<Repair>)
    requires RepairsContinue(a, b) && RepairsContinue(b, c)
    ensures RepairsContinue(a, c)
  {
    hide RepairContinues;
    forall i | 0 <= i < |a| ensures RepairContinues(a[i], c[i]) {
      RepairContinuesTransitive(a[i], b[i], c[i]);
    }
  }

  lemma StateContinuesTransitive(a: State, b: State, c: State)
    requires StateContinues(a, b) && StateContinues(b, c)
    ensures StateContinues(a, c)
  {
    hide RepairsContinue, KeysContinue, AccountContinues;
    RepairsContinueTransitive(a.repairs, b.repairs, c.repairs);
    KeysContinueTransitive(a.keys, b.keys, c.keys);
    AccountContinuesTransitive(a.books, b.books, c.books);
  }

  lemma AccountContinuesTransitive(a: Books, b: Books, c: Books)
    requires AccountContinues(a, b) && AccountContinues(b, c)
    ensures AccountContinues(a, c)
  {
    forall k | 0 <= k < |a.topups| ensures L.TopupContinues(a.topups[k], c.topups[k]) {
      assert L.TopupContinues(a.topups[k], b.topups[k]) && L.TopupContinues(b.topups[k], c.topups[k]);
    }
    forall k | 0 <= k < |a.payouts| ensures PayoutContinues(a.payouts[k], c.payouts[k]) {
      assert PayoutContinues(a.payouts[k], b.payouts[k]) && PayoutContinues(b.payouts[k], c.payouts[k]);
    }
  }

  lemma KeysContinueTransitive(a: Keys, b: Keys, c: Keys)
    requires KeysContinue(a, b) && KeysContinue(b, c)
    ensures KeysContinue(a, c)
  {
  }

  lemma RepairContinuesItself(r: Repair, i: nat)
    requires RepairOk(r, i)
    ensures RepairContinues(r, r)
  {
    hide P.RequestOk, W.EstimatesOk, W.RevisionsAnswered, W.ReviewOk, W.ReportsOk;
  }

  lemma StateContinuesItself(s: State)
    requires StateOk(s)
    ensures StateContinues(s, s)
  {
    hide RepairOk, RepairContinues;
    forall i | 0 <= i < |s.repairs| ensures RepairContinues(s.repairs[i], s.repairs[i]) {
      RepairContinuesItself(s.repairs[i], i);
    }
  }
}
