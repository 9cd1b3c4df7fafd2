/** How each part of the invariant survives a change of one part of the state. */
module Frames {
  import opened Options
  import opened Types
  import opened Workflow
  import opened Payments
  import opened Ledger
  import opened Platform
  import opened Invariant
  import W = WorkflowProofs
  import P = PaymentProofs
  import L = LedgerProofs
  import O = OutboxProofs
  import Outbox

  // ---- one repair changes

  lemma RepairReplaced(repairs: seq<Repair>, i: nat, r: Repair)
    requires RepairsOk(repairs) && OneOpen(repairs) && i < |repairs|
    requires RepairOk(r, i) && RepairContinues(repairs[i], r)
    ensures RepairsOk(repairs[i := r]) && OneOpen(repairs[i := r]) && RepairsContinue(repairs, repairs[i := r])
  {
    hide RepairOk;
    forall j | 0 <= j < |repairs| ensures RepairContinues(repairs[j], repairs[i := r][j]) {
      RepairContinuesItself(repairs[j], j);
    }
    assert forall j :: 0 <= j < |repairs| ==> repairs[i := r][j].ticket == repairs[j].ticket;
    assert forall j :: 0 <= j < |repairs| && Closed(repairs[j].status) ==> Closed(repairs[i := r][j].status);
    hide RepairContinues;
  }

  /** What the credit account sees of a repair. */
  predicate SameMoney(r: Repair, r': Repair) {
    && r'.manager == r.manager
    && (r.request.Some? && (r.request.value.debit.Some? || CreditPaid(r.request.value.status)) ==>
          && r'.request.Some?
          && (r'.request.value.debit, r'.request.value.amount, r'.request.value.status)
             == (r.request.value.debit, r.request.value.amount, r.request.value.status))
    && (r'.request.Some? && (r'.request.value.debit.Some? || CreditPaid(r'.request.value.status)) ==>
          && r.request.Some?
          && (r'.request.value.debit, r'.request.value.amount, r'.request.value.status)
             == (r.request.value.debit, r.request.value.amount, r.request.value.status))
  }

  lemma {:induction false} PaidTotalReplaced(repairs: seq<Repair>, i: nat, r: Repair, m: nat)
    requires i < |repairs|
    ensures PaidTotal(repairs[i := r], m) == PaidTotal(repairs, m) - PaidPart(repairs[i], m) + PaidPart(r, m)
  {
    var n := |repairs| - 1;
    if i < n {
      assert repairs[i := r][..n] == repairs[..n][i := r];
      PaidTotalReplaced(repairs[..n], i, r, m);
    } else {
      assert repairs[i := r][..n] == repairs[..n];
    }
  }

  lemma LedgerQuiet(repairs: seq<Repair>, i: nat, r: Repair, b: Books)
    requires LedgerOk(repairs, b) && i < |repairs| && SameMoney(repairs[i], r)
    ensures LedgerOk(repairs[i := r], b)
  {
    hide L.Count, L.Net, PaidTotal;
    var repairs' := repairs[i := r];
    forall j: nat ensures LedgerRow(repairs', b, j) {
      assert LedgerRow(repairs, b, j);
    }
    forall m: nat ensures L.Net(b.ledger, m, L.Requests) == -PaidTotal(repairs', m) {
      PaidTotalReplaced(repairs, i, r, m);
    }
  }

  /** The books change without touching entries of requests. */
  lemma LedgerFramed(repairs: seq<Repair>, b: Books, b': Books)
    requires LedgerOk(repairs, b) && L.SameRequestEntries(b, b')
    ensures LedgerOk(repairs, b')
  {
    hide L.Count, L.Net, PaidTotal;
    forall j: nat ensures LedgerRow(repairs, b', j) {
      assert LedgerRow(repairs, b, j);
    }
  }

  lemma OrdersStay(repairs: seq<Repair>, repairs': seq<Repair>, ref: OrderRef)
    requires RepairsContinue(repairs, repairs') && OrderKnown(repairs, ref)
    ensures OrderKnown(repairs', ref) && P.OrderContinues(OrderOf(repairs, ref), OrderOf(repairs', ref))
  {
    hide P.OrderContinues, W.EstimatesContinue;
    assert RepairContinues(repairs[ref.request], repairs'[ref.request]);
  }

  lemma ChargesReplaced(repairs: seq<Repair>, i: nat, r: Repair, charges: map<OrderRef, Charge>, payments: map<string, OrderRef>)
    requires ChargesOk(repairs, charges, payments) && i < |repairs|
    requires RepairCharges(r, i, charges, payments) && RepairsContinue(repairs, repairs[i := r])
    ensures ChargesOk(repairs[i := r], charges, payments)
  {
    hide RepairsContinue, RepairCharges;
    forall ref | ref in charges ensures OrderKnown(repairs[i := r], ref) {
      OrdersStay(repairs, repairs[i := r], ref);
    }
  }

  lemma CallsStay(repairs: seq<Repair>, repairs': seq<Repair>, charges: map<OrderRef, Charge>, charges': map<OrderRef, Charge>, calls: seq<Call>)
    requires CallsOk(repairs, charges, calls)
    requires RepairsContinue(repairs, repairs') && ChargesContinue(charges, charges')
    ensures CallsOk(repairs', charges', calls)
  {
    hide RepairsContinue;
    forall c | 0 <= c < |calls| ensures CallOk(repairs', charges', calls[c]) {
      assert CallOk(repairs, charges, calls[c]);
      OrdersStay(repairs, repairs', calls[c].ref);
    }
  }

  /** Books and keys grow together, and orders stay. */
  lemma KeysStay(repairs: seq<Repair>, repairs': seq<Repair>, b: Books, b': Books, keys: Keys, keys': Keys)
    requires KeysOk(repairs, b, keys) && RepairsContinue(repairs, repairs') && KeysContinue(keys, keys')
    requires forall key :: PaymentKey(key) in b'.ledgerKeys ==> PaymentKey(key) in b.ledgerKeys || key in keys'.attempts
    requires forall key :: ReversalKey(key) in b'.ledgerKeys ==> ReversalKey(key) in b.ledgerKeys || key in keys'.receipts
    requires forall key :: key in keys'.creations && key !in keys.creations ==> CreationOk(repairs', key, keys'.creations[key])
    ensures KeysOk(repairs', b', keys')
  {
    hide RepairsContinue;
    forall key | key in keys'.creations ensures CreationOk(repairs', key, keys'.creations[key]) {
      if key in keys.creations {
        OrdersStay(repairs, repairs', keys.creations[key]);
      }
    }
  }

  lemma LeftWaitingStays(repairs: seq<Repair>, repairs': seq<Repair>, i: nat)
    requires RepairsContinue(repairs, repairs') && LeftWaiting(repairs, i)
    ensures LeftWaiting(repairs', i)
  {
    hide OrdersContinue, W.EstimatesContinue;
    assert RepairContinues(repairs[i], repairs'[i]);
  }

  lemma DeliveriesStay(repairs: seq<Repair>, repairs': seq<Repair>, evaluations: seq<Evaluation>, box: Outbox.Box, evaluated: set<nat>)
    requires DeliveriesOk(repairs, evaluations, box, evaluated) && RepairsContinue(repairs, repairs')
    ensures DeliveriesOk(repairs', evaluations, box, evaluated)
  {
    hide RepairsContinue;
    forall i | LeftWaiting(repairs, i) ensures LeftWaiting(repairs', i) {
      LeftWaitingStays(repairs, repairs', i);
    }
    hide LeftWaiting;
  }

  /** A decision that is already recorded keeps its evaluation. */
  lemma EvaluationsStay(repairs: seq<Repair>, i: nat, r: Repair, evaluations: seq<Evaluation>)
    requires EvaluationsOk(repairs, evaluations) && i < |repairs|
    requires repairs[i].request.Some? ==> r.request.Some? && r.request.value.decision == repairs[i].request.value.decision
    requires repairs[i].request.None? && r.request.Some? ==> r.request.value.decision.None?
    ensures EvaluationsOk(repairs[i := r], evaluations)
  {
  }

  // ---- whole steps

  /** A transaction on one repair that neither moves credit nor decides a report. */
  lemma RepairMoved(s: State, i: nat, r: Repair)
    requires StateOk(s) && i < |s.repairs|
    requires RepairOk(r, i) && RepairContinues(s.repairs[i], r) && SameMoney(s.repairs[i], r)
    requires RepairCharges(r, i, s.charges, s.keys.payments)
    requires s.repairs[i].request.Some? ==> r.request.Some? && r.request.value.decision == s.repairs[i].request.value.decision
    requires s.repairs[i].request.None? && r.request.Some? ==> r.request.value.decision.None?
    ensures Steps(s, WithRepair(s, i, r))
  {
    var s' := WithRepair(s, i, r);
    StateContinuesItself(s);
    hide RepairOk, RepairContinues, SameMoney, RepairCharges, L.BooksOk, LedgerOk, ChargesOk, CallsOk, KeysOk, O.BoxOk, EvaluationsOk,
         DeliveriesOk, O.BoxContinues, RepairsOk, OneOpen, RepairsContinue, AccountContinues, KeysContinue;
    RepairReplaced(s.repairs, i, r);
    LedgerQuiet(s.repairs, i, r, s.books);
    ChargesReplaced(s.repairs, i, r, s.charges, s.keys.payments);
    CallsStay(s.repairs, s'.repairs, s.charges, s.charges, s.calls);
    KeysSame(s.repairs, s'.repairs, s.books, s.keys);
    EvaluationsStay(s.repairs, i, r, s.evaluations);
    DeliveriesStay(s.repairs, s'.repairs, s.evaluations, s.box, s.evaluated);
  }

  lemma KeysSame(repairs: seq<Repair>, repairs': seq<Repair>, b: Books, keys: Keys)
    requires KeysOk(repairs, b, keys) && RepairsContinue(repairs, repairs')
    ensures KeysOk(repairs', b, keys)
  {
    hide RepairsContinue;
    KeysStay(repairs, repairs', b, b, keys, keys);
  }

  lemma StepsTransitive(a: State, b: State, c: State)
    requires Steps(a, b) && Steps(b, c)
    ensures Steps(a, c)
  {
    hide StateOk, StateContinues;
    StateContinuesTransitive(a, b, c);
  }

  /** A new repair on a ticket without an open one. */
  lemma RepairAppended(s: State, r: Repair)
    requires StateOk(s) && W.WorkflowOk(r) && r.request.None?
    requires FindOpen(s.repairs, r.ticket).None?
    ensures Steps(s, s.(repairs := s.repairs + [r]))
  {
    var repairs' := s.repairs + [r];
    StateContinuesItself(s);
    hide RepairContinues, L.BooksOk, L.SameRequestEntries, LedgerOk, ChargesOk, CallsOk, KeysOk, O.BoxOk, EvaluationsOk, DeliveriesOk,
         O.BoxContinues, AccountContinues, KeysContinue, W.WorkflowOk, P.RequestOk;
    assert RepairsContinue(s.repairs, repairs');
    assert RepairsOk(repairs') && OneOpen(repairs') by {
      assert forall i :: 0 <= i < |s.repairs| ==> RepairOk(s.repairs[i], i);
    }
    hide RepairsOk, OneOpen, RepairsContinue;
    LedgerAppended(s.repairs, r, s.books);
    ChargesAppended(s.repairs, r, s.charges, s.keys.payments);
    CallsStay(s.repairs, repairs', s.charges, s.charges, s.calls);
    KeysSame(s.repairs, repairs', s.books, s.keys);
    EvaluationsAppended(s.repairs, r, s.evaluations);
    DeliveriesStay(s.repairs, repairs', s.evaluations, s.box, s.evaluated);
  }

  lemma LedgerAppended(repairs: seq<Repair>, r: Repair, b: Books)
    requires LedgerOk(repairs, b) && r.request.None?
    ensures LedgerOk(repairs + [r], b)
  {
    var repairs' := repairs + [r];
    hide L.Count, L.Net;
    forall j: nat ensures LedgerRow(repairs', b, j) {
      assert LedgerRow(repairs, b, j);
    }
    assert repairs'[..|repairs|] == repairs;
    assert forall m: nat :: PaidTotal(repairs', m) == PaidTotal(repairs, m);
  }

  lemma ChargesAppended(repairs: seq<Repair>, r: Repair, charges: map<OrderRef, Charge>, payments: map<string, OrderRef>)
    requires ChargesOk(repairs, charges, payments) && r.request.None?
    ensures ChargesOk(repairs + [r], charges, payments)
  {
    forall ref | ref in charges ensures OrderKnown(repairs + [r], ref) {
      assert OrderKnown(repairs, ref);
    }
  }

  lemma EvaluationsAppended(repairs: seq<Repair>, r: Repair, evaluations: seq<Evaluation>)
    requires EvaluationsOk(repairs, evaluations) && r.request.None?
    ensures EvaluationsOk(repairs + [r], evaluations)
  {
  }

  /** Rows are added under new keys. */
  lemma KeysGrown(s: State, keys: Keys)
    requires StateOk(s) && KeysContinue(s.keys, keys) && keys.payments == s.keys.payments
    requires forall key :: key in keys.creations && key !in s.keys.creations ==> CreationOk(s.repairs, key, keys.creations[key])
    ensures Steps(s, s.(keys := keys))
  {
    StateContinuesItself(s);
    hide RepairsOk, OneOpen, RepairsContinue, L.BooksOk, LedgerOk, ChargesOk, CallsOk, O.BoxOk, EvaluationsOk, DeliveriesOk,
         O.BoxContinues, AccountContinues, KeysOk, KeysContinue;
    KeysStay(s.repairs, s.repairs, s.books, s.books, s.keys, keys);
  }

  /** The account moves for a reason other than a payment request. */
  lemma BooksMoved(s: State, b: Books)
    requires StateOk(s) && L.Keeps(s.books, Some(b)) && AccountContinues(s.books, b)
    ensures Steps(s, s.(books := b))
  {
    StateContinuesItself(s);
    hide RepairsOk, OneOpen, RepairsContinue, L.BooksOk, LedgerOk, ChargesOk, CallsOk, O.BoxOk, EvaluationsOk, DeliveriesOk,
         O.BoxContinues, AccountContinues, KeysContinue;
    LedgerFramed(s.repairs, s.books, b);
  }

  lemma CallsMoved(s: State, calls: seq<Call>)
    requires StateOk(s) && CallsOk(s.repairs, s.charges, calls)
    ensures Steps(s, s.(calls := calls))
  {
    StateContinuesItself(s);
    hide RepairsOk, OneOpen, RepairsContinue, L.BooksOk, LedgerOk, ChargesOk, CallsOk, O.BoxOk, EvaluationsOk, DeliveriesOk,
         O.BoxContinues, AccountContinues, KeysContinue, KeysOk;
  }

  lemma BoxMoved(s: State, box: Outbox.Box, evaluated: set<nat>)
    requires StateOk(s) && O.BoxOk(box) && O.BoxContinues(s.box, box)
    requires DeliveriesOk(s.repairs, s.evaluations, box, evaluated)
    ensures Steps(s, s.(box := box, evaluated := evaluated))
  {
    StateContinuesItself(s);
    hide RepairsOk, OneOpen, RepairsContinue, L.BooksOk, LedgerOk, ChargesOk, CallsOk, O.BoxOk, EvaluationsOk, DeliveriesOk,
         O.BoxContinues, AccountContinues, KeysContinue, KeysOk;
  }
}
