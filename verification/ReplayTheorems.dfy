/** Idempotency: repeating a command with its key and payload, at any later point of the run,
    changes nothing, and the key with another payload is refused without effect. */
module ReplayTheorems {
  import opened Options
  import opened Types
  import opened Payments
  import opened Ledger
  import opened Platform
  import opened Invariant
  import opened RequestSteps
  import opened Runs
  import L = LedgerProofs
  import P = PaymentProofs
  import W = WorkflowProofs
  import T = WorkflowTheorems

  // ---- a used key, in any state

  /** A settlement whose key was used either repeats the recorded attempt and changes nothing, or
      is refused. */
  lemma UsedSettlementKey(s: State, i: nat, manager: nat, mode: Mode, key: Key, actor: nat, decision: Option<nat>,
                          evidence: Option<Evidence>, now: int)
    requires key in s.keys.attempts
    ensures var next := Settle(s, i, manager, mode, key, actor, decision, evidence, now);
            next.Some? ==>
              && next.value == s
              && s.keys.attempts[key].SettlePayload?
              && var p := s.keys.attempts[key];
                 (p.request, p.mode, p.actor, p.evidence) == (i, mode, actor, evidence) && (decision.Some? ==> decision == Some(p.decision))
  {
    hide SettlementValid, SettleLocked;
  }

  lemma UsedCorrectionKey(s: State, key: Key, payload: CorrectionPayload)
    requires key in s.keys.receipts
    ensures var next := Correct(s, key, payload); next.Some? ==> next.value == s && s.keys.receipts[key] == payload
    ensures s.keys.receipts[key] == payload && HasRequest(s, payload.request) && s.repairs[payload.request].manager == payload.manager ==>
              Correct(s, key, payload) == Some(s)
  {
    hide Execute;
  }

  lemma UsedCreationKey(s: State, i: nat, party: Party, user: nat, creation: CreationPayload)
    requires creation.key in s.keys.creations
    ensures var next := CreateOrder(s, i, party, user, creation);
            next.Some? ==> next.value == s && SameCreation(s, s.keys.creations[creation.key], i, s.repairs[i].request.value.amount, creation, None)
  {
  }

  /** A retry whose key was used returns the order it made if it is that very retry, and is refused
      otherwise. */
  lemma UsedRetryKey(s: State, ref: OrderRef, party: Party, user: nat, creation: CreationPayload)
    requires creation.key in s.keys.creations
    ensures RetryOrder(s, ref, party, user, creation) == if RetriedBefore(s, ref, party, user, creation) then Some(s) else None
  {
    hide OrderRetried;
  }

  lemma UsedCompletionKey(s: State, i: nat, key: Key, payload: CompletionPayload, now: int)
    requires key in s.keys.submissions
    ensures var next := ReportCompletion(s, i, key, payload, now); next.Some? ==> next.value == s && s.keys.submissions[key] == payload
  {
  }

  /** A payout key answers only the kind of payout, and the payload, that it was first used for. */
  lemma UsedPayoutKey(b: Books, key: Key, row: Payout, manager: nat, registration: nat, amount: int, active: bool)
    requires PayoutUnder(b, key, row)
    ensures CreatePayout(b, manager, registration, amount, key, active)
            == if !row.public && (manager, registration, amount) == (row.manager, row.registration, row.amount) then Some(b) else None
    ensures RequestPayout(b, manager, registration, amount, key, active)
            == if row.public && (registration, amount) == (row.registration, row.amount) then Some(b) else None
  {
  }

  /** A top-up key answers only the order it was first used for, and opens no second account. */
  lemma UsedTopupKey(b: Books, key: Key, order: TopupOrder, manager: nat, amount: int, registration: Option<nat>, returnPath: string, active: bool)
    requires TopupUnder(b, key, order)
    ensures CreateTopup(b, manager, amount, key, registration, returnPath, active)
            == if (manager, amount, registration, returnPath) == (order.manager, order.amount, order.registration, order.returnPath)
                  && (registration.Some? ==> active)
               then Some(b) else None
  {
  }

  // ---- replays later in a run

  /** What a settlement leaves behind under its key. */
  predicate Recorded(s: State, i: nat, manager: nat, mode: Mode, key: Key, actor: nat, decision: nat, evidence: Option<Evidence>) {
    && HasRequest(s, i) && s.repairs[i].manager == manager
    && key in s.keys.attempts && s.keys.attempts[key] == SettlePayload(i, mode, actor, decision, evidence)
    && s.repairs[i].request.value.decision == Some(decision)
    && (evidence.Some? ==>
          && decision < |s.repairs[i].reports| && s.repairs[i].reports[decision].decision.Some?
          && s.repairs[i].reports[decision].decision.value.at <= evidence.value.paidAt)
  }

  /** A settlement with a new key that took effect has recorded its key and payload. */
  lemma SettlementIsRecorded(s: State, i: nat, manager: nat, mode: Mode, key: Key, actor: nat, decision: Option<nat>,
                             evidence: Option<Evidence>, now: int)
    requires key !in s.keys.attempts
    requires Settle(s, i, manager, mode, key, actor, decision, evidence, now).Some? && !Final(s.repairs[i].request.value.status)
    ensures var s' := Settle(s, i, manager, mode, key, actor, decision, evidence, now).value;
            && HasRequest(s', i) && s'.repairs[i].request.value.decision.Some?
            && Recorded(s', i, manager, mode, key, actor, s'.repairs[i].request.value.decision.value, evidence)
  {
    hide SettleLocked, ActiveOrder;
    var q := s.repairs[i].request.value;
    var chosen := if decision.Some? then decision.value else q.decision.value;
    SettleLockedRecords(WithAccount(s, manager), i, mode, key, SettlePayload(i, mode, actor, chosen, evidence), evidence);
  }

  lemma SettleLockedRecords(s: State, i: nat, mode: Mode, key: Key, payload: AttemptPayload, evidence: Option<Evidence>)
    requires HasRequest(s, i) && SettleLocked(s, i, mode, key, payload, evidence).Some?
    ensures var s' := SettleLocked(s, i, mode, key, payload, evidence).value;
            && key in s'.keys.attempts && s'.keys.attempts[key] == payload
            && HasRequest(s', i) && s'.repairs[i] == s.repairs[i].(request := s'.repairs[i].request)
            && s'.repairs[i].request.value.decision == s.repairs[i].request.value.decision
  {
    hide Settled, LackCredit, Post, CanDebit;
    var q := s.repairs[i].request.value;
    DecisionUntouched(q, i, mode, key, payload, evidence, None);
    DecisionUntouched(q, i, mode, key, payload, None, Some(|s.books.ledger|));
  }

  lemma DecisionUntouched(q: Request, i: nat, mode: Mode, key: Key, payload: AttemptPayload, evidence: Option<Evidence>, debit: Option<nat>)
    ensures var next := Settled(q, i, mode, key, payload, evidence, debit); next.Some? ==> next.value.decision == q.decision
    ensures LackCredit(q, mode, key, payload).decision == q.decision
  {
  }

  lemma RecordedStays(s: State, s': State, i: nat, manager: nat, mode: Mode, key: Key, actor: nat, decision: nat, evidence: Option<Evidence>)
    requires StateContinues(s, s') && Recorded(s, i, manager, mode, key, actor, decision, evidence)
    ensures Recorded(s', i, manager, mode, key, actor, decision, evidence)
  {
    hide RepairsContinue, AccountContinues, OrdersContinue, W.EstimatesContinue;
    T.RepairLater(s, s', i);
  }

  /** A settlement that took effect can be repeated at any later point, with the decision given or
      left out, and changes nothing. */
  lemma SettlementReplays(tickets: seq<Ticket>, commands: seq<Command>, more: seq<Command>, i: nat, manager: nat, mode: Mode, key: Key,
                          actor: nat, decision: nat, evidence: Option<Evidence>, now: int)
    requires Recorded(Run(Initial(tickets), commands), i, manager, mode, key, actor, decision, evidence)
    requires mode != Toss && (mode == Direct <==> evidence.Some?) && (evidence.Some? ==> EvidenceOk(evidence.value, now))
    ensures var s := Run(Run(Initial(tickets), commands), more);
            && Settle(s, i, manager, mode, key, actor, None, evidence, now) == Some(s)
            && Settle(s, i, manager, mode, key, actor, Some(decision), evidence, now) == Some(s)
  {
    hide StateOk, StateContinues, Run, SettlementValid, SettleLocked;
    Later(tickets, commands, more);
    var s := Run(Run(Initial(tickets), commands), more);
    RecordedStays(Run(Initial(tickets), commands), s, i, manager, mode, key, actor, decision, evidence);
    RunsAppend(Initial(tickets), commands, more);
    T.SettlementChecksHold(tickets, commands + more, i, decision);
  }

  /** A correction that took effect can be repeated at any later point and changes nothing. */
  lemma CorrectionReplays(tickets: seq<Ticket>, commands: seq<Command>, more: seq<Command>, key: Key, payload: CorrectionPayload)
    requires var s := Run(Initial(tickets), commands); key !in s.keys.receipts && Correct(s, key, payload).Some?
    ensures var s := Run(Initial(tickets), commands);
            var later := Run(Apply(s, TryCorrect(key, payload)), more);
            && Correct(later, key, payload) == Some(later)
            && forall other :: other != payload ==> Correct(later, key, other) == None
  {
    hide StateOk, StateContinues, Run, Correct;
    var s := Run(Initial(tickets), commands);
    var done := Apply(s, TryCorrect(key, payload));
    var later := Run(done, more);
    Reachable(tickets, commands);
    StepKeeps(s, TryCorrect(key, payload));
    RunKeeps(done, more);
    CorrectionRecorded(s, key, payload);
    ReceiptStays(done, later, key, payload);
    UsedCorrectionKey(later, key, payload);
    forall other | other != payload ensures Correct(later, key, other) == None {
      UsedCorrectionKey(later, key, other);
    }
  }

  lemma CorrectionRecorded(s: State, key: Key, payload: CorrectionPayload)
    requires key !in s.keys.receipts && Correct(s, key, payload).Some?
    ensures var s' := Correct(s, key, payload).value;
            && key in s'.keys.receipts && s'.keys.receipts[key] == payload
            && HasRequest(s', payload.request) && s'.repairs[payload.request].manager == payload.manager
  {
  }

  lemma ReceiptStays(s: State, s': State, key: Key, payload: CorrectionPayload)
    requires StateContinues(s, s') && key in s.keys.receipts && s.keys.receipts[key] == payload
    requires HasRequest(s, payload.request) && s.repairs[payload.request].manager == payload.manager
    ensures key in s'.keys.receipts && s'.keys.receipts[key] == payload
    ensures HasRequest(s', payload.request) && s'.repairs[payload.request].manager == payload.manager
  {
    hide RepairsContinue, AccountContinues, OrdersContinue, W.EstimatesContinue;
    T.RepairLater(s, s', payload.request);
  }

  /** An order that was created can be asked for again at any later point: while the request can
      still be prepared for Toss the same order is returned, afterwards the command is refused; it
      never creates a second order, and its key serves no other creation and no retry. */
  lemma CreationReplays(tickets: seq<Ticket>, commands: seq<Command>, more: seq<Command>, i: nat, party: Party, user: nat, creation: CreationPayload)
    requires var s := Run(Initial(tickets), commands); creation.key !in s.keys.creations && CreateOrder(s, i, party, user, creation).Some?
    ensures var s := Run(Initial(tickets), commands);
            var later := Run(Apply(s, TryCreateOrder(i, party, user, creation)), more);
            && HasRequest(later, i)
            && CreateOrder(later, i, party, user, creation) == (if CanPrepareToss(later.repairs[i].request.value) then Some(later) else None)
            && (forall j: nat, p, u: nat, other: CreationPayload :: other.key == creation.key && (j, p, u, other) != (i, party, user, creation) ==>
                  CreateOrder(later, j, p, u, other) == None)
            && (forall ref, p, u: nat, other: CreationPayload :: other.key == creation.key ==> RetryOrder(later, ref, p, u, other) == None)
  {
    hide StateOk, StateContinues, Run, CreateOrder, RetryOrder, CanPrepareToss;
    var s := Run(Initial(tickets), commands);
    var done := Apply(s, TryCreateOrder(i, party, user, creation));
    var later := Run(done, more);
    Reachable(tickets, commands);
    StepKeeps(s, TryCreateOrder(i, party, user, creation));
    RunKeeps(done, more);
    CreationRecorded(s, i, party, user, creation);
    CreationStays(done, later, i, party, user, creation, None);
    forall j: nat, p, u: nat, other: CreationPayload | other.key == creation.key
      ensures CreateOrder(later, j, p, u, other)
              == if (j, p, u, other) == (i, party, user, creation) && CanPrepareToss(later.repairs[i].request.value) then Some(later) else None
    {
      CreationAgain(later, i, party, user, creation, j, p, u, other);
    }
    forall ref, p, u: nat, other: CreationPayload | other.key == creation.key ensures RetryOrder(later, ref, p, u, other) == None {
      CreationIsNoRetry(later, i, party, user, creation, ref, p, u, other);
    }
  }

  /** A retry that made an order can be repeated at any later point, whatever became of the orders and
      of the request: it returns that order and changes nothing, and its key serves no other retry and
      no creation. */
  lemma RetryReplays(tickets: seq<Ticket>, commands: seq<Command>, more: seq<Command>, ref: OrderRef, party: Party, user: nat, creation: CreationPayload)
    requires var s := Run(Initial(tickets), commands); creation.key !in s.keys.creations && RetryOrder(s, ref, party, user, creation).Some?
    ensures var s := Run(Initial(tickets), commands);
            var later := Run(Apply(s, TryRetryOrder(ref, party, user, creation)), more);
            && RetryOrder(later, ref, party, user, creation) == Some(later)
            && (forall other: OrderRef, p, u: nat, c: CreationPayload :: c.key == creation.key && (other, p, u, c) != (ref, party, user, creation) ==>
                  RetryOrder(later, other, p, u, c) == None)
            && (forall j: nat, p, u: nat, c: CreationPayload :: c.key == creation.key ==> CreateOrder(later, j, p, u, c) == None)
  {
    hide StateOk, StateContinues, Run, CreateOrder, RetryOrder;
    var s := Run(Initial(tickets), commands);
    var done := Apply(s, TryRetryOrder(ref, party, user, creation));
    var later := Run(done, more);
    Reachable(tickets, commands);
    StepKeeps(s, TryRetryOrder(ref, party, user, creation));
    RunKeeps(done, more);
    RetryRecorded(s, ref, party, user, creation);
    CreationStays(done, later, ref.request, party, user, creation, Some(ref.order));
    forall other: OrderRef, p, u: nat, c: CreationPayload | c.key == creation.key
      ensures RetryOrder(later, other, p, u, c) == if (other, p, u, c) == (ref, party, user, creation) then Some(later) else None
    {
      RetryAgain(later, ref, party, user, creation, other, p, u, c);
    }
    forall j: nat, p, u: nat, c: CreationPayload | c.key == creation.key ensures CreateOrder(later, j, p, u, c) == None {
      RetryIsNoCreation(later, ref, party, user, creation, j, p, u, c);
    }
  }

  /** The order that a creation or retry has stored under its key. */
  predicate CreatedBefore(s: State, i: nat, party: Party, user: nat, creation: CreationPayload, retryOf: Option<nat>) {
    && Pays(s, i, party, user) && creation.key in s.keys.creations
    && SameCreation(s, s.keys.creations[creation.key], i, s.repairs[i].request.value.amount, creation, retryOf)
  }

  predicate RetriedBefore(s: State, ref: OrderRef, party: Party, user: nat, creation: CreationPayload) {
    && HasOrder(s, ref) && Pays(s, ref.request, party, user) && creation.key in s.keys.creations
    && SameCreation(s, s.keys.creations[creation.key], ref.request, OrderAt(s, ref).amount, creation, Some(ref.order))
  }

  lemma CreationRecorded(s: State, i: nat, party: Party, user: nat, creation: CreationPayload)
    requires creation.key !in s.keys.creations && CreateOrder(s, i, party, user, creation).Some?
    ensures CreatedBefore(CreateOrder(s, i, party, user, creation).value, i, party, user, creation, None)
  {
  }

  lemma RetryRecorded(s: State, ref: OrderRef, party: Party, user: nat, creation: CreationPayload)
    requires creation.key !in s.keys.creations && RetryOrder(s, ref, party, user, creation).Some?
    ensures var s' := RetryOrder(s, ref, party, user, creation).value;
            HasOrder(s', ref) && CreatedBefore(s', ref.request, party, user, creation, Some(ref.order))
  {
    hide OpenKeyHeld;
  }

  lemma CreationStays(s: State, s': State, i: nat, party: Party, user: nat, creation: CreationPayload, retryOf: Option<nat>)
    requires StateContinues(s, s') && CreatedBefore(s, i, party, user, creation, retryOf)
    requires retryOf.Some? ==> HasOrder(s, OrderRef(i, retryOf.value))
    ensures CreatedBefore(s', i, party, user, creation, retryOf)
    ensures retryOf.Some? ==> HasOrder(s', OrderRef(i, retryOf.value))
  {
    hide RepairsContinue, AccountContinues, W.EstimatesContinue;
    T.RepairLater(s, s', i);
    var k := s.keys.creations[creation.key].order;
    assert P.OrderContinues(s.repairs[i].request.value.orders[k], s'.repairs[i].request.value.orders[k]);
  }

  lemma CreationAgain(s: State, i: nat, party: Party, user: nat, creation: CreationPayload, j: nat, p: Party, u: nat, other: CreationPayload)
    requires CreatedBefore(s, i, party, user, creation, None) && other.key == creation.key
    ensures CreateOrder(s, j, p, u, other)
            == if (j, p, u, other) == (i, party, user, creation) && CanPrepareToss(s.repairs[i].request.value) then Some(s) else None
  {
  }

  lemma CreationIsNoRetry(s: State, i: nat, party: Party, user: nat, creation: CreationPayload, ref: OrderRef, p: Party, u: nat, other: CreationPayload)
    requires CreatedBefore(s, i, party, user, creation, None) && other.key == creation.key
    ensures RetryOrder(s, ref, p, u, other) == None
  {
    UsedRetryKey(s, ref, p, u, other);
  }

  lemma RetryAgain(s: State, ref: OrderRef, party: Party, user: nat, creation: CreationPayload, other: OrderRef, p: Party, u: nat, c: CreationPayload)
    requires StateOk(s) && HasOrder(s, ref) && CreatedBefore(s, ref.request, party, user, creation, Some(ref.order)) && c.key == creation.key
    ensures RetryOrder(s, other, p, u, c) == if (other, p, u, c) == (ref, party, user, creation) then Some(s) else None
  {
    hide StateOk, RetryOrder, P.BooksAgree, P.AttemptsOk, P.AuditsOk, W.WorkflowOk;
    UsedRetryKey(s, other, p, u, c);
    RequestIsOk(s, ref.request);
    assert P.OrderOk(s.repairs[ref.request].request.value, ref.request, OrderAt(s, ref));
  }

  lemma RetryIsNoCreation(s: State, ref: OrderRef, party: Party, user: nat, creation: CreationPayload, j: nat, p: Party, u: nat, c: CreationPayload)
    requires CreatedBefore(s, ref.request, party, user, creation, Some(ref.order)) && c.key == creation.key
    ensures CreateOrder(s, j, p, u, c) == None
  {
  }

  // ---- payouts and top-ups

  /** What a payout leaves behind under its key; a waiting one may since have been debited. */
  predicate PayoutUnder(b: Books, key: Key, row: Payout) {
    && key in b.payoutKeys && b.payoutKeys[key] < |b.payouts| && PayoutContinues(row, b.payouts[b.payoutKeys[key]])
    && PositiveSafeMoney(row.amount) && row.topup.None? && (!row.public ==> row.debited)
  }

  predicate TopupUnder(b: Books, key: Key, order: TopupOrder) {
    && key in b.topupKeys && b.topupKeys[key] < |b.topups| && PositiveSafeMoney(order.amount)
    && order.manager in b.balances && order.manager in b.policies
    && var stored := b.topups[b.topupKeys[key]];
       (stored.manager, stored.amount, stored.registration, stored.returnPath) == (order.manager, order.amount, order.registration, order.returnPath)
  }

  lemma PayoutStays(b: Books, b': Books, key: Key, row: Payout)
    requires AccountContinues(b, b') && PayoutUnder(b, key, row)
    ensures PayoutUnder(b', key, row)
  {
    assert PayoutContinues(b.payouts[b.payoutKeys[key]], b'.payouts[b.payoutKeys[key]]);
  }

  lemma TopupStays(b: Books, b': Books, key: Key, order: TopupOrder)
    requires AccountContinues(b, b') && TopupUnder(b, key, order)
    ensures TopupUnder(b', key, order)
  {
    assert L.TopupContinues(b.topups[b.topupKeys[key]], b'.topups[b.topupKeys[key]]);
  }

  /** The account after a step and any further commands. */
  lemma AccountLater(tickets: seq<Ticket>, commands: seq<Command>, c: Command, more: seq<Command>)
    ensures var done := Apply(Run(Initial(tickets), commands), c); AccountContinues(done.books, Run(done, more).books)
  {
    hide StateOk, Run, Apply, RepairsContinue, AccountContinues, KeysContinue;
    var s := Run(Initial(tickets), commands);
    Reachable(tickets, commands);
    StepKeeps(s, c);
    RunKeeps(Apply(s, c), more);
  }

  /** A manager's payout can be repeated at any later point and changes nothing; its key with another
      payload, or for a vendor's request, is refused. */
  lemma PayoutReplays(tickets: seq<Ticket>, commands: seq<Command>, more: seq<Command>, manager: nat, registration: nat, amount: int, key: Key, active: bool)
    requires var b := Run(Initial(tickets), commands).books; key !in b.payoutKeys && CreatePayout(b, manager, registration, amount, key, active).Some?
    ensures var s := Run(Initial(tickets), commands);
            var later := Run(Apply(s, TryAccount(TryCreatePayout(manager, registration, amount, key, active))), more);
            forall m: nat, r: nat, a, eligible ::
              && Account(later, TryCreatePayout(m, r, a, key, eligible)) == (if (m, r, a) == (manager, registration, amount) then Some(later) else None)
              && Account(later, TryRequestPayout(m, r, a, key, eligible)) == None
  {
    hide Run, AccountContinues, CreatePayout, RequestPayout;
    var s := Run(Initial(tickets), commands);
    var done := Apply(s, TryAccount(TryCreatePayout(manager, registration, amount, key, active)));
    var later := Run(done, more);
    var row := Payout(manager, registration, amount, true, false, None);
    AccountLater(tickets, commands, TryAccount(TryCreatePayout(manager, registration, amount, key, active)), more);
    PayoutRecorded(s.books, manager, registration, amount, key, active);
    PayoutStays(done.books, later.books, key, row);
    forall m: nat, r: nat, a, eligible
      ensures Account(later, TryCreatePayout(m, r, a, key, eligible)) == if (m, r, a) == (manager, registration, amount) then Some(later) else None
      ensures Account(later, TryRequestPayout(m, r, a, key, eligible)) == None
    {
      UsedPayoutKey(later.books, key, row, m, r, a, eligible);
    }
  }

  lemma PayoutRecorded(b: Books, manager: nat, registration: nat, amount: int, key: Key, active: bool)
    requires key !in b.payoutKeys
    ensures var created := CreatePayout(b, manager, registration, amount, key, active);
            created.Some? ==> PayoutUnder(created.value, key, Payout(manager, registration, amount, true, false, None))
    ensures var requested := RequestPayout(b, manager, registration, amount, key, active);
            requested.Some? ==>
              && |requested.value.payouts| > |b.payouts|
              && PayoutUnder(requested.value, key, Payout(manager, registration, amount, requested.value.payouts[|b.payouts|].debited, true, None))
  {
  }

  /** The same for a vendor's own request, even if it has been settled since. */
  lemma PayoutRequestReplays(tickets: seq<Ticket>, commands: seq<Command>, more: seq<Command>, manager: nat, registration: nat, amount: int, key: Key, active: bool)
    requires var b := Run(Initial(tickets), commands).books; key !in b.payoutKeys && RequestPayout(b, manager, registration, amount, key, active).Some?
    ensures var s := Run(Initial(tickets), commands);
            var later := Run(Apply(s, TryAccount(TryRequestPayout(manager, registration, amount, key, active))), more);
            forall m: nat, r: nat, a, eligible ::
              && Account(later, TryRequestPayout(m, r, a, key, eligible)) == (if (r, a) == (registration, amount) then Some(later) else None)
              && Account(later, TryCreatePayout(m, r, a, key, eligible)) == None
  {
    hide Run, AccountContinues, CreatePayout, RequestPayout;
    var s := Run(Initial(tickets), commands);
    var done := Apply(s, TryAccount(TryRequestPayout(manager, registration, amount, key, active)));
    var later := Run(done, more);
    AccountLater(tickets, commands, TryAccount(TryRequestPayout(manager, registration, amount, key, active)), more);
    PayoutRecorded(s.books, manager, registration, amount, key, active);
    var row := Payout(manager, registration, amount, done.books.payouts[|s.books.payouts|].debited, true, None);
    PayoutStays(done.books, later.books, key, row);
    forall m: nat, r: nat, a, eligible
      ensures Account(later, TryRequestPayout(m, r, a, key, eligible)) == if (r, a) == (registration, amount) then Some(later) else None
      ensures Account(later, TryCreatePayout(m, r, a, key, eligible)) == None
    {
      UsedPayoutKey(later.books, key, row, m, r, a, eligible);
    }
  }

  /** A payout that was settled is never debited again: settling it at any later point, under any key,
      changes nothing. */
  lemma PayoutSettlesOnce(tickets: seq<Ticket>, commands: seq<Command>, more: seq<Command>, manager: nat, k: nat, key: Key, again: Key)
    requires SettlePayout(Run(Initial(tickets), commands).books, manager, k, key).Some?
    ensures var later := Run(Apply(Run(Initial(tickets), commands), TryAccount(TrySettlePayout(manager, k, key))), more);
            Account(later, TrySettlePayout(manager, k, again)) == Some(later)
  {
    hide Run, AccountContinues, SettlePayout;
    var s := Run(Initial(tickets), commands);
    var done := Apply(s, TryAccount(TrySettlePayout(manager, k, key)));
    AccountLater(tickets, commands, TryAccount(TrySettlePayout(manager, k, key)), more);
    PayoutSettled(s.books, manager, k, key);
    PayoutLater(done.books, Run(done, more).books, k);
    PayoutSettled(Run(done, more).books, manager, k, again);
  }

  lemma PayoutSettled(b: Books, manager: nat, k: nat, key: Key)
    ensures var next := SettlePayout(b, manager, k, key);
            next.Some? ==> k < |next.value.payouts| && next.value.payouts[k].debited && next.value.payouts[k].manager == manager
    ensures k < |b.payouts| && b.payouts[k].manager == manager && b.payouts[k].debited ==> SettlePayout(b, manager, k, key) == Some(b)
  {
  }

  lemma PayoutLater(b: Books, b': Books, k: nat)
    requires AccountContinues(b, b') && k < |b.payouts|
    ensures k < |b'.payouts| && PayoutContinues(b.payouts[k], b'.payouts[k])
  {
  }

  /** A top-up order can be created again at any later point, whatever became of it, and changes
      nothing; its key for another order is refused. */
  lemma TopupReplays(tickets: seq<Ticket>, commands: seq<Command>, more: seq<Command>, manager: nat, amount: int, key: Key, registration: Option<nat>,
                     returnPath: string, active: bool)
    requires var b := Run(Initial(tickets), commands).books; key !in b.topupKeys && CreateTopup(b, manager, amount, key, registration, returnPath, active).Some?
    ensures var s := Run(Initial(tickets), commands);
            var later := Run(Apply(s, TryAccount(TryCreateTopup(manager, amount, key, registration, returnPath, active))), more);
            forall m: nat, a, r, path, eligible ::
              Account(later, TryCreateTopup(m, a, key, r, path, eligible))
              == if (m, a, r, path) == (manager, amount, registration, returnPath) && (registration.Some? ==> eligible) then Some(later) else None
  {
    hide Run, AccountContinues, CreateTopup;
    var s := Run(Initial(tickets), commands);
    var done := Apply(s, TryAccount(TryCreateTopup(manager, amount, key, registration, returnPath, active)));
    var later := Run(done, more);
    var order := TopupOrder(manager, amount, TopupReady, registration, returnPath, None);
    AccountLater(tickets, commands, TryAccount(TryCreateTopup(manager, amount, key, registration, returnPath, active)), more);
    TopupRecorded(s.books, manager, amount, key, registration, returnPath, active);
    TopupStays(done.books, later.books, key, order);
    forall m: nat, a, r, path, eligible
      ensures Account(later, TryCreateTopup(m, a, key, r, path, eligible))
              == if (m, a, r, path) == (manager, amount, registration, returnPath) && (registration.Some? ==> eligible) then Some(later) else None
    {
      UsedTopupKey(later.books, key, order, m, a, r, path, eligible);
    }
  }

  lemma TopupRecorded(b: Books, manager: nat, amount: int, key: Key, registration: Option<nat>, returnPath: string, active: bool)
    requires key !in b.topupKeys
    ensures var next := CreateTopup(b, manager, amount, key, registration, returnPath, active);
            next.Some? ==> TopupUnder(next.value, key, TopupOrder(manager, amount, TopupReady, registration, returnPath, None))
  {
  }
}
