/** What each payment and credit transaction leaves behind, and when it goes through. */
module PaymentEffects {
  import opened Options
  import opened Types
  import opened Payments
  import opened Ledger
  import opened Platform
  import opened Invariant
  import opened RequestSteps
  import opened Workflow
  import P = PaymentProofs
  import L = LedgerProofs
  import W = WorkflowProofs

  // ---- the statuses of the rules, named here independently of the transactions

  predicate Unpaid(q: Request) {
    q.status in {PendingApproval, InsufficientCredit}
  }

  /** Paid, undone or cancelled. */
  predicate Done(q: Request) {
    q.status !in {WaitingCompletion, PendingApproval, InsufficientCredit}
  }

  predicate AnOrderIsOpen(q: Request) {
    exists k :: 0 <= k < |q.orders| && q.orders[k].status in {Ready, Confirming, ReconciliationRequired}
  }

  /** The tenant has chosen to pay the vendor directly. */
  predicate DirectChosen(q: Request) {
    q.payer == Tenant && q.lastMode == Some(Direct)
  }

  predicate PaysFor(s: State, i: nat, party: Party, user: nat) {
    && i < |s.repairs| && s.repairs[i].request.Some? && s.repairs[i].request.value.payer == party
    && (party == Manager ==> user == s.repairs[i].manager) && (party == Tenant ==> user == s.repairs[i].tenant)
  }

  /** What the manager's stored policy debits without asking. */
  predicate PolicyAllows(b: Books, manager: nat, amount: int) {
    match if manager in b.policies then b.policies[manager] else AlwaysRequireApproval
    case AlwaysRequireApproval => false
    case AutoDebitUnderLimit(limit) => amount <= limit
  }

  lemma PolicyDecides(b: Books, manager: nat, amount: int)
    ensures ShouldAutoDebit(b, manager, amount) <==> PolicyAllows(b, manager, amount)
  {
  }

  /** A request with one more entry in its audit trail, and its event if the entry is new. */
  function Noted(q: Request, key: AuditKey): Request {
    q.(audits := q.audits + {key}, events := if key in q.audits then q.events else q.events + [key])
  }

  // ---- settlement

  /** The request row after a payment by this mode. */
  function PaidRow(q: Request, i: nat, mode: Mode, key: Key, payload: AttemptPayload, evidence: Option<Evidence>, debit: Option<nat>): Request {
    var status := match mode case AutoCredit => AutoPaid case ManualCredit => ManualCreditPaid case Direct => DirectPaid case Toss => TossPaid;
    var reference := if evidence.Some? then ByReference(evidence.value.reference) else ByRepair(i);
    Noted(q.(status := status, lastMode := Some(mode), cost := Some(Cost(Confirmed, q.amount, reference)), debit := debit,
             directReference := if evidence.Some? then Some(reference) else q.directReference,
             attempts := q.attempts + [Attempt(key, mode, Succeeded, payload)]), OfStatus(status))
  }

  function ShortRow(q: Request, mode: Mode, key: Key, payload: AttemptPayload): Request {
    Noted(q.(status := InsufficientCredit, lastMode := Some(mode), attempts := q.attempts + [Attempt(key, mode, NoCredit, payload)]),
          OfStatus(InsufficientCredit))
  }

  /** A settlement that takes effect, in terms of rows: one new attempt under the caller's key, and
      either a payment with its cost, debit and ledger entry, or a note that credit lacks. */
  predicate SettledRows(s: State, s': State, i: nat, mode: Mode, key: Key, payload: AttemptPayload, evidence: Option<Evidence>)
    requires HasRequest(s, i)
  {
    var r := s.repairs[i];
    var q := r.request.value;
    var balance := if r.manager in s.books.balances then s.books.balances[r.manager] else 0;
    && s' == s.(repairs := s'.repairs, books := s'.books, keys := s.keys.(attempts := s.keys.attempts[key := payload]))
    && if mode == Direct then
         s'.repairs == s.repairs[i := r.(request := Some(PaidRow(q, i, mode, key, payload, evidence, None)))] && s'.books.ledger == s.books.ledger
       else if balance < q.amount then
         s'.repairs == s.repairs[i := r.(request := Some(ShortRow(q, mode, key, payload)))] && s'.books.ledger == s.books.ledger
       else
         && s'.repairs == s.repairs[i := r.(request := Some(PaidRow(q, i, mode, key, payload, None, Some(|s.books.ledger|))))]
         && s'.books.ledger
            == s.books.ledger + [Entry(r.manager, if mode == AutoCredit then AutoDebit else ManualDebit, -q.amount, balance - q.amount, RequestReference(i), None)]
         && r.manager in s'.books.balances && s'.books.balances[r.manager] == balance - q.amount
  }

  lemma AnnounceNotes(q: Request, key: AuditKey)
    ensures Announce(q, key) == Noted(q, key)
  {
    assert key in q.audits ==> q.audits + {key} == q.audits;
  }

  lemma SettleLockedEffect(s: State, i: nat, mode: Mode, key: Key, payload: AttemptPayload, evidence: Option<Evidence>)
    requires HasRequest(s, i) && mode != Toss && (mode == Direct <==> evidence.Some?)
    requires SettleLocked(s, i, mode, key, payload, evidence).Some?
    ensures SettledRows(s, SettleLocked(s, i, mode, key, payload, evidence).value, i, mode, key, payload, evidence)
  {
    hide Announce, Noted;
    var q := s.repairs[i].request.value;
    forall q: Request, key: AuditKey ensures Announce(q, key) == Noted(q, key) {
      AnnounceNotes(q, key);
    }
  }

  lemma AccountIsInvisible(s: State, s': State, i: nat, mode: Mode, key: Key, payload: AttemptPayload, evidence: Option<Evidence>)
    requires HasRequest(s, i) && SettledRows(WithAccount(s, s.repairs[i].manager), s', i, mode, key, payload, evidence)
    ensures SettledRows(s, s', i, mode, key, payload, evidence)
  {
    hide PaidRow, ShortRow;
  }

  /** When a settlement with a new key goes through, for a request that a manager has approved, and what
      it does: nothing if the request is already settled, and a payment attempt otherwise. */
  lemma SettleEffect(s: State, i: nat, manager: nat, mode: Mode, key: Key, actor: nat, decision: Option<nat>,
                     evidence: Option<Evidence>, now: int)
    requires StateOk(s) && HasRequest(s, i) && key !in s.keys.attempts
    ensures var q := s.repairs[i].request.value;
            var next := Settle(s, i, manager, mode, key, actor, decision, evidence, now);
            && (next.Some? <==>
                  && s.repairs[i].manager == manager && mode != Toss && (mode == Direct <==> evidence.Some?)
                  && q.decision.Some? && (decision.Some? ==> decision == q.decision)
                  && (evidence.Some? ==>
                        evidence.value.paidAt <= now && 1 <= |evidence.value.reference| <= 120 && DecidedBy(s.repairs[i], evidence.value.paidAt))
                  && (Done(q) || (if mode == AutoCredit then q.status == WaitingCompletion else Unpaid(q) && !AnOrderIsOpen(q))))
            && (next.Some? && Done(q) ==> next.value == s)
            && (next.Some? && !Done(q) ==>
                  SettledRows(s, next.value, i, mode, key, SettlePayload(i, mode, actor, q.decision.value, evidence), evidence))
  {
    hide StateOk, SettleLocked, W.WorkflowOk, P.RequestOk, LedgerOk, SettledRows;
    var q := s.repairs[i].request.value;
    CreditFacts(s, i);
    var chosen := if decision.Some? then decision else q.decision;
    if chosen.Some? {
      ValidIff(s, i, chosen.value);
    }
    ActiveIsOpen(q, i);
    OpenMeans(q);
    if q.decision.Some? && q.payer == Manager && !Final(q.status) && !ActiveOrder(q, i) && mode != Toss && (mode == Direct <==> evidence.Some?) {
      var payload := SettlePayload(i, mode, actor, q.decision.value, evidence);
      var mid := WithAccount(s, s.repairs[i].manager);
      WithAccountKeeps(s, s.repairs[i].manager);
      hide StateContinues;
      SettleLockedSucceeds(mid, i, mode, key, payload, evidence);
      SettleLockedEffect(mid, i, mode, key, payload, evidence);
      AccountIsInvisible(s, SettleLocked(mid, i, mode, key, payload, evidence).value, i, mode, key, payload, evidence);
    }
  }

  lemma OpenMeans(q: Request)
    ensures HasOpenOrder(q) <==> AnOrderIsOpen(q)
  {
  }

  predicate DecidedBy(r: Repair, at: int) {
    && r.request.Some? && r.request.value.decision.Some? && r.request.value.decision.value < |r.reports|
    && r.reports[r.request.value.decision.value].decision.Some?
    && r.reports[r.request.value.decision.value].decision.value.at <= at
  }

  lemma ValidIff(s: State, i: nat, decision: nat)
    requires StateOk(s) && HasRequest(s, i)
    ensures SettlementValid(s.repairs[i], decision) <==> s.repairs[i].request.value.decision == Some(decision)
    ensures s.repairs[i].request.value.decision.Some? ==> s.repairs[i].request.value.payer == Manager
    ensures s.repairs[i].request.value.decision == Some(decision) ==>
              decision < |s.repairs[i].reports| && s.repairs[i].reports[decision].decision.Some?
  {
    hide StateOk, P.RequestOk, RepairCharges, W.EstimatesOk;
    RepairOf(s, i);
    CreditFacts(s, i);
  }

  /** The lookup by open key and the lookup by status agree, and a waiting request has no order. */
  lemma ActiveIsOpen(q: Request, i: nat)
    requires P.RequestOk(q, i)
    ensures ActiveOrder(q, i) <==> HasOpenOrder(q)
    ensures q.status == WaitingCompletion ==> !HasOpenOrder(q)
  {
    assert forall k :: 0 <= k < |q.orders| ==> P.OrderOk(q, i, q.orders[k]);
  }

  /** The automatic evaluation of a waiting request: debited at once exactly where the stored policy
      allows its amount and the balance suffices, noted as short where only the balance is missing, and
      put up for approval where the policy does not allow it. It always leaves WAITING_COMPLETION unless
      its attempt key was used up. */
  lemma EvaluateEffect(s: State, i: nat, decision: nat)
    requires StateOk(s) && HasRequest(s, i) && s.repairs[i].request.value.decision == Some(decision)
    requires s.repairs[i].request.value.status == WaitingCompletion
    ensures var r := s.repairs[i];
            var q := r.request.value;
            var next := Evaluate(s, i, r.manager, decision);
            if PolicyAllows(s.books, r.manager, q.amount) then
              && (next.Some? <==> AutoSettlement(i, decision) !in s.keys.attempts)
              && (next.Some? ==>
                    SettledRows(s, next.value, i, AutoCredit, AutoSettlement(i, decision), SettlePayload(i, AutoCredit, r.manager, decision, None), None))
            else
              && next.Some?
              && next.value.repairs == s.repairs[i := r.(request := Some(Noted(q.(status := PendingApproval, lastMode := None), OfStatus(PendingApproval))))]
              && (next.value.books.ledger, next.value.keys) == (s.books.ledger, s.keys)
  {
    hide StateOk, StateContinues, W.WorkflowOk, P.RequestOk, LedgerOk, SettlementValid, SettleLocked, HasOpenOrder, ActiveOrder, SettledRows, Noted, Announce,
         ShouldAutoDebit, PolicyAllows;
    var r := s.repairs[i];
    ValidIff(s, i, decision);
    CreditFacts(s, i);
    ActiveIsOpen(r.request.value, i);
    WithAccountKeeps(s, r.manager);
    var mid := WithAccount(s, r.manager);
    AccountOpened(s.books, r.manager);
    PolicyDecides(s.books, r.manager, r.request.value.amount);
    AnnounceNotes(r.request.value.(status := PendingApproval, lastMode := None), OfStatus(PendingApproval));
    var payload := SettlePayload(i, AutoCredit, r.manager, decision, None);
    SettleLockedSucceeds(mid, i, AutoCredit, AutoSettlement(i, decision), payload, None);
    if SettleLocked(mid, i, AutoCredit, AutoSettlement(i, decision), payload, None).Some? {
      SettleLockedEffect(mid, i, AutoCredit, AutoSettlement(i, decision), payload, None);
      AccountIsInvisible(s, SettleLocked(mid, i, AutoCredit, AutoSettlement(i, decision), payload, None).value, i, AutoCredit, AutoSettlement(i, decision), payload, None);
    }
  }

  /** Any other evaluation changes nothing: it is refused for another manager or decision, and returns
      for a request that has left WAITING_COMPLETION. */
  lemma OtherEvaluations(s: State, i: nat, manager: nat, decision: nat)
    requires StateOk(s) && HasRequest(s, i)
    requires s.repairs[i].request.value.status != WaitingCompletion || s.repairs[i].manager != manager
             || s.repairs[i].request.value.decision != Some(decision)
    ensures Evaluate(s, i, manager, decision)
            == if s.repairs[i].manager == manager && s.repairs[i].request.value.decision == Some(decision) then Some(s) else None
  {
    hide StateOk, SettlementValid, SettleLocked;
    ValidIff(s, i, decision);
  }

  // ---- corrections

  /** The request row after its payment is undone or it is cancelled. */
  function CorrectedRow(q: Request, kind: Correction): Request
    requires kind != PaymentCancel ==> q.cost.Some?
  {
    match kind
    case CreditReversal => Noted(q.(status := Reversed, cost := Some(Cost(Void, q.amount, q.cost.value.reference))), OfStatus(Reversed))
    case DirectVoid =>
      Noted(q.(status := DirectPaymentVoided, cost := Some(Cost(Void, q.amount, q.cost.value.reference))), OfStatus(DirectPaymentVoided))
    case PaymentCancel => Noted(q.(status := PaymentCancelled), OfStatus(PaymentCancelled))
  }

  /** What a correction under a new key does: it undoes exactly the payment it is meant for, voids its
      cost, books the reversal of a debit, and leaves a receipt. */
  lemma CorrectionEffect(s: State, key: Key, payload: CorrectionPayload)
    requires StateOk(s) && key !in s.keys.receipts && Correct(s, key, payload).Some?
    ensures var i := payload.request;
            var s' := Correct(s, key, payload).value;
            && HasRequest(s, i) && s.repairs[i].manager == payload.manager
            && var r := s.repairs[i];
               var q := r.request.value;
               && (payload.kind != PaymentCancel ==> q.cost.Some?)
               && s' == s.(repairs := s.repairs[i := r.(request := Some(CorrectedRow(q, payload.kind)))], books := s'.books,
                           keys := s.keys.(receipts := s.keys.receipts[key := payload]))
               && match payload.kind
                  case CreditReversal =>
                    && q.status in {AutoPaid, ManualCreditPaid} && q.debit.Some?
                    && |s'.books.ledger| == |s.books.ledger| + 1
                    && s'.books.ledger[|s.books.ledger|].(balanceAfter := 0) == Entry(r.manager, Reversal, q.amount, 0, RequestReference(i), q.debit)
                  case DirectVoid => q.status == DirectPaid && q.payer == Manager && s'.books == s.books
                  case PaymentCancel => Unpaid(q) && !AnOrderIsOpen(q) && s'.books == s.books
  {
    hide StateOk, Announce, Noted, W.WorkflowOk, HasOpenOrder, ActiveOrder, LedgerOk, P.AttemptsOk, P.AuditsOk;
    var q := s.repairs[payload.request].request.value;
    CreditFacts(s, payload.request);
    ActiveIsOpen(q, payload.request);
    OpenMeans(q);
    forall q: Request, key: AuditKey ensures Announce(q, key) == Noted(q, key) {
      AnnounceNotes(q, key);
    }
  }

  // ---- the tenant's direct payment

  /** The tenant's choice to pay the vendor directly: open for the tenant of a repair of its own while
      the request is unpaid and no Toss order is open. It opens an attempt under the key; choosing again
      changes nothing. */
  lemma RequestDirectEffect(s: State, i: nat, tenant: nat, key: Key)
    requires StateOk(s) && HasRequest(s, i)
    ensures var r := s.repairs[i];
            var q := r.request.value;
            var payload := TenantDirectPayload(i, tenant, q.amount);
            var chosen := DirectChosen(q) && q.status in {PendingApproval, DirectPaid};
            var next := RequestDirect(s, i, tenant, key);
            && (next.Some? <==>
                  && q.payer == Tenant && r.tenant == tenant && r.costBearer == Some(TenantPays) && r.tenantInitiated
                  && (key in s.keys.attempts ==> s.keys.attempts[key] == payload && chosen)
                  && (chosen || (q.status == PendingApproval && !AnOrderIsOpen(q))))
            && (next.Some? ==>
                  next.value == if chosen then s
                                else s.(repairs := s.repairs[i := r.(request := Some(q.(
                                          lastMode := Some(Direct), attempts := q.attempts + [Attempt(key, Direct, Started, payload)],
                                          audits := q.audits + {TenantDirectPending})))],
                                        keys := s.keys.(attempts := s.keys.attempts[key := payload])))
  {
    hide StateOk, W.WorkflowOk, HasOpenOrder, AnOrderIsOpen, LedgerOk, P.AttemptsOk, P.AuditsOk, P.OrdersOk;
    CreditFacts(s, i);
    OpenMeans(s.repairs[i].request.value);
  }

  /** The attempt that the vendor's confirmation is about: the last one started directly. */
  predicate LastDirect(q: Request, k: nat) {
    && k < |q.attempts| && q.attempts[k].mode == Direct && q.attempts[k].status == Started
    && forall j :: k < j < |q.attempts| ==> !(q.attempts[j].mode == Direct && q.attempts[j].status == Started)
  }

  lemma {:induction false} LastStartedIsLast(q: Request, attempts: seq<Attempt>)
    requires attempts <= q.attempts
    requires forall j :: |attempts| <= j < |q.attempts| ==> !(q.attempts[j].mode == Direct && q.attempts[j].status == Started)
    ensures LastStarted(attempts).Some? ==> LastDirect(q, LastStarted(attempts).value)
  {
    if attempts == [] {
    } else {
      var n := |attempts| - 1;
      if !(attempts[n].mode == Direct && attempts[n].status == Started) {
        LastStartedIsLast(q, attempts[..n]);
      }
    }
  }

  /** The request row after the vendor has confirmed attempt k. */
  function ReceivedRow(q: Request, k: nat): Request
    requires k < |q.attempts|
  {
    q.(status := DirectPaid, directReference := Some(ByAttempt(k)), attempts := q.attempts[k := q.attempts[k].(status := Succeeded)],
       audits := q.audits + {TenantDirectPaid}, events := q.events + [TenantDirectPaid])
  }

  /** The vendor's confirmation that the tenant has paid: open for the vendor of the repair while the
      direct payment is under way. The tenant's last started attempt succeeds and pays the request;
      confirming again changes nothing. */
  lemma ConfirmDirectEffect(s: State, i: nat, vendor: nat, k: nat)
    requires StateOk(s) && HasRequest(s, i)
    ensures var r := s.repairs[i];
            var q := r.request.value;
            && (q.status == PendingApproval && DirectChosen(q) ==> exists j :: LastDirect(q, j))
            && (q.status != PendingApproval || !DirectChosen(q) ==>
                  ConfirmDirect(s, i, vendor) == if r.vendor == vendor && DirectChosen(q) && q.status == DirectPaid then Some(s) else None)
            && (q.status == PendingApproval && DirectChosen(q) && LastDirect(q, k) ==>
                  ConfirmDirect(s, i, vendor)
                  == if r.vendor == vendor && q.attempts[k].payload.TenantDirectPayload? && q.attempts[k].payload.tenant == r.tenant
                     then Some(s.(repairs := s.repairs[i := r.(request := Some(ReceivedRow(q, k)))])) else None)
  {
    hide StateOk, W.WorkflowOk, LedgerOk, P.OrdersOk;
    CreditFacts(s, i);
    var q := s.repairs[i].request.value;
    LastStartedIsLast(q, q.attempts);
    assert s.repairs[i := s.repairs[i]] == s.repairs;
    if DirectChosen(q) && q.status == PendingApproval {
      assert LastDirect(q, LastStarted(q.attempts).value);
      assert LastDirect(q, k) ==> k == LastStarted(q.attempts).value;
    }
  }

  // ---- Toss orders

  /** A new order takes the request's amount and its open key; a retry first cancels the order it
      replaces if that is still READY. */
  lemma NewOrderEffect(q: Request, i: nat, k: nat, creation: CreationPayload)
    requires P.RequestOk(q, i)
    ensures OrderPlaced(q, i, creation).Some? <==> Unpaid(q) && !DirectChosen(q) && !AnOrderIsOpen(q)
    ensures OrderPlaced(q, i, creation).Some? ==>
              OrderPlaced(q, i, creation).value == q.(orders := q.orders + [Order(Ready, q.amount, creation, None, Some(i), None, None)])
    ensures OrderRetried(q, i, k, creation).Some? <==>
            && Unpaid(q) && !DirectChosen(q) && k < |q.orders| && (q.orders[k].status == Ready || q.orders[k].status == Failed)
            && forall j :: 0 <= j < |q.orders| && j != k ==> q.orders[j].status !in {Ready, Confirming, ReconciliationRequired}
    ensures OrderRetried(q, i, k, creation).Some? ==>
              var replaced := q.orders[k].(status := if q.orders[k].status == Ready then OrderCancelled else Failed, openOrderKey := None);
              OrderRetried(q, i, k, creation).value
              == q.(orders := q.orders[k := replaced] + [Order(Ready, q.amount, creation, Some(k), Some(i), None, None)])
  {
    hide P.BooksAgree, P.AttemptsOk, P.AuditsOk;
    KeyIsHeldByOpen(q, i);
    OpenMeans(q);
    if k < |q.orders| && q.orders[k].status == Ready {
      var cleared := WithOrder(q, k, q.orders[k].(status := OrderCancelled, openOrderKey := None));
      assert forall j :: 0 <= j < |q.orders| && j != k ==> cleared.orders[j] == q.orders[j];
      assert OpenKeyHeld(cleared, i) <==> exists j :: 0 <= j < |q.orders| && j != k && OpenOrder(q.orders[j].status);
    }
    if k < |q.orders| && q.orders[k].status == Failed {
      assert P.OrderOk(q, i, q.orders[k]);
      assert q.orders[k := q.orders[k]] == q.orders;
    }
  }

  lemma KeyIsHeldByOpen(q: Request, i: nat)
    requires P.OrdersOk(q, i)
    ensures OpenKeyHeld(q, i) <==> HasOpenOrder(q)
    ensures forall k :: 0 <= k < |q.orders| ==> (q.orders[k].openOrderKey == Some(i) <==> OpenOrder(q.orders[k].status))
  {
    assert forall k :: 0 <= k < |q.orders| ==> P.OrderOk(q, i, q.orders[k]);
  }

  /** Exactly a READY order, for its stored amount and a free payment key, can be claimed; it is then
      confirming under that key. A caller that comes later with the same key and amount is told so. */
  lemma ClaimEffect(q: Request, i: nat, k: nat, paymentKey: string, amount: int, keyTaken: bool)
    requires P.RequestOk(q, i)
    ensures var claim := ClaimConfirmation(q, i, k, paymentKey, amount, keyTaken);
            && (claim.Claimed? <==> k < |q.orders| && q.orders[k].status == Ready && amount == q.amount && !keyTaken)
            && (claim.Claimed? ==>
                  claim.request == q.(orders := q.orders[k := q.orders[k].(status := Confirming, paymentKey := Some(paymentKey))]))
            && (claim.Replayed? <==>
                  && k < |q.orders| && q.orders[k].status in {Confirming, ReconciliationRequired, OrderApproved}
                  && amount == q.amount && q.orders[k].paymentKey == Some(paymentKey))
  {
    hide P.BooksAgree, P.AttemptsOk, P.AuditsOk;
    assert k < |q.orders| ==> P.OrderOk(q, i, q.orders[k]);
  }

  // ---- payouts

  /** A payout that goes through debits exactly its amount and adds one row that says so; asked for
      from outside, it waits unless the policy and the balance allow it at once. */
  lemma PayoutEffect(b: Books, manager: nat, registration: nat, amount: int, key: Key, active: bool)
    requires key !in b.payoutKeys
    ensures var next := CreatePayout(b, manager, registration, amount, key, active);
            && (next.Some? <==> 0 < amount <= 0x1f_ffff_ffff_ffff && active && Balance(b, manager) >= amount && PayoutKey(key) !in b.ledgerKeys)
            && (next.Some? ==>
                  && next.value.payouts == b.payouts + [Payout(manager, registration, amount, true, false, None)]
                  && Balance(next.value, manager) == Balance(b, manager) - amount
                  && next.value.ledger == b.ledger + [Entry(manager, ManualDebit, -amount, Balance(b, manager) - amount, PayoutReference(|b.payouts|), None)]
                  && next.value.payoutKeys == b.payoutKeys[key := |b.payouts|] && next.value.ledgerKeys == b.ledgerKeys + {PayoutKey(key)})
    ensures var next := RequestPayout(b, manager, registration, amount, key, active);
            var atOnce := PolicyAllows(b, manager, amount) && Balance(b, manager) >= amount;
            && (next.Some? <==> 0 < amount <= 0x1f_ffff_ffff_ffff && active && (atOnce ==> AutoPayoutKey(key) !in b.ledgerKeys))
            && (next.Some? ==>
                  && next.value.payouts == b.payouts + [Payout(manager, registration, amount, atOnce, true, None)]
                  && Balance(next.value, manager) == Balance(b, manager) - (if atOnce then amount else 0)
                  && next.value.ledger
                     == b.ledger + (if atOnce then [Entry(manager, AutoDebit, -amount, Balance(b, manager) - amount, PayoutReference(|b.payouts|), None)] else [])
                  && next.value.payoutKeys == b.payoutKeys[key := |b.payouts|]
                  && next.value.ledgerKeys == b.ledgerKeys + if atOnce then {AutoPayoutKey(key)} else {})
  {
    AccountOpened(b, manager);
    hide EnsureAccount, ShouldAutoDebit, PolicyAllows;
    PolicyDecides(b, manager, amount);
  }

  lemma AccountOpened(b: Books, manager: nat)
    ensures var b' := EnsureAccount(b, manager);
            && b' == b.(balances := b'.balances, policies := b'.policies)
            && Balance(b', manager) == Balance(b, manager)
            && forall amount :: ShouldAutoDebit(b', manager, amount) <==> ShouldAutoDebit(b, manager, amount)
  {
  }

  /** The manager's later settlement of a waiting payout debits it once; settled again, nothing
      happens. */
  lemma SettlePayoutEffect(b: Books, manager: nat, k: nat, key: Key)
    requires k < |b.payouts|
    ensures var payout := b.payouts[k];
            var next := SettlePayout(b, manager, k, key);
            && (next.Some? <==>
                  payout.manager == manager && (payout.debited || (Balance(b, manager) >= payout.amount && SettlePayoutKey(key) !in b.ledgerKeys)))
            && (next.Some? && payout.debited ==> next.value == b)
            && (next.Some? && !payout.debited ==>
                  && next.value.payouts == b.payouts[k := payout.(debited := true)]
                  && Balance(next.value, manager) == Balance(b, manager) - payout.amount
                  && next.value.ledger
                     == b.ledger + [Entry(manager, ManualDebit, -payout.amount, Balance(b, manager) - payout.amount, PayoutReference(k), None)]
                  && next.value.ledgerKeys == b.ledgerKeys + {SettlePayoutKey(key)})
  {
    AccountOpened(b, manager);
    hide EnsureAccount;
  }

  // ---- top-up orders

  /** A new top-up is READY for the asked amount; with a used key the stored order is returned only
      for the same manager, amount, vendor and return path. */
  lemma CreateTopupEffect(b: Books, manager: nat, amount: int, key: Key, registration: Option<nat>, returnPath: string, active: bool)
    ensures var next := CreateTopup(b, manager, amount, key, registration, returnPath, active);
            && (next.Some? <==>
                  && 0 < amount <= 0x1f_ffff_ffff_ffff && (registration.Some? ==> active)
                  && (key in b.topupKeys ==>
                        && b.topupKeys[key] < |b.topups|
                        && var order := b.topups[b.topupKeys[key]];
                           (order.manager, order.amount, order.registration, order.returnPath) == (manager, amount, registration, returnPath)))
            && (next.Some? ==>
                  next.value.topups == b.topups + if key in b.topupKeys then []
                                                  else [TopupOrder(manager, amount, TopupReady, registration, returnPath, None)])
            && (next.Some? ==>
                  && next.value.topupKeys == (if key in b.topupKeys then b.topupKeys else b.topupKeys[key := |b.topups|])
                  && (next.value.ledger, next.value.payouts) == (b.ledger, b.payouts))
  {
    AccountOpened(b, manager);
    hide EnsureAccount;
    assert b.topups + [] == b.topups;
  }

  // ---- assigning vendors

  predicate IsOpen(r: Repair) {
    r.status !in {Completed, Cancelled}
  }

  /** A manager's assignment opens a new repair unless that vendor already has the open one; another
      vendor's open repair is cancelled, and only while nothing has been submitted for it. */
  lemma AssignVendorEffect(s: State, manager: nat, ticket: nat, vendor: nat, eligible: bool, assignable: bool, k: nat)
    requires OneOpen(s.repairs)
    ensures var next := AssignVendor(s, manager, ticket, vendor, eligible, assignable);
            var allowed := ticket < |s.tickets| && s.tickets[ticket].manager == manager && eligible;
            && (!allowed ==> next == None)
            && (allowed ==>
                  var created := Repair(ticket, vendor, manager, s.tickets[ticket].tenant, false, Requested, None, None, None, [], [], None);
                  if k < |s.repairs| && s.repairs[k].ticket == ticket && IsOpen(s.repairs[k]) then
                    next == (if s.repairs[k].vendor == vendor then Some(s)
                             else if s.repairs[k].status == Requested
                             then Some(s.(repairs := s.repairs[k := s.repairs[k].(status := Cancelled)] + [created])) else None)
                  else
                    (forall j :: 0 <= j < |s.repairs| && s.repairs[j].ticket == ticket ==> !IsOpen(s.repairs[j])) ==>
                      next == if assignable then Some(s.(repairs := s.repairs + [created])) else None)
  {
  }

  /** A tenant's request opens a repair that the tenant bears, on a ticket with no open repair; its key
      names the repair it made. */
  lemma RequestVendorEffect(s: State, tenant: nat, ticket: nat, vendor: nat, key: Key, eligible: bool, requestable: bool)
    ensures var next := RequestVendor(s, tenant, ticket, vendor, key, eligible, requestable);
            var allowed := ticket < |s.tickets| && s.tickets[ticket].tenant == tenant && eligible;
            && (next.Some? <==>
                  && allowed
                  && if key in s.keys.connections then
                       && s.keys.connections[key] < |s.repairs|
                       && var r := s.repairs[s.keys.connections[key]]; (r.ticket, r.vendor, r.tenantInitiated) == (ticket, vendor, true)
                     else requestable && forall k :: 0 <= k < |s.repairs| && s.repairs[k].ticket == ticket ==> !IsOpen(s.repairs[k]))
            && (next.Some? ==>
                  next.value == if key in s.keys.connections then s
                                else s.(repairs := s.repairs + [Repair(ticket, vendor, s.tickets[ticket].manager, tenant, true, Requested,
                                                                       Some(TenantPays), None, None, [], [], None)],
                                        keys := s.keys.(connections := s.keys.connections[key := |s.repairs|])))
  {
  }
}
