/** The prepaid credit account of each manager: an append-only ledger with a running balance,
    top-up orders, payouts to Gara vendors and the automatic-payment policy. */
module Ledger {
  import opened Options
  import opened Types

  datatype EntryKind = OpeningBalance | Topup | AutoDebit | ManualDebit | Reversal

  datatype EntryReference =
    | DemoOpening
    | TopupReference(order: nat)
    | PayoutReference(payout: nat)
    | RequestReference(request: nat)

  datatype Entry = Entry(
    manager: nat,
    kind: EntryKind,
    amount: int,
    balanceAfter: int,
    reference: EntryReference,
    reverses: Option<nat>)

  /** The idempotency key of a ledger entry: a fixed prefix and what follows it. */
  datatype LedgerKey =
    | OpeningKey(manager: nat)
    | TopupKey(order: nat)
    | TopupPayoutEntryKey(order: nat)
    | PayoutKey(key: Key)
    | AutoPayoutKey(key: Key)
    | SettlePayoutKey(key: Key)
    | PaymentKey(key: Key)
    | ReversalKey(key: Key)

  datatype TopupStatus = TopupReady | TopupConfirming | TopupUncertain | TopupApproved | TopupFailed | TopupCancelled

  /** registration is the Gara vendor registration that the top-up pays out to. */
  datatype TopupOrder = TopupOrder(
    manager: nat,
    amount: int,
    status: TopupStatus,
    registration: Option<nat>,
    returnPath: string,
    paymentKey: Option<string>)

  datatype Payout = Payout(manager: nat, registration: nat, amount: int, debited: bool, public: bool, topup: Option<nat>)

  datatype Policy = AlwaysRequireApproval | AutoDebitUnderLimit(limit: int)

  datatype Books = Books(
    balances: map<nat, int>,
    policies: map<nat, Policy>,
    ledger: seq<Entry>,
    ledgerKeys: set<LedgerKey>,
    topups: seq<TopupOrder>,
    topupKeys: map<Key, nat>,
    payouts: seq<Payout>,
    payoutKeys: map<Key, nat>)

  const OPENING_BALANCE: int := 100_000

  predicate PositiveSafeMoney(amount: int) {
    0 < amount <= MAX_SAFE_CREDIT_BALANCE
  }

  function Balance(b: Books, manager: nat): int {
    if manager in b.balances then b.balances[manager] else 0
  }

  function EnsureAccount(b: Books, manager: nat): Books {
    b.(balances := if manager in b.balances then b.balances else b.balances[manager := 0],
       policies := if manager in b.policies then b.policies else b.policies[manager := AlwaysRequireApproval])
  }

  predicate ShouldAutoDebit(b: Books, manager: nat, amount: int) {
    manager in b.policies && b.policies[manager].AutoDebitUnderLimit? && amount <= b.policies[manager].limit
  }

  /** Moves the balance and appends the entry that records it. */
  function Post(b: Books, manager: nat, kind: EntryKind, amount: int, reference: EntryReference,
                reverses: Option<nat>, key: LedgerKey): Books {
    var after := Balance(b, manager) + amount;
    b.(balances := b.balances[manager := after],
       ledger := b.ledger + [Entry(manager, kind, amount, after, reference, reverses)],
       ledgerKeys := b.ledgerKeys + {key})
  }

  predicate CanDebit(b: Books, manager: nat, amount: int) {
    Balance(b, manager) >= amount
  }

  predicate CanCredit(b: Books, manager: nat, amount: int) {
    Balance(b, manager) <= MAX_SAFE_CREDIT_BALANCE - amount
  }

  // ---- top-ups

  /** active says that the Gara registration, when there is one, may be paid. */
  function CreateTopup(b: Books, manager: nat, amount: int, key: Key, registration: Option<nat>, returnPath: string, active: bool): Option<Books> {
    if !PositiveSafeMoney(amount) || (registration.Some? && !active) then None
    else
      var b := EnsureAccount(b, manager);
      if key in b.topupKeys then
        var k := b.topupKeys[key];
        if k < |b.topups| && b.topups[k].manager == manager && b.topups[k].amount == amount
           && b.topups[k].registration == registration && b.topups[k].returnPath == returnPath
        then Some(b) else None
      else
        Some(b.(topups := b.topups + [TopupOrder(manager, amount, TopupReady, registration, returnPath, None)],
                topupKeys := b.topupKeys[key := |b.topups|]))
  }

  function WithTopup(b: Books, k: nat, order: TopupOrder): Books
    requires k < |b.topups|
  {
    b.(topups := b.topups[k := order])
  }

  predicate Owns(b: Books, manager: nat, k: nat) {
    k < |b.topups| && b.topups[k].manager == manager
  }

  predicate TopupInFlight(status: TopupStatus) {
    status == TopupConfirming || status == TopupUncertain
  }

  predicate TopupPaymentKeyTaken(b: Books, paymentKey: string) {
    exists j :: 0 <= j < |b.topups| && b.topups[j].paymentKey == Some(paymentKey)
  }

  /** True in the second component when this caller must ask the provider. */
  function ClaimTopup(b: Books, manager: nat, k: nat, paymentKey: string, amount: int): Option<(Books, bool)> {
    if !Owns(b, manager, k) || b.topups[k].amount != amount then None
    else
      var order := b.topups[k];
      if order.status == TopupReady then
        if TopupPaymentKeyTaken(b, paymentKey) then None
        else Some((WithTopup(b, k, order.(status := TopupConfirming, paymentKey := Some(paymentKey))), true))
      else if order.paymentKey.Some? && order.paymentKey != Some(paymentKey) then None
      else if order.status == TopupApproved || TopupInFlight(order.status) then Some((b, false))
      else None
  }

  /** A Gara top-up is credited and paid out in the same transaction. */
  function FinalizeTopup(b: Books, manager: nat, k: nat, paymentKey: string, amount: int, active: bool): Option<Books> {
    if !Owns(b, manager, k) || b.topups[k].paymentKey != Some(paymentKey) || b.topups[k].amount != amount then None
    else
      var order := b.topups[k];
      if order.status == TopupApproved then if TopupKey(k) in b.ledgerKeys then Some(b) else None
      else if !TopupInFlight(order.status) || !CanCredit(b, manager, amount) || TopupKey(k) in b.ledgerKeys then None
      else
        var credited := WithTopup(Post(b, manager, Topup, amount, TopupReference(k), None, TopupKey(k)),
                                  k, order.(status := TopupApproved));
        if order.registration.None? then Some(credited)
        else if !active || !CanDebit(credited, manager, amount)
                || TopupPayout(k) in credited.payoutKeys || TopupPayoutEntryKey(k) in credited.ledgerKeys then None
        else
          Some(PaidOut(credited, Payout(manager, order.registration.value, amount, true, false, Some(k)),
                       ManualDebit, TopupPayoutEntryKey(k), TopupPayout(k)))
  }

  /** Debits the account for a new payout row. */
  function PaidOut(b: Books, payout: Payout, kind: EntryKind, entryKey: LedgerKey, key: Key): Books {
    var posted := Post(b, payout.manager, kind, -payout.amount, PayoutReference(|b.payouts|), None, entryKey);
    posted.(payouts := b.payouts + [payout], payoutKeys := b.payoutKeys[key := |b.payouts|])
  }

  function RejectTopup(b: Books, manager: nat, k: nat): Option<Books> {
    if !Owns(b, manager, k) then None
    else if b.topups[k].status == TopupFailed then Some(b)
    else if !TopupInFlight(b.topups[k].status) then None
    else Some(WithTopup(b, k, b.topups[k].(status := TopupFailed)))
  }

  function MarkTopupUncertain(b: Books, manager: nat, k: nat): Option<Books> {
    if !Owns(b, manager, k) then None
    else if b.topups[k].status == TopupUncertain || b.topups[k].status == TopupApproved then Some(b)
    else if b.topups[k].status != TopupConfirming then None
    else Some(WithTopup(b, k, b.topups[k].(status := TopupUncertain)))
  }

  function CancelTopup(b: Books, manager: nat, k: nat): Option<Books> {
    if !Owns(b, manager, k) then None
    else if b.topups[k].status == TopupReady || b.topups[k].status == TopupCancelled
    then Some(WithTopup(b, k, b.topups[k].(status := TopupCancelled)))
    else None
  }

  function SavePolicy(b: Books, manager: nat, policy: Policy): Option<Books> {
    if policy.AutoDebitUnderLimit? && !PositiveSafeMoney(policy.limit) then None
    else
      var b := EnsureAccount(b, manager);
      Some(b.(policies := b.policies[manager := policy]))
  }

  // ---- Gara payouts

  /** The manager pays a registered vendor at once. */
  function CreatePayout(b: Books, manager: nat, registration: nat, amount: int, key: Key, active: bool): Option<Books> {
    if !PositiveSafeMoney(amount) then None
    else if key in b.payoutKeys then
      var k := b.payoutKeys[key];
      if k < |b.payouts| && b.payouts[k] == Payout(manager, registration, amount, true, false, None) then Some(b) else None
    else if !active then None
    else
      var b := EnsureAccount(b, manager);
      if !CanDebit(b, manager, amount) || PayoutKey(key) in b.ledgerKeys then None
      else Some(PaidOut(b, Payout(manager, registration, amount, true, false, None), ManualDebit, PayoutKey(key), key))
  }

  /** The vendor asks; the policy may debit at once, otherwise the payout waits. */
  function RequestPayout(b: Books, manager: nat, registration: nat, amount: int, key: Key, active: bool): Option<Books> {
    if !PositiveSafeMoney(amount) then None
    else if key in b.payoutKeys then
      var k := b.payoutKeys[key];
      if k < |b.payouts| && b.payouts[k].public && b.payouts[k].registration == registration && b.payouts[k].amount == amount
      then Some(b) else None
    else if !active then None
    else
      var b := EnsureAccount(b, manager);
      if ShouldAutoDebit(b, manager, amount) && CanDebit(b, manager, amount) then
        if AutoPayoutKey(key) in b.ledgerKeys then None
        else Some(PaidOut(b, Payout(manager, registration, amount, true, true, None), AutoDebit, AutoPayoutKey(key), key))
      else
        Some(b.(payouts := b.payouts + [Payout(manager, registration, amount, false, true, None)],
                payoutKeys := b.payoutKeys[key := |b.payouts|]))
  }

  function SettlePayout(b: Books, manager: nat, k: nat, key: Key): Option<Books> {
    if k >= |b.payouts| || b.payouts[k].manager != manager then None
    else if b.payouts[k].debited then Some(b)
    else
      var b := EnsureAccount(b, manager);
      var payout := b.payouts[k];
      if !CanDebit(b, manager, payout.amount) || SettlePayoutKey(key) in b.ledgerKeys then None
      else
        var posted := Post(b, manager, ManualDebit, -payout.amount, PayoutReference(k), None, SettlePayoutKey(key));
        Some(posted.(payouts := b.payouts[k := payout.(debited := true)]))
  }

  // ---- the demo opening balance

  /** The sum of the signed entries of one account. */
  function Sum(ledger: seq<Entry>, manager: nat): int {
    if ledger == [] then 0
    else
      var last := ledger[|ledger| - 1];
      Sum(ledger[..|ledger| - 1], manager) + if last.manager == manager then last.amount else 0
  }

  predicate HasOpening(b: Books, manager: nat) {
    exists k :: 0 <= k < |b.ledger| && b.ledger[k].manager == manager && b.ledger[k].kind == OpeningBalance
                && b.ledger[k].amount == OPENING_BALANCE && b.ledger[k].balanceAfter == OPENING_BALANCE
  }

  function SeedDemo(b: Books, manager: nat): Option<Books> {
    if manager !in b.balances then
      Some(Post(b.(balances := b.balances[manager := 0]), manager, OpeningBalance, OPENING_BALANCE, DemoOpening, None, OpeningKey(manager)))
    else if Sum(b.ledger, manager) != b.balances[manager] || !HasOpening(b, manager) then None
    else Some(b)
  }
}
