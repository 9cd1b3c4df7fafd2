/** Conservation: the balance, the ledger and the rows that moved money always agree. */
module LedgerProofs {
  import opened Options
  import opened Types
  import opened Ledger

  // ---- what the rows add up to

  /** Entries are grouped by the kind of row that caused them. */
  datatype Group = Openings | Topups | Payouts | Requests

  function GroupOf(reference: EntryReference): Group {
    match reference
    case DemoOpening => Openings
    case TopupReference(_) => Topups
    case PayoutReference(_) => Payouts
    case RequestReference(_) => Requests
  }

  function Net(ledger: seq<Entry>, manager: nat, group: Group): int {
    if ledger == [] then 0
    else
      var last := ledger[|ledger| - 1];
      Net(ledger[..|ledger| - 1], manager, group)
      + if last.manager == manager && GroupOf(last.reference) == group then last.amount else 0
  }

  function TopupTotal(topups: seq<TopupOrder>, manager: nat): int {
    if topups == [] then 0
    else TopupTotal(topups[..|topups| - 1], manager) + TopupPart(topups[|topups| - 1], manager)
  }

  function TopupPart(order: TopupOrder, manager: nat): int {
    if order.manager == manager && order.status == TopupApproved then order.amount else 0
  }

  function PayoutTotal(payouts: seq<Payout>, manager: nat): int {
    if payouts == [] then 0
    else PayoutTotal(payouts[..|payouts| - 1], manager) + PayoutPart(payouts[|payouts| - 1], manager)
  }

  function PayoutPart(payout: Payout, manager: nat): int {
    if payout.manager == manager && payout.debited then payout.amount else 0
  }

  /** Entries of one kind under one reference. */
  function Count(ledger: seq<Entry>, kind: EntryKind, reference: EntryReference): nat {
    if ledger == [] then 0
    else
      var last := ledger[|ledger| - 1];
      Count(ledger[..|ledger| - 1], kind, reference) + if last.kind == kind && last.reference == reference then 1 else 0
  }

  lemma {:induction false} GroupsAddUp(ledger: seq<Entry>, manager: nat)
    ensures Sum(ledger, manager)
            == Net(ledger, manager, Openings) + Net(ledger, manager, Topups)
               + Net(ledger, manager, Payouts) + Net(ledger, manager, Requests)
  {
    if ledger == [] {
    } else {
      GroupsAddUp(ledger[..|ledger| - 1], manager);
    }
  }

  lemma {:induction false} TopupTotalReplaced(topups: seq<TopupOrder>, k: nat, row: TopupOrder, manager: nat)
    requires k < |topups|
    ensures TopupTotal(topups[k := row], manager)
            == TopupTotal(topups, manager) - TopupPart(topups[k], manager) + TopupPart(row, manager)
  {
    var n := |topups| - 1;
    if k < n {
      assert topups[k := row][..n] == topups[..n][k := row];
      TopupTotalReplaced(topups[..n], k, row, manager);
    } else {
      assert topups[k := row][..n] == topups[..n];
    }
  }

  lemma {:induction false} PayoutTotalReplaced(payouts: seq<Payout>, k: nat, row: Payout, manager: nat)
    requires k < |payouts|
    ensures PayoutTotal(payouts[k := row], manager)
            == PayoutTotal(payouts, manager) - PayoutPart(payouts[k], manager) + PayoutPart(row, manager)
  {
    var n := |payouts| - 1;
    if k < n {
      assert payouts[k := row][..n] == payouts[..n][k := row];
      PayoutTotalReplaced(payouts[..n], k, row, manager);
    } else {
      assert payouts[k := row][..n] == payouts[..n];
    }
  }

  // ---- the invariant

  predicate RunningBalances(ledger: seq<Entry>) {
    forall k :: 0 <= k < |ledger| ==> ledger[k].balanceAfter == Sum(ledger[..k + 1], ledger[k].manager)
  }

  /** Every balance is the sum of its account's entries and stays in range. */
  ghost predicate BalancesOk(b: Books) {
    && RunningBalances(b.ledger)
    && forall m: nat :: Balance(b, m) == Sum(b.ledger, m) && 0 <= Balance(b, m) <= MAX_SAFE_CREDIT_BALANCE
  }

  /** Top-ups and payouts account for exactly their own entries. */
  ghost predicate RowsOk(b: Books) {
    && (forall m: nat :: Net(b.ledger, m, Topups) == TopupTotal(b.topups, m))
    && (forall m: nat :: Net(b.ledger, m, Payouts) == -PayoutTotal(b.payouts, m))
    && (forall m: nat :: Net(b.ledger, m, Openings) == if OpeningKey(m) in b.ledgerKeys then OPENING_BALANCE else 0)
    && (forall m: nat :: OpeningKey(m) in b.ledgerKeys ==> m in b.balances)
    && (forall k :: 0 <= k < |b.topups| ==> PositiveSafeMoney(b.topups[k].amount))
    && (forall k :: 0 <= k < |b.payouts| ==> PositiveSafeMoney(b.payouts[k].amount))
  }

  /** An approved top-up has exactly one entry, and no other top-up has any. */
  ghost predicate TopupEntriesOk(b: Books) {
    && (forall k: nat :: TopupKey(k) in b.ledgerKeys <==> k < |b.topups| && b.topups[k].status == TopupApproved)
    && (forall k: nat :: Count(b.ledger, Topup, TopupReference(k)) == if TopupKey(k) in b.ledgerKeys then 1 else 0)
    && (forall k: nat :: TopupPayoutEntryKey(k) in b.ledgerKeys ==> TopupKey(k) in b.ledgerKeys)
    && (forall k :: 0 <= k < |b.topups| ==> (b.topups[k].status == TopupReady ==> b.topups[k].paymentKey.None?))
    && (forall k :: 0 <= k < |b.topups| ==>
          (TopupInFlight(b.topups[k].status) || b.topups[k].status == TopupApproved ==> b.topups[k].paymentKey.Some?))
  }

  /** An entry that names a top-up carries its amount and belongs to its manager. */
  predicate EntryFits(entry: Entry, topups: seq<TopupOrder>) {
    entry.reference.TopupReference? ==>
      && entry.reference.order < |topups|
      && (entry.manager, entry.amount) == (topups[entry.reference.order].manager, topups[entry.reference.order].amount)
  }

  predicate EntriesFit(ledger: seq<Entry>, topups: seq<TopupOrder>) {
    forall e :: 0 <= e < |ledger| ==> EntryFits(ledger[e], topups)
  }

  ghost predicate BooksOk(b: Books) {
    BalancesOk(b) && RowsOk(b) && TopupEntriesOk(b) && EntriesFit(b.ledger, b.topups)
  }

  /** The part of the ledger that payment requests own is left alone. */
  ghost predicate SameRequestEntries(b: Books, b': Books) {
    && b.ledger <= b'.ledger
    && (forall m: nat :: Net(b'.ledger, m, Requests) == Net(b.ledger, m, Requests))
    && (forall kind, i: nat :: Count(b'.ledger, kind, RequestReference(i)) == Count(b.ledger, kind, RequestReference(i)))
    && (forall key :: PaymentKey(key) in b'.ledgerKeys <==> PaymentKey(key) in b.ledgerKeys)
    && (forall key :: ReversalKey(key) in b'.ledgerKeys <==> ReversalKey(key) in b.ledgerKeys)
  }

  /** A top-up that is over, by approval, failure or cancellation, never changes again. */
  predicate TopupContinues(o: TopupOrder, o': TopupOrder) {
    && (o'.manager, o'.amount, o'.registration, o'.returnPath) == (o.manager, o.amount, o.registration, o.returnPath)
    && (o.status == TopupApproved || o.status == TopupFailed || o.status == TopupCancelled ==> o' == o)
    && (o.status != TopupReady ==> o'.status != TopupReady && o'.paymentKey == o.paymentKey)
  }

  predicate TopupsContinue(b: Books, b': Books) {
    |b.topups| <= |b'.topups| && forall k :: 0 <= k < |b.topups| ==> TopupContinues(b.topups[k], b'.topups[k])
  }

  ghost predicate Keeps(b: Books, next: Option<Books>) {
    next.Some? ==> BooksOk(next.value) && SameRequestEntries(b, next.value) && TopupsContinue(b, next.value)
  }

  // ---- posting

  lemma {:induction false} SumAppended(ledger: seq<Entry>, entry: Entry, m: nat)
    ensures Sum(ledger + [entry], m) == Sum(ledger, m) + if entry.manager == m then entry.amount else 0
  {
    assert (ledger + [entry])[..|ledger|] == ledger;
  }

  lemma {:induction false} NetAppended(ledger: seq<Entry>, entry: Entry, m: nat, group: Group)
    ensures Net(ledger + [entry], m, group)
            == Net(ledger, m, group) + if entry.manager == m && GroupOf(entry.reference) == group then entry.amount else 0
  {
    assert (ledger + [entry])[..|ledger|] == ledger;
  }

  lemma {:induction false} CountAppended(ledger: seq<Entry>, entry: Entry, kind: EntryKind, reference: EntryReference)
    ensures Count(ledger + [entry], kind, reference)
            == Count(ledger, kind, reference) + if entry.kind == kind && entry.reference == reference then 1 else 0
  {
    assert (ledger + [entry])[..|ledger|] == ledger;
  }

  /** A guarded posting keeps every balance equal to its ledger and in range. */
  lemma {:induction false} PostKeepsBalances(b: Books, manager: nat, kind: EntryKind, amount: int, reference: EntryReference,
                          reverses: Option<nat>, key: LedgerKey)
    requires BalancesOk(b)
    requires 0 <= Balance(b, manager) + amount <= MAX_SAFE_CREDIT_BALANCE
    ensures BalancesOk(Post(b, manager, kind, amount, reference, reverses, key))
  {
    var b' := Post(b, manager, kind, amount, reference, reverses, key);
    var entry := b'.ledger[|b.ledger|];
    forall m: nat ensures Balance(b', m) == Sum(b'.ledger, m) && 0 <= Balance(b', m) <= MAX_SAFE_CREDIT_BALANCE {
      SumAppended(b.ledger, entry, m);
      assert Balance(b, m) == Sum(b.ledger, m);
    }
    forall k | 0 <= k < |b'.ledger| ensures b'.ledger[k].balanceAfter == Sum(b'.ledger[..k + 1], b'.ledger[k].manager) {
      if k < |b.ledger| {
        assert b'.ledger[..k + 1] == b.ledger[..k + 1];
      } else {
        assert b'.ledger[..k + 1] == b'.ledger;
      }
    }
  }

  /** What one posting adds to every sum and count. */
  lemma {:induction false} PostEffect(b: Books, manager: nat, kind: EntryKind, amount: int, reference: EntryReference,
                   reverses: Option<nat>, key: LedgerKey)
    ensures var b' := Post(b, manager, kind, amount, reference, reverses, key);
            && (forall m: nat, g :: Net(b'.ledger, m, g)
                                    == Net(b.ledger, m, g) + if m == manager && g == GroupOf(reference) then amount else 0)
            && (forall kd, ref :: Count(b'.ledger, kd, ref)
                                  == Count(b.ledger, kd, ref) + if kd == kind && ref == reference then 1 else 0)
  {
    var b' := Post(b, manager, kind, amount, reference, reverses, key);
    var entry := b'.ledger[|b.ledger|];
    forall m: nat, g ensures Net(b'.ledger, m, g) == Net(b.ledger, m, g) + if m == manager && g == GroupOf(reference) then amount else 0 {
      NetAppended(b.ledger, entry, m, g);
    }
    forall kd, ref ensures Count(b'.ledger, kd, ref) == Count(b.ledger, kd, ref) + if kd == kind && ref == reference then 1 else 0 {
      CountAppended(b.ledger, entry, kd, ref);
    }
  }

  lemma BalanceInRange(b: Books, manager: nat)
    requires BalancesOk(b)
    ensures 0 <= Balance(b, manager) <= MAX_SAFE_CREDIT_BALANCE
  {
  }

  lemma BalancesFramed(b: Books, b': Books)
    requires BalancesOk(b) && b'.ledger == b.ledger
    requires forall m: nat :: Balance(b', m) == Balance(b, m)
    ensures BalancesOk(b')
  {
  }

  lemma {:induction false} EnsureAccountKeeps(b: Books, manager: nat)
    requires BooksOk(b)
    ensures Keeps(b, Some(EnsureAccount(b, manager)))
  {
    var b' := EnsureAccount(b, manager);
    assert forall m: nat :: Balance(b', m) == Balance(b, m);
  }

  // ---- top-ups

  /** Replacing a top-up row that is approved neither before nor after. */
  lemma {:induction false} TopupRowKeeps(b: Books, k: nat, row: TopupOrder)
    requires BooksOk(b) && k < |b.topups|
    requires TopupContinues(b.topups[k], row)
    requires b.topups[k].status != TopupApproved && row.status != TopupApproved
    requires row.status == TopupReady ==> row.paymentKey.None?
    requires TopupInFlight(row.status) ==> row.paymentKey.Some?
    ensures Keeps(b, Some(WithTopup(b, k, row)))
  {
    var b' := WithTopup(b, k, row);
    forall m: nat ensures TopupTotal(b'.topups, m) == TopupTotal(b.topups, m) {
      TopupTotalReplaced(b.topups, k, row, m);
    }
    assert forall m: nat :: Balance(b', m) == Balance(b, m);
  }

  lemma {:induction false} TopupAppended(b: Books, order: TopupOrder, key: Key)
    requires BooksOk(b) && order.status == TopupReady && order.paymentKey.None? && PositiveSafeMoney(order.amount)
    ensures Keeps(b, Some(b.(topups := b.topups + [order], topupKeys := b.topupKeys[key := |b.topups|])))
  {
    hide BalancesOk, Net, Count;
    var b' := b.(topups := b.topups + [order], topupKeys := b.topupKeys[key := |b.topups|]);
    BalancesFramed(b, b');
    assert b'.topups[..|b.topups|] == b.topups;
  }

  lemma {:induction false} CreateTopupKeeps(b: Books, manager: nat, amount: int, key: Key, registration: Option<nat>, returnPath: string, active: bool)
    requires BooksOk(b)
    ensures Keeps(b, CreateTopup(b, manager, amount, key, registration, returnPath, active))
  {
    hide BooksOk, Net, Count;
    EnsureAccountKeeps(b, manager);
    if PositiveSafeMoney(amount) {
      TopupAppended(EnsureAccount(b, manager), TopupOrder(manager, amount, TopupReady, registration, returnPath, None), key);
    }
  }

  lemma {:induction false} ClaimTopupKeeps(b: Books, manager: nat, k: nat, paymentKey: string, amount: int)
    requires BooksOk(b)
    ensures var c := ClaimTopup(b, manager, k, paymentKey, amount);
            c.Some? ==> Keeps(b, Some(c.value.0))
  {
    if Owns(b, manager, k) && b.topups[k].status == TopupReady {
      TopupRowKeeps(b, k, b.topups[k].(status := TopupConfirming, paymentKey := Some(paymentKey)));
    }
  }

  /** The credit half of finalization. */
  lemma {:induction false} TopupCreditKeeps(b: Books, manager: nat, k: nat, amount: int)
    requires BooksOk(b) && Owns(b, manager, k) && b.topups[k].amount == amount
    requires TopupInFlight(b.topups[k].status) && CanCredit(b, manager, amount) && TopupKey(k) !in b.ledgerKeys
    ensures Keeps(b, Some(WithTopup(Post(b, manager, Topup, amount, TopupReference(k), None, TopupKey(k)),
                                    k, b.topups[k].(status := TopupApproved))))
  {
    hide BalancesOk;
    var posted := Post(b, manager, Topup, amount, TopupReference(k), None, TopupKey(k));
    var row := b.topups[k].(status := TopupApproved);
    var b' := WithTopup(posted, k, row);
    BalanceInRange(b, manager);
    PostKeepsBalances(b, manager, Topup, amount, TopupReference(k), None, TopupKey(k));
    BalancesFramed(posted, b');
    PostEffect(b, manager, Topup, amount, TopupReference(k), None, TopupKey(k));
    forall m: nat ensures Net(b'.ledger, m, Topups) == TopupTotal(b'.topups, m) {
      TopupTotalReplaced(b.topups, k, row, m);
    }
  }

  /** The payout half of a Gara top-up comes after its credit. */
  predicate PayoutEntryKey(b: Books, key: LedgerKey) {
    (key.TopupPayoutEntryKey? && TopupKey(key.order) in b.ledgerKeys) || key.PayoutKey? || key.AutoPayoutKey? || key.SettlePayoutKey?
  }

  /** A debit for a payout touches no opening, top-up or request entry. */
  lemma {:induction false} PayoutDebitKeeps(b: Books, manager: nat, kind: EntryKind, amount: int, payout: nat, key: LedgerKey)
    requires BooksOk(b) && PayoutEntryKey(b, key)
    ensures var b' := Post(b, manager, kind, -amount, PayoutReference(payout), None, key);
            && TopupEntriesOk(b') && EntriesFit(b'.ledger, b'.topups) && SameRequestEntries(b, b')
  {
    PostEffect(b, manager, kind, -amount, PayoutReference(payout), None, key);
  }

  /** Payout rows that grew by what the ledger was debited. */
  lemma {:induction false} PayoutRowsOk(b: Books, manager: nat, kind: EntryKind, amount: int, payout: nat, key: LedgerKey,
                                            payouts: seq<Payout>, keys: map<Key, nat>)
    requires RowsOk(b) && PayoutEntryKey(b, key)
    requires forall k :: 0 <= k < |payouts| ==> PositiveSafeMoney(payouts[k].amount)
    requires forall m: nat :: PayoutTotal(payouts, m) == PayoutTotal(b.payouts, m) + if m == manager then amount else 0
    ensures RowsOk(Post(b, manager, kind, -amount, PayoutReference(payout), None, key).(payouts := payouts, payoutKeys := keys))
  {
    PostEffect(b, manager, kind, -amount, PayoutReference(payout), None, key);
  }

  /** The invariant does not look at payout keys. */
  lemma {:induction false} PayoutAssembled(b: Books, posted: Books, b': Books)
    requires BalancesOk(posted) && TopupEntriesOk(posted) && EntriesFit(posted.ledger, posted.topups)
    requires SameRequestEntries(b, posted) && RowsOk(b')
    requires b' == posted.(payouts := b'.payouts, payoutKeys := b'.payoutKeys)
    ensures BooksOk(b') && SameRequestEntries(b, b')
  {
    hide RowsOk;
    assert forall m: nat :: Balance(b', m) == Balance(posted, m);
  }

  lemma {:induction false} PayoutRowAppended(b: Books, payout: Payout)
    requires RowsOk(b) && payout.debited && PositiveSafeMoney(payout.amount)
    ensures var payouts := b.payouts + [payout];
            && (forall k :: 0 <= k < |payouts| ==> PositiveSafeMoney(payouts[k].amount))
            && (forall m: nat :: PayoutTotal(payouts, m)
                                 == PayoutTotal(b.payouts, m) + if m == payout.manager then payout.amount else 0)
  {
    assert (b.payouts + [payout])[..|b.payouts|] == b.payouts;
  }

  lemma {:induction false} PaidOutKeeps(b: Books, payout: Payout, kind: EntryKind, entryKey: LedgerKey, key: Key)
    requires BooksOk(b) && payout.debited && PositiveSafeMoney(payout.amount) && CanDebit(b, payout.manager, payout.amount)
    requires PayoutEntryKey(b, entryKey)
    ensures Keeps(b, Some(PaidOut(b, payout, kind, entryKey, key)))
  {
    hide BalancesOk, TopupEntriesOk, SameRequestEntries, RowsOk, PayoutTotal;
    var n := |b.payouts|;
    BalanceInRange(b, payout.manager);
    PayoutRowAppended(b, payout);
    PostKeepsBalances(b, payout.manager, kind, -payout.amount, PayoutReference(n), None, entryKey);
    PayoutDebitKeeps(b, payout.manager, kind, payout.amount, n, entryKey);
    PayoutRowsOk(b, payout.manager, kind, payout.amount, n, entryKey, b.payouts + [payout], b.payoutKeys[key := n]);
    var posted := Post(b, payout.manager, kind, -payout.amount, PayoutReference(n), None, entryKey);
    PayoutAssembled(b, posted, PaidOut(b, payout, kind, entryKey, key));
  }

  /** A Gara top-up cannot fail its own debit: what was just credited covers it. */
  lemma {:induction false} GaraTopupCoversItsDebit(b: Books, manager: nat, k: nat, amount: int)
    requires BooksOk(b)
    ensures CanDebit(Post(b, manager, Topup, amount, TopupReference(k), None, TopupKey(k)), manager, amount)
  {
    assert Balance(b, manager) >= 0;
  }

  lemma {:induction false} FinalizeTopupKeeps(b: Books, manager: nat, k: nat, paymentKey: string, amount: int, active: bool)
    requires BooksOk(b)
    ensures Keeps(b, FinalizeTopup(b, manager, k, paymentKey, amount, active))
  {
    var next := FinalizeTopup(b, manager, k, paymentKey, amount, active);
    if next.Some? && b.topups[k].status != TopupApproved {
      var order := b.topups[k];
      TopupCreditKeeps(b, manager, k, amount);
      if order.registration.Some? {
        var credited := WithTopup(Post(b, manager, Topup, amount, TopupReference(k), None, TopupKey(k)), k, order.(status := TopupApproved));
        PaidOutKeeps(credited, Payout(manager, order.registration.value, amount, true, false, Some(k)), ManualDebit,
                     TopupPayoutEntryKey(k), TopupPayout(k));
      }
    }
  }

  /** An ordinary top-up adds its amount; a Gara top-up leaves every balance as it was and adds
      two opposite entries. */
  lemma {:induction false} FinalizeTopupEffect(b: Books, manager: nat, k: nat, paymentKey: string, amount: int, active: bool)
    requires BooksOk(b) && FinalizeTopup(b, manager, k, paymentKey, amount, active).Some? && b.topups[k].status != TopupApproved
    ensures var b' := FinalizeTopup(b, manager, k, paymentKey, amount, active).value;
            && b'.topups[k].status == TopupApproved
            && (b.topups[k].registration.None? ==>
                  Balance(b', manager) == Balance(b, manager) + amount && |b'.ledger| == |b.ledger| + 1)
            && (b.topups[k].registration.Some? ==>
                  && (forall m: nat :: Balance(b', m) == Balance(b, m))
                  && |b'.ledger| == |b.ledger| + 2
                  && b'.ledger[|b.ledger|].amount == amount && b'.ledger[|b.ledger| + 1].amount == -amount)
  {
  }

  lemma {:induction false} RejectTopupKeeps(b: Books, manager: nat, k: nat)
    requires BooksOk(b)
    ensures Keeps(b, RejectTopup(b, manager, k))
  {
    if Owns(b, manager, k) && TopupInFlight(b.topups[k].status) {
      TopupRowKeeps(b, k, b.topups[k].(status := TopupFailed));
    }
  }

  lemma {:induction false} MarkTopupUncertainKeeps(b: Books, manager: nat, k: nat)
    requires BooksOk(b)
    ensures Keeps(b, MarkTopupUncertain(b, manager, k))
  {
    if Owns(b, manager, k) && b.topups[k].status == TopupConfirming {
      TopupRowKeeps(b, k, b.topups[k].(status := TopupUncertain));
    }
  }

  lemma {:induction false} CancelTopupKeeps(b: Books, manager: nat, k: nat)
    requires BooksOk(b)
    ensures Keeps(b, CancelTopup(b, manager, k))
  {
    if CancelTopup(b, manager, k).Some? {
      TopupRowKeeps(b, k, b.topups[k].(status := TopupCancelled));
    }
  }

  lemma {:induction false} SavePolicyKeeps(b: Books, manager: nat, policy: Policy)
    requires BooksOk(b)
    ensures Keeps(b, SavePolicy(b, manager, policy))
  {
    hide BalancesOk;
    EnsureAccountKeeps(b, manager);
    if SavePolicy(b, manager, policy).Some? {
      BalancesFramed(b, SavePolicy(b, manager, policy).value);
    }
  }

  // ---- payouts

  lemma {:induction false} CreatePayoutKeeps(b: Books, manager: nat, registration: nat, amount: int, key: Key, active: bool)
    requires BooksOk(b)
    ensures Keeps(b, CreatePayout(b, manager, registration, amount, key, active))
  {
    if CreatePayout(b, manager, registration, amount, key, active).Some? && key !in b.payoutKeys {
      EnsureAccountKeeps(b, manager);
      PaidOutKeeps(EnsureAccount(b, manager), Payout(manager, registration, amount, true, false, None), ManualDebit, PayoutKey(key), key);
    }
  }

  lemma {:induction false} RequestPayoutKeeps(b: Books, manager: nat, registration: nat, amount: int, key: Key, active: bool)
    requires BooksOk(b)
    ensures Keeps(b, RequestPayout(b, manager, registration, amount, key, active))
  {
    hide BalancesOk;
    var next := RequestPayout(b, manager, registration, amount, key, active);
    if next.Some? && key !in b.payoutKeys {
      var e := EnsureAccount(b, manager);
      EnsureAccountKeeps(b, manager);
      if ShouldAutoDebit(e, manager, amount) && CanDebit(e, manager, amount) {
        PaidOutKeeps(e, Payout(manager, registration, amount, true, true, None), AutoDebit, AutoPayoutKey(key), key);
      } else {
        assert next.value.payouts[..|e.payouts|] == e.payouts;
        BalancesFramed(e, next.value);
      }
    }
  }

  lemma {:induction false} SettlePayoutKeeps(b: Books, manager: nat, k: nat, key: Key)
    requires BooksOk(b)
    ensures Keeps(b, SettlePayout(b, manager, k, key))
  {
    hide BalancesOk, TopupEntriesOk, EntriesFit;
    var next := SettlePayout(b, manager, k, key);
    if next.Some? && !b.payouts[k].debited {
      EnsureAccountKeeps(b, manager);
      DebitPayoutKeeps(EnsureAccount(b, manager), k, SettlePayoutKey(key));
    }
  }

  lemma {:induction false} DebitPayoutKeeps(b: Books, k: nat, key: LedgerKey)
    requires BooksOk(b) && k < |b.payouts| && !b.payouts[k].debited && PayoutEntryKey(b, key)
    requires CanDebit(b, b.payouts[k].manager, b.payouts[k].amount)
    ensures var payout := b.payouts[k];
            var posted := Post(b, payout.manager, ManualDebit, -payout.amount, PayoutReference(k), None, key);
            Keeps(b, Some(posted.(payouts := b.payouts[k := payout.(debited := true)])))
  {
    hide BalancesOk, TopupEntriesOk, SameRequestEntries, EntriesFit;
    var payout := b.payouts[k];
    var payouts := b.payouts[k := payout.(debited := true)];
    forall m: nat ensures PayoutTotal(payouts, m) == PayoutTotal(b.payouts, m) + if m == payout.manager then payout.amount else 0 {
      PayoutTotalReplaced(b.payouts, k, payout.(debited := true), m);
    }
    BalanceInRange(b, payout.manager);
    PostKeepsBalances(b, payout.manager, ManualDebit, -payout.amount, PayoutReference(k), None, key);
    PayoutDebitKeeps(b, payout.manager, ManualDebit, payout.amount, k, key);
    PayoutRowsOk(b, payout.manager, ManualDebit, payout.amount, k, key, payouts, b.payoutKeys);
    var posted := Post(b, payout.manager, ManualDebit, -payout.amount, PayoutReference(k), None, key);
    PayoutAssembled(b, posted, posted.(payouts := payouts));
  }

  // ---- the demo seed

  lemma {:induction false} SeedDemoKeeps(b: Books, manager: nat)
    requires BooksOk(b)
    ensures Keeps(b, SeedDemo(b, manager))
  {
    hide BalancesOk;
    if manager !in b.balances {
      var e := b.(balances := b.balances[manager := 0]);
      BalancesFramed(b, e);
      PostKeepsBalances(e, manager, OpeningBalance, OPENING_BALANCE, DemoOpening, None, OpeningKey(manager));
      PostEffect(e, manager, OpeningBalance, OPENING_BALANCE, DemoOpening, None, OpeningKey(manager));
    }
  }

  /** The seed's ledger-sum check never rejects books that only these transactions wrote: what
      remains to reject is an account that was opened without the demo balance. */
  lemma {:induction false} SeedDemoSumAgrees(b: Books, manager: nat)
    requires BooksOk(b)
    ensures SeedDemo(b, manager).Some? <==> manager !in b.balances || HasOpening(b, manager)
  {
    assert Balance(b, manager) == Sum(b.ledger, manager);
  }
}
