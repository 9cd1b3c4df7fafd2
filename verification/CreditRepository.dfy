/** The credit command repository: every method is one transaction, written as the row updates it
    makes, and proved to be the matching command of the machine. */
module CreditRepository {
  import opened Options
  import opened Types
  import opened Payments
  import opened Ledger
  import opened Platform
  import opened Database

  datatype SettleOutcome = Paid | AlreadyFinal | NotEnoughCredit | Thrown

  datatype Posting = Posted(entry: nat) | Refused | Duplicate

  class Repository {
    const db: Store

    constructor (db: Store)
      ensures this.db == db
    {
      this.db := db;
    }

    /** The attempt, request and audit rows of a settlement that the balance does not cover. */
    method RecordShortage(i: nat, mode: Mode, key: Key, payload: AttemptPayload) returns (ok: bool)
      requires HasRequest(db.View(), i)
      modifies db
      ensures ok <==> key !in old(db.attempts)
      ensures var s := old(db.View());
              ok ==> db.View() == WithRequest(s, i, LackCredit(s.repairs[i].request.value, mode, key, payload)).(
                                    keys := s.keys.(attempts := s.keys.attempts[key := payload]))
    {
      hide Announce;
      ok := db.InsertAttempt(i, Attempt(key, mode, NoCredit, payload));
      if ok {
        var q := db.repairs[i].request.value;
        db.UpdateRequest(i, q.(status := InsufficientCredit, lastMode := Some(mode)));
        var appended := db.AppendPaymentState(i, OfStatus(InsufficientCredit));
      }
    }

    /** The cost, attempt, request and audit rows of a settlement that succeeds. */
    method RecordPayment(i: nat, mode: Mode, key: Key, payload: AttemptPayload, evidence: Option<Evidence>, debit: Option<nat>)
      returns (ok: bool)
      requires HasRequest(db.View(), i)
      modifies db
      ensures var s := old(db.View());
              var next := Settled(s.repairs[i].request.value, i, mode, key, payload, evidence, debit);
              && (ok <==> key !in s.keys.attempts && next.Some?)
              && (ok ==> db.View() == WithRequest(s, i, next.value).(keys := s.keys.(attempts := s.keys.attempts[key := payload])))
    {
      hide Announce;
      ok := false;
      if db.repairs[i].request.value.cost.None? {
        ok := db.InsertAttempt(i, Attempt(key, mode, Succeeded, payload));
        if ok {
          var q := db.repairs[i].request.value;
          var reference := if evidence.Some? then ByReference(evidence.value.reference) else ByRepair(i);
          db.UpdateRequest(i, q.(status := PaidStatus(mode), cost := Some(Cost(Confirmed, q.amount, reference)), debit := debit,
                                 lastMode := Some(mode), directReference := if evidence.Some? then Some(reference) else q.directReference));
          var appended := db.AppendPaymentState(i, OfStatus(PaidStatus(mode)));
        }
      }
    }

    /** A guarded debit and the ledger entry that records it. */
    method PostDebit(manager: nat, kind: EntryKind, amount: int, reference: EntryReference, key: LedgerKey) returns (posting: Posting)
      modifies db
      ensures posting == if !CanDebit(old(db.Account()), manager, amount) then Refused
                         else if key in old(db.ledgerKeys) then Duplicate else Posted(|old(db.ledger)|)
      ensures posting.Posted? ==> db.View() == old(db.View()).(books := Post(old(db.Account()), manager, kind, -amount, reference, None, key))
      ensures posting.Refused? ==> db.View() == old(db.View())
    {
      var after := db.DebitBalance(manager, amount);
      posting := Refused;
      if after.Some? {
        posting := Posted(|db.ledger|);
        var inserted := db.InsertEntry(Entry(manager, kind, -amount, after.value, reference, None), key);
        if !inserted {
          posting := Duplicate;
        }
      }
    }

    /** A guarded credit and the ledger entry that records it. */
    method PostCredit(manager: nat, kind: EntryKind, amount: int, reference: EntryReference, reverses: Option<nat>, key: LedgerKey)
      returns (posting: Posting)
      modifies db
      ensures posting == if !CanCredit(old(db.Account()), manager, amount) then Refused
                         else if key in old(db.ledgerKeys) then Duplicate else Posted(|old(db.ledger)|)
      ensures posting.Posted? ==> db.View() == old(db.View()).(books := Post(old(db.Account()), manager, kind, amount, reference, reverses, key))
      ensures posting.Refused? ==> db.View() == old(db.View())
    {
      var after := db.CreditBalance(manager, amount);
      posting := Refused;
      if after.Some? {
        posting := Posted(|db.ledger|);
        var inserted := db.InsertEntry(Entry(manager, kind, amount, after.value, reference, reverses), key);
        if !inserted {
          posting := Duplicate;
        }
      }
    }

    /** The body of a settlement whose checks have passed. When it throws, its rows are half
        written and the transaction rolls back. */
    method SettleLocked(i: nat, mode: Mode, key: Key, payload: AttemptPayload, evidence: Option<Evidence>) returns (outcome: SettleOutcome)
      requires HasRequest(db.View(), i) && (mode == Direct <==> evidence.Some?)
      modifies db
      ensures outcome == Thrown <==> Platform.SettleLocked(old(db.View()), i, mode, key, payload, evidence).None?
      ensures outcome != Thrown ==> Platform.SettleLocked(old(db.View()), i, mode, key, payload, evidence) == Some(db.View())
      ensures outcome == Thrown || outcome == Paid || outcome == NotEnoughCredit
    {
      hide Settled, LackCredit, Post, CanDebit;
      if mode != Direct {
        outcome := SettleByCredit(i, mode, key, payload);
      } else {
        var recorded := RecordPayment(i, mode, key, payload, evidence, None);
        outcome := if recorded then Paid else Thrown;
      }
    }

    method SettleByCredit(i: nat, mode: Mode, key: Key, payload: AttemptPayload) returns (outcome: SettleOutcome)
      requires HasRequest(db.View(), i) && mode != Direct
      modifies db
      ensures outcome == Thrown <==> Platform.SettleLocked(old(db.View()), i, mode, key, payload, None).None?
      ensures outcome != Thrown ==> Platform.SettleLocked(old(db.View()), i, mode, key, payload, None) == Some(db.View())
      ensures outcome == Thrown || outcome == Paid || outcome == NotEnoughCredit
    {
      hide Settled, LackCredit, Post, CanDebit;
      var r := db.repairs[i];
      var amount := r.request.value.amount;
      var posting := PostDebit(r.manager, DebitKind(mode), amount, RequestReference(i), PaymentKey(key));
      outcome := Thrown;
      if posting.Refused? {
        var recorded := RecordShortage(i, mode, key, payload);
        if recorded {
          outcome := NotEnoughCredit;
        }
      } else if posting.Posted? {
        var recorded := RecordPayment(i, mode, key, payload, None, Some(posting.entry));
        if recorded {
          outcome := Paid;
        }
      }
    }

    /** Settles a request by credit or records a direct payment; a repeated key is answered from
        the recorded attempt. */
    method SettlePaymentRequest(i: nat, manager: nat, mode: Mode, key: Key, actor: nat, decision: Option<nat>,
                                evidence: Option<Evidence>, now: int) returns (outcome: SettleOutcome)
      modifies db
      ensures outcome == Thrown <==> Settle(old(db.View()), i, manager, mode, key, actor, decision, evidence, now).None?
      ensures outcome != Thrown ==> Settle(old(db.View()), i, manager, mode, key, actor, decision, evidence, now) == Some(db.View())
      ensures outcome == Thrown ==> db.View() == old(db.View())
    {
      hide SettlementValid, Platform.SettleLocked, EnsureAccount, ActiveOrder, EvidenceOk;
      var before := db.View();
      outcome := Thrown;
      if mode != Toss && (mode == Direct <==> evidence.Some?) && (evidence.None? || EvidenceOk(evidence.value, now)) {
        if i < |db.repairs| && db.repairs[i].request.Some? && db.repairs[i].manager == manager {
          var r := db.repairs[i];
          var chosen := if decision.Some? then decision else r.request.value.decision;
          if chosen.Some? && SettlementValid(r, chosen.value) {
            ValidDecides(r, chosen.value);
            if evidence.None? || evidence.value.paidAt >= r.reports[chosen.value].decision.value.at {
              outcome := SettleValid(i, mode, key, SettlePayload(i, mode, actor, chosen.value, evidence), evidence);
              if outcome == Thrown {
                db.Rollback(before);
              }
            }
          }
        }
      }
    }

    static lemma ValidDecides(r: Repair, decision: nat)
      requires SettlementValid(r, decision)
      ensures r.request.Some? && decision < |r.reports| && r.reports[decision].decision.Some?
    {
    }

    /** What follows the checks of a settlement. */
    static function AfterChecks(s: State, i: nat, mode: Mode, key: Key, payload: AttemptPayload, evidence: Option<Evidence>): Option<State>
      requires HasRequest(s, i)
    {
      var q := s.repairs[i].request.value;
      if key in s.keys.attempts then if s.keys.attempts[key] == payload then Some(s) else None
      else if Final(q.status) then Some(s)
      else if mode == AutoCredit && q.status != WaitingCompletion then None
      else if mode != AutoCredit && !Payable(q.status) then None
      else if ActiveOrder(q, i) then None
      else Platform.SettleLocked(WithAccount(s, s.repairs[i].manager), i, mode, key, payload, evidence)
    }

    method SettleValid(i: nat, mode: Mode, key: Key, payload: AttemptPayload, evidence: Option<Evidence>) returns (outcome: SettleOutcome)
      requires HasRequest(db.View(), i) && (mode == Direct <==> evidence.Some?)
      modifies db
      ensures outcome == Thrown <==> AfterChecks(old(db.View()), i, mode, key, payload, evidence).None?
      ensures outcome != Thrown ==> AfterChecks(old(db.View()), i, mode, key, payload, evidence) == Some(db.View())
    {
      hide Platform.SettleLocked, EnsureAccount;
      var q := db.repairs[i].request.value;
      outcome := Thrown;
      if key in db.attempts {
        if db.attempts[key] == payload {
          outcome := AlreadyFinal;
        }
      } else if Final(q.status) {
        outcome := AlreadyFinal;
      } else if (mode == AutoCredit && q.status == WaitingCompletion) || (mode != AutoCredit && Payable(q.status)) {
        if !ActiveOrder(q, i) {
          db.EnsureAccountRows(db.repairs[i].manager);
          outcome := SettleLocked(i, mode, key, payload, evidence);
        }
      }
    }

    /** The automatic evaluation of a request after its approval. */
    method EvaluateAfterCompletion(i: nat, manager: nat, decision: nat) returns (ok: bool)
      modifies db
      ensures ok <==> Evaluate(old(db.View()), i, manager, decision).Some?
      ensures ok ==> Evaluate(old(db.View()), i, manager, decision) == Some(db.View())
      ensures !ok ==> db.View() == old(db.View())
    {
      hide SettlementValid, Platform.SettleLocked, AwaitApproval;
      var before := db.View();
      ok := false;
      if i < |db.repairs| && db.repairs[i].request.Some? && db.repairs[i].manager == manager && SettlementValid(db.repairs[i], decision) {
        var q := db.repairs[i].request.value;
        if q.status != WaitingCompletion {
          ok := true;
        } else {
          db.EnsureAccountRows(manager);
          var policy := db.policies[manager];
          if !(policy.AutoDebitUnderLimit? && q.amount <= policy.limit) {
            QueueForApproval(i);
            ok := true;
          } else if !ActiveOrder(q, i) {
            var outcome := SettleLocked(i, AutoCredit, AutoSettlement(i, decision), SettlePayload(i, AutoCredit, manager, decision, None), None);
            ok := outcome != Thrown;
          }
          if !ok {
            db.Rollback(before);
          }
        }
      }
    }

    method QueueForApproval(i: nat)
      requires HasRequest(db.View(), i)
      modifies db
      ensures db.View() == WithRequest(old(db.View()), i, AwaitApproval(old(db.repairs)[i].request.value))
    {
      hide Announce;
      var q := db.repairs[i].request.value;
      db.UpdateRequest(i, q.(status := PendingApproval, lastMode := None));
      var appended := db.AppendPaymentState(i, OfStatus(PendingApproval));
    }

    // ---- corrections

    /** Runs one correction under its receipt key. */
    method RunCorrection(key: Key, payload: CorrectionPayload) returns (ok: bool)
      modifies db
      ensures ok <==> Correct(old(db.View()), key, payload).Some?
      ensures ok ==> Correct(old(db.View()), key, payload) == Some(db.View())
      ensures !ok ==> db.View() == old(db.View())
    {
      hide Execute;
      var before := db.View();
      var i := payload.request;
      ok := false;
      if i < |db.repairs| && db.repairs[i].request.Some? && db.repairs[i].manager == payload.manager {
        if key in db.receipts {
          ok := db.receipts[key] == payload;
        } else {
          ok := ExecuteCorrection(i, payload.kind, key);
          if ok {
            db.receipts := db.receipts[key := payload];
          } else {
            db.Rollback(before);
          }
        }
      }
    }

    method ExecuteCorrection(i: nat, kind: Correction, key: Key) returns (ok: bool)
      requires HasRequest(db.View(), i)
      modifies db
      ensures ok <==> Execute(old(db.View()), i, kind, key).Some?
      ensures ok ==> Execute(old(db.View()), i, kind, key) == Some(db.View())
    {
      hide Reverse, VoidedCost, Finished;
      match kind
      case CreditReversal =>
        ok := ReverseCreditPayment(i, key);
      case DirectVoid =>
        var q := db.repairs[i].request.value;
        ok := q.status == DirectPaid && q.debit.None?;
        if ok {
          ok := VoidAndFinish(i, DirectPaymentVoided);
        }
      case PaymentCancel =>
        var q := db.repairs[i].request.value;
        ok := !ActiveOrder(q, i) && Payable(q.status) && q.cost.None? && q.debit.None?;
        if ok {
          ok := FinishCorrection(i, PaymentCancelled);
        }
    }

    method ReverseCreditPayment(i: nat, key: Key) returns (ok: bool)
      requires HasRequest(db.View(), i)
      modifies db
      ensures ok <==> Reverse(old(db.View()), i, key).Some?
      ensures ok ==> Reverse(old(db.View()), i, key) == Some(db.View())
    {
      hide VoidedCost, Finished, Post, CanCredit;
      var r := db.repairs[i];
      var q := r.request.value;
      ok := CreditPaid(q.status) && DebitMatches(db.Account(), i, q);
      if ok {
        var posting := PostCredit(r.manager, Reversal, q.amount, RequestReference(i), q.debit, ReversalKey(key));
        ok := posting.Posted?;
        if ok {
          ok := VoidAndFinish(i, Reversed);
        }
      }
    }

    /** The rows that a reversal and a void have in common. */
    method VoidAndFinish(i: nat, status: PayStatus) returns (ok: bool)
      requires HasRequest(db.View(), i)
      modifies db
      ensures var s := old(db.View());
              var q := s.repairs[i].request.value;
              && (ok <==> VoidedCost(q, i).Some? && Finished(q.(cost := VoidedCost(q, i)), status).Some?)
              && (ok ==> db.View() == WithRequest(s, i, Finished(q.(cost := VoidedCost(q, i)), status).value))
    {
      hide VoidedCost, Finished;
      var s := db.View();
      var q := db.repairs[i].request.value;
      ok := VoidAuthoritativeCost(i);
      if ok {
        ok := FinishCorrection(i, status);
        if ok {
          WithRequestTwice(s, i, q.(cost := VoidedCost(q, i)), Finished(q.(cost := VoidedCost(q, i)), status).value);
        }
      }
    }

    /** Voids the confirmed cost after checking that it is the one this request paid. */
    method VoidAuthoritativeCost(i: nat) returns (ok: bool)
      requires HasRequest(db.View(), i)
      modifies db
      ensures var s := old(db.View());
              var q := s.repairs[i].request.value;
              && (ok <==> VoidedCost(q, i).Some?)
              && db.View() == if ok then WithRequest(s, i, q.(cost := VoidedCost(q, i))) else s
    {
      var q := db.repairs[i].request.value;
      var expected := if q.status == DirectPaid then q.directReference else Some(ByRepair(i));
      ok := q.cost.Some? && q.cost.value.status == Confirmed && expected.Some?
            && q.cost.value.reference == expected.value && q.cost.value.amount == q.amount;
      if ok {
        db.UpdateRequest(i, q.(cost := Some(q.cost.value.(status := Void))));
      }
    }

    /** The request, audit and event rows of a correction; its audit row must be new. */
    method FinishCorrection(i: nat, status: PayStatus) returns (ok: bool)
      requires HasRequest(db.View(), i)
      modifies db
      ensures var s := old(db.View());
              var next := Finished(s.repairs[i].request.value, status);
              (ok <==> next.Some?) && (ok ==> db.View() == WithRequest(s, i, next.value))
    {
      hide Announce;
      var q := db.repairs[i].request.value;
      db.UpdateRequest(i, q.(status := status));
      ok := OfStatus(status) !in q.audits;
      if ok {
        var appended := db.AppendPaymentState(i, OfStatus(status));
      }
    }

    // ---- top-ups and payouts

    /** Books a top-up that the provider has charged; a Gara top-up is paid out in the same
        transaction. */
    method FinalizeTopup(manager: nat, k: nat, paymentKey: string, amount: int, active: bool) returns (ok: bool)
      modifies db
      ensures ok <==> Ledger.FinalizeTopup(old(db.Account()), manager, k, paymentKey, amount, active).Some?
      ensures ok ==> db.View() == old(db.View()).(books := Ledger.FinalizeTopup(old(db.Account()), manager, k, paymentKey, amount, active).value)
      ensures !ok ==> db.View() == old(db.View())
    {
      hide Post, CanCredit, CanDebit, PaidOut;
      var before := db.View();
      ok := k < |db.topups| && db.topups[k].manager == manager && db.topups[k].paymentKey == Some(paymentKey) && db.topups[k].amount == amount;
      if ok {
        var order := db.topups[k];
        if order.status == TopupApproved {
          ok := TopupKey(k) in db.ledgerKeys;
        } else {
          ok := TopupInFlight(order.status);
          if ok {
            ok := CreditTopup(k);
            if ok && order.registration.Some? {
              ok := active && TopupPayout(k) !in db.payoutKeys;
              if ok {
                ok := PayOut(Payout(manager, order.registration.value, amount, true, false, Some(k)), ManualDebit, TopupPayoutEntryKey(k), TopupPayout(k));
              }
            }
            if !ok {
              db.Rollback(before);
            }
          }
        }
      }
    }

    method CreditTopup(k: nat) returns (ok: bool)
      requires k < |db.topups|
      modifies db
      ensures var b := old(db.Account());
              var order := b.topups[k];
              && (ok <==> CanCredit(b, order.manager, order.amount) && TopupKey(k) !in b.ledgerKeys)
              && (ok ==> db.View() == old(db.View()).(books :=
                    WithTopup(Post(b, order.manager, Topup, order.amount, TopupReference(k), None, TopupKey(k)), k, order.(status := TopupApproved))))
    {
      hide CanCredit;
      var order := db.topups[k];
      var posting := PostCredit(order.manager, Topup, order.amount, TopupReference(k), None, TopupKey(k));
      ok := posting.Posted?;
      if ok {
        db.topups := db.topups[k := order.(status := TopupApproved)];
      }
    }

    /** Debits the account for a payout and inserts its row. */
    method PayOut(payout: Payout, kind: EntryKind, entryKey: LedgerKey, key: Key) returns (ok: bool)
      modifies db
      ensures var b := old(db.Account());
              && (ok <==> CanDebit(b, payout.manager, payout.amount) && entryKey !in b.ledgerKeys)
              && (ok ==> db.View() == old(db.View()).(books := PaidOut(b, payout, kind, entryKey, key)))
    {
      hide CanDebit;
      var posting := PostDebit(payout.manager, kind, payout.amount, PayoutReference(|db.payouts|), entryKey);
      ok := posting.Posted?;
      if ok {
        db.payoutKeys := db.payoutKeys[key := |db.payouts|];
        db.payouts := db.payouts + [payout];
      }
    }

    method CreateGaraVendorPayout(manager: nat, registration: nat, amount: int, key: Key, active: bool) returns (ok: bool)
      modifies db
      ensures ok <==> CreatePayout(old(db.Account()), manager, registration, amount, key, active).Some?
      ensures ok ==> db.View() == old(db.View()).(books := CreatePayout(old(db.Account()), manager, registration, amount, key, active).value)
      ensures !ok ==> db.View() == old(db.View())
    {
      hide PaidOut, CanDebit;
      var before := db.View();
      var payout := Payout(manager, registration, amount, true, false, None);
      ok := PositiveSafeMoney(amount);
      if ok {
        if key in db.payoutKeys {
          ok := db.payoutKeys[key] < |db.payouts| && db.payouts[db.payoutKeys[key]] == payout;
        } else {
          ok := active;
          if ok {
            db.EnsureAccountRows(manager);
            ok := PayOut(payout, ManualDebit, PayoutKey(key), key);
            if !ok {
              db.Rollback(before);
            }
          }
        }
      }
    }

    /** A new top-up order, or the stored one when its key is used again for the same order. */
    method CreateTopupOrder(manager: nat, amount: int, key: Key, registration: Option<nat>, returnPath: string, active: bool) returns (ok: bool)
      modifies db
      ensures ok <==> CreateTopup(old(db.Account()), manager, amount, key, registration, returnPath, active).Some?
      ensures ok ==> db.View() == old(db.View()).(books := CreateTopup(old(db.Account()), manager, amount, key, registration, returnPath, active).value)
      ensures !ok ==> db.View() == old(db.View())
    {
      hide EnsureAccount;
      var before := db.View();
      ok := PositiveSafeMoney(amount) && (registration.Some? ==> active);
      if ok {
        AccountKeepsRows(db.Account(), manager);
        db.EnsureAccountRows(manager);
        if key in db.topupKeys {
          var k := db.topupKeys[key];
          ok := k < |db.topups| && db.topups[k].manager == manager && db.topups[k].amount == amount
                && db.topups[k].registration == registration && db.topups[k].returnPath == returnPath;
          if !ok {
            db.Rollback(before);
          }
        } else {
          db.topupKeys := db.topupKeys[key := |db.topups|];
          db.topups := db.topups + [TopupOrder(manager, amount, TopupReady, registration, returnPath, None)];
        }
      }
    }

    method SavePolicy(manager: nat, policy: Policy) returns (ok: bool)
      modifies db
      ensures ok <==> Ledger.SavePolicy(old(db.Account()), manager, policy).Some?
      ensures ok ==> db.View() == old(db.View()).(books := Ledger.SavePolicy(old(db.Account()), manager, policy).value)
      ensures !ok ==> db.View() == old(db.View())
    {
      ok := policy.AutoDebitUnderLimit? ==> PositiveSafeMoney(policy.limit);
      if ok {
        db.EnsureAccountRows(manager);
        db.policies := db.policies[manager := policy];
      }
    }

    /** A vendor's own payout request, debited at once where the policy and the balance allow it. */
    method RequestGaraVendorPayout(manager: nat, registration: nat, amount: int, key: Key, active: bool) returns (ok: bool)
      modifies db
      ensures ok <==> RequestPayout(old(db.Account()), manager, registration, amount, key, active).Some?
      ensures ok ==> db.View() == old(db.View()).(books := RequestPayout(old(db.Account()), manager, registration, amount, key, active).value)
      ensures !ok ==> db.View() == old(db.View())
    {
      hide PaidOut, CanDebit, EnsureAccount, ShouldAutoDebit;
      var before := db.View();
      ok := PositiveSafeMoney(amount);
      if ok {
        if key in db.payoutKeys {
          var k := db.payoutKeys[key];
          ok := k < |db.payouts| && db.payouts[k].public && db.payouts[k].registration == registration && db.payouts[k].amount == amount;
        } else {
          ok := active;
          if ok {
            AccountKeepsRows(db.Account(), manager);
            db.EnsureAccountRows(manager);
            if ShouldAutoDebit(db.Account(), manager, amount) && CanDebit(db.Account(), manager, amount) {
              ok := PayOut(Payout(manager, registration, amount, true, true, None), AutoDebit, AutoPayoutKey(key), key);
              if !ok {
                db.Rollback(before);
              }
            } else {
              db.payoutKeys := db.payoutKeys[key := |db.payouts|];
              db.payouts := db.payouts + [Payout(manager, registration, amount, false, true, None)];
            }
          }
        }
      }
    }

    method SettleGaraVendorPayout(manager: nat, k: nat, key: Key) returns (ok: bool)
      modifies db
      ensures ok <==> SettlePayout(old(db.Account()), manager, k, key).Some?
      ensures ok ==> db.View() == old(db.View()).(books := SettlePayout(old(db.Account()), manager, k, key).value)
      ensures !ok ==> db.View() == old(db.View())
    {
      hide CanDebit, EnsureAccount;
      var before := db.View();
      ok := k < |db.payouts| && db.payouts[k].manager == manager;
      if ok && !db.payouts[k].debited {
        AccountKeepsRows(db.Account(), manager);
        db.EnsureAccountRows(manager);
        var payout := db.payouts[k];
        var posting := PostDebit(manager, ManualDebit, payout.amount, PayoutReference(k), SettlePayoutKey(key));
        ok := posting.Posted?;
        if ok {
          db.payouts := db.payouts[k := payout.(debited := true)];
        } else {
          db.Rollback(before);
        }
      }
    }

    static lemma AccountKeepsRows(b: Books, manager: nat)
      ensures var b' := EnsureAccount(b, manager);
              b' == b.(balances := b'.balances, policies := b'.policies)
    {
    }
  }
}
