/** The service that confirms and reconciles top-ups with the provider. */
module TopupService {
  import opened Options
  import opened Types
  import opened Payments
  import opened Ledger
  import opened Platform
  import opened Database
  import CreditRepository

  datatype TopupPayment = TopupPayment(order: nat, paymentKey: string, amount: int, status: ProviderStatus, means: Option<string>, approvedAt: Option<int>)

  datatype TopupAnswer = Refused | Unclear | Reported(payment: TopupPayment)

  datatype TopupVerdict = RejectIt | LeaveUncertain | BookIt(payment: TopupPayment)

  predicate Matches(p: TopupPayment, k: nat, paymentKey: Option<string>, amount: int) {
    p.order == k && Some(p.paymentKey) == paymentKey && p.amount == amount
  }

  /** What the service makes of an answer. Unlike a repair order, a top-up also believes a refused
      lookup, and a lookup that reports any aborted or expired payment. */
  function JudgeTopup(lookup: bool, k: nat, paymentKey: Option<string>, amount: int, answer: TopupAnswer): TopupVerdict {
    match answer
    case Refused => RejectIt
    case Unclear => LeaveUncertain
    case Reported(p) =>
      if lookup && (p.status == Aborted || p.status == Expired) then RejectIt
      else if p.status == Done && Matches(p, k, paymentKey, amount) then BookIt(p)
      else LeaveUncertain
  }

  /** What an honest provider promises: a refused confirmation, or a report that this payment was
      aborted or has expired, is final; a report that it is done means it was charged. */
  predicate HonestTopup(charge: Charge, lookup: bool, k: nat, paymentKey: Option<string>, amount: int, answer: TopupAnswer) {
    match answer
    case Refused => !lookup ==> charge == Dead
    case Unclear => true
    case Reported(p) =>
      Matches(p, k, paymentKey, amount) ==>
        && (p.status == Done ==> charge == Charged)
        && (p.status == Aborted || p.status == Expired ==> charge == Dead)
  }

  /** Exactly when giving a top-up up is safe with an honest provider: never on a refused lookup,
      and never on a report about another payment. */
  lemma RejectionIsSafe(lookup: bool, k: nat, paymentKey: Option<string>, amount: int, answer: TopupAnswer)
    requires JudgeTopup(lookup, k, paymentKey, amount, answer) == RejectIt
    ensures (forall charge :: HonestTopup(charge, lookup, k, paymentKey, amount, answer) ==> charge == Dead)
            <==> (if answer.Refused? then !lookup else Matches(answer.payment, k, paymentKey, amount))
  {
    if answer.Refused? && lookup {
      assert HonestTopup(Charged, lookup, k, paymentKey, amount, answer);
    }
    if answer.Reported? && !Matches(answer.payment, k, paymentKey, amount) {
      assert HonestTopup(Charged, lookup, k, paymentKey, amount, answer);
    }
  }

  /** Booking is always justified: the provider has charged this very payment. */
  lemma BookingIsJustified(charge: Charge, lookup: bool, k: nat, paymentKey: Option<string>, amount: int, answer: TopupAnswer)
    requires JudgeTopup(lookup, k, paymentKey, amount, answer).BookIt? && HonestTopup(charge, lookup, k, paymentKey, amount, answer)
    ensures charge == Charged
  {
  }

  /** The transactions that follow an answer. */
  function Concluded(b: Books, manager: nat, k: nat, verdict: TopupVerdict, active: bool): Books {
    match verdict
    case RejectIt => Or(RejectTopup(b, manager, k), b)
    case LeaveUncertain => Or(MarkTopupUncertain(b, manager, k), b)
    case BookIt(p) =>
      var booked := if p.means.Some? && p.approvedAt.Some? then FinalizeTopup(b, manager, k, p.paymentKey, p.amount, active) else None;
      if booked.Some? then booked.value else Or(MarkTopupUncertain(b, manager, k), b)
  }

  function Or(next: Option<Books>, b: Books): Books {
    if next.Some? then next.value else b
  }

  class Service {
    const db: Store
    const credit: CreditRepository.Repository

    constructor (db: Store)
      ensures this.db == db && credit.db == db
    {
      this.db := db;
      credit := new CreditRepository.Repository(db);
    }

    method UpdateTopup(k: nat, order: TopupOrder)
      requires k < |db.topups|
      modifies db
      ensures db.View() == old(db.View()).(books := WithTopup(old(db.Account()), k, order))
    {
      db.topups := db.topups[k := order];
    }

    /** Claims the order; true says that this caller must ask the provider. */
    method ClaimConfirmation(manager: nat, k: nat, paymentKey: string, amount: int) returns (claim: Option<bool>)
      modifies db
      ensures var spec := ClaimTopup(old(db.Account()), manager, k, paymentKey, amount);
              && (claim.Some? <==> spec.Some?)
              && (claim.Some? ==> claim.value == spec.value.1 && db.View() == old(db.View()).(books := spec.value.0))
              && (claim.None? ==> db.View() == old(db.View()))
    {
      claim := None;
      if k < |db.topups| && db.topups[k].manager == manager && db.topups[k].amount == amount {
        var order := db.topups[k];
        if order.status == TopupReady {
          if !TopupPaymentKeyTaken(db.Account(), paymentKey) {
            UpdateTopup(k, order.(status := TopupConfirming, paymentKey := Some(paymentKey)));
            claim := Some(true);
          }
        } else if (order.paymentKey.None? || order.paymentKey == Some(paymentKey)) && (order.status == TopupApproved || TopupInFlight(order.status)) {
          claim := Some(false);
        }
      }
    }

    /** Acts on the provider's answer to a confirmation or a lookup. */
    method Conclude(manager: nat, k: nat, verdict: TopupVerdict, active: bool)
      requires credit.db == db
      modifies db
      ensures db.View() == old(db.View()).(books := Concluded(old(db.Account()), manager, k, verdict, active))
    {
      hide Ledger.FinalizeTopup;
      var owned := k < |db.topups| && db.topups[k].manager == manager;
      match verdict
      case RejectIt =>
        if owned && TopupInFlight(db.topups[k].status) {
          UpdateTopup(k, db.topups[k].(status := TopupFailed));
        }
      case LeaveUncertain =>
        PersistUncertain(manager, k);
      case BookIt(p) =>
        var booked := false;
        if p.means.Some? && p.approvedAt.Some? {
          booked := credit.FinalizeTopup(manager, k, p.paymentKey, p.amount, active);
        }
        if !booked {
          PersistUncertain(manager, k);
        }
    }

    method PersistUncertain(manager: nat, k: nat)
      modifies db
      ensures db.View() == old(db.View()).(books := Or(MarkTopupUncertain(old(db.Account()), manager, k), old(db.Account())))
    {
      if k < |db.topups| && db.topups[k].manager == manager && db.topups[k].status == TopupConfirming {
        UpdateTopup(k, db.topups[k].(status := TopupUncertain));
      }
    }
  }
}
