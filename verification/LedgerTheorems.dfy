/** Conservation of credit, exactly-once automatic debit and the top-up machine. */
module LedgerTheorems {
  import opened Options
  import opened Types
  import opened Payments
  import opened Ledger
  import opened Platform
  import opened Invariant
  import opened RequestSteps
  import opened Runs
  import F = Frames
  import P = PaymentProofs
  import L = LedgerProofs
  import O = OutboxProofs
  import T = WorkflowTheorems
  import Outbox

  lemma AccountOf(s: State)
    requires StateOk(s)
    ensures L.BooksOk(s.books) && LedgerOk(s.repairs, s.books)
  {
    hide L.BooksOk, LedgerOk;
  }

  // ---- conservation

  /** In every reachable state each balance is in range, equals the sum of its ledger, and equals
      the opening balance plus approved top-ups, less debited payouts and less the amounts of the
      requests that credit is currently paying; every balanceAfter is the running sum. */
  lemma Conservation(tickets: seq<Ticket>, commands: seq<Command>, m: nat)
    ensures var s := Run(Initial(tickets), commands);
            var opening := if OpeningKey(m) in s.books.ledgerKeys then OPENING_BALANCE else 0;
            && 0 <= Balance(s.books, m) <= MAX_SAFE_CREDIT_BALANCE
            && Balance(s.books, m) == Sum(s.books.ledger, m)
            && Balance(s.books, m)
               == opening + L.TopupTotal(s.books.topups, m) - L.PayoutTotal(s.books.payouts, m) - PaidTotal(s.repairs, m)
            && L.RunningBalances(s.books.ledger)
  {
    hide StateOk, Run, Sum, L.Net, L.TopupTotal, L.PayoutTotal, PaidTotal, LedgerRow, L.TopupEntriesOk, L.EntriesFit, L.RunningBalances;
    var s := Run(Initial(tickets), commands);
    Reachable(tickets, commands);
    AccountOf(s);
    L.GroupsAddUp(s.books.ledger, m);
  }

  /** The ledger is append-only. */
  lemma LedgerIsAppendOnly(tickets: seq<Ticket>, commands: seq<Command>, more: seq<Command>)
    ensures var s := Run(Initial(tickets), commands); s.books.ledger <= Run(s, more).books.ledger
  {
    hide StateOk, Run, RepairsContinue, KeysContinue;
    Later(tickets, commands, more);
  }

  /** A reversal gives back exactly what the debit took. */
  lemma ReversalRestores(s: State, i: nat, key: Key)
    requires StateOk(s) && HasRequest(s, i) && Reverse(s, i, key).Some?
    ensures var s' := Reverse(s, i, key).value;
            var q := s.repairs[i].request.value;
            var last := s'.books.ledger[|s.books.ledger|];
            && |s'.books.ledger| == |s.books.ledger| + 1
            && last.reverses == q.debit && last.amount == -s.books.ledger[q.debit.value].amount
            && last.manager == s.books.ledger[q.debit.value].manager
            && PaidTotal(s'.repairs, last.manager) == PaidTotal(s.repairs, last.manager) - q.amount
            && forall m: nat :: Balance(s'.books, m) == Balance(s.books, m) + if m == last.manager then q.amount else 0
  {
    hide StateOk, P.RequestOk, P.PaymentStep, L.Count, L.Net, PaidTotal;
    CreditFacts(s, i);
    assert LedgerRow(s.repairs, s.books, i);
    P.ReversedKeeps(s.repairs[i].request.value, i);
    var r := Reverse(s, i, key).value.repairs[i];
    F.PaidTotalReplaced(s.repairs, i, r, s.repairs[i].manager);
  }

  // ---- the automatic debit

  /** With any number of workers, crashes, lease expiries and redeliveries, a request has at most
      one debit of either kind and at most one reversal, and these follow its status exactly. */
  lemma DebitedAtMostOnce(tickets: seq<Ticket>, commands: seq<Command>, i: nat)
    ensures var s := Run(Initial(tickets), commands);
            var autos := L.Count(s.books.ledger, AutoDebit, RequestReference(i));
            var manuals := L.Count(s.books.ledger, ManualDebit, RequestReference(i));
            var reversals := L.Count(s.books.ledger, Reversal, RequestReference(i));
            if HasRequest(s, i) then
              var status := s.repairs[i].request.value.status;
              && autos + manuals == (if CreditPaid(status) || status == Reversed then 1 else 0)
              && (status == AutoPaid ==> autos == 1)
              && (status == ManualCreditPaid ==> manuals == 1)
              && reversals == (if status == Reversed then 1 else 0)
              && (s.repairs[i].request.value.payer == Tenant ==> autos == 0 && manuals == 0 && reversals == 0)
            else autos == 0 && manuals == 0 && reversals == 0
  {
    hide StateOk, Run, L.Count, L.Net, PaidTotal, P.OrdersOk, P.AttemptsOk, P.AuditsOk, DebitMatches;
    var s := Run(Initial(tickets), commands);
    Reachable(tickets, commands);
    AccountOf(s);
    assert LedgerRow(s.repairs, s.books, i);
    if HasRequest(s, i) {
      RequestIsOk(s, i);
    }
  }

  /** Evaluating a request again never throws and changes nothing, however often its delivery is
      claimed again: neither the settlement checks nor the key of the first evaluation get in the way. */
  lemma RedeliveryNeverThrows(tickets: seq<Ticket>, commands: seq<Command>, token: nat)
    ensures var s := Run(Initial(tickets), commands);
            IsClaimed(s, token) && LeftWaiting(s.repairs, EvaluationOf(s, token).request) ==>
              RunEvaluation(s, token) == Some(s.(evaluated := s.evaluated + {token}))
  {
    hide StateOk, Run, SettlementValid;
    var s := Run(Initial(tickets), commands);
    Reachable(tickets, commands);
    DeliveriesOf(s);
    if IsClaimed(s, token) {
      var e := EvaluationOf(s, token);
      assert EvaluationOk(s.repairs, e);
      T.SettlementChecksHold(tickets, commands, e.request, e.decision);
    }
  }

  lemma DeliveriesOf(s: State)
    requires StateOk(s)
    ensures DeliveriesOk(s.repairs, s.evaluations, s.box, s.evaluated) && EvaluationsOk(s.repairs, s.evaluations) && O.BoxOk(s.box)
  {
    hide DeliveriesOk, EvaluationsOk, O.BoxOk;
  }

  /** A delivery is marked DELIVERED only when its request has left WAITING_COMPLETION, and that
      holds at every later time. */
  lemma DeliveredMeansEvaluated(tickets: seq<Ticket>, commands: seq<Command>, more: seq<Command>, d: nat)
    ensures var s := Run(Initial(tickets), commands);
            var s' := Run(s, more);
            d < |s.box.rows| && s.box.rows[d].state == Outbox.Delivered ==>
              && d < |s.evaluations| && d < |s'.box.rows| && s'.box.rows[d] == s.box.rows[d]
              && LeftWaiting(s.repairs, s.evaluations[d].request) && LeftWaiting(s'.repairs, s.evaluations[d].request)
  {
    hide StateOk, Run, RepairsContinue, KeysContinue, AccountContinues, LeftWaiting;
    var s := Run(Initial(tickets), commands);
    Later(tickets, commands, more);
    DeliveriesOf(s);
    if d < |s.box.rows| && s.box.rows[d].state == Outbox.Delivered {
      F.LeftWaitingStays(s.repairs, Run(s, more).repairs, s.evaluations[d].request);
    }
  }

  /** No approval is forgotten: a request that still waits after its approval has a delivery that
      is not yet delivered. */
  lemma ApprovalIsQueued(tickets: seq<Ticket>, commands: seq<Command>, i: nat)
    ensures var s := Run(Initial(tickets), commands);
            HasRequest(s, i) && s.repairs[i].request.value.status == WaitingCompletion && s.repairs[i].request.value.decision.Some? ==>
              exists d :: 0 <= d < |s.box.rows| && d < |s.evaluations| && s.box.rows[d].state != Outbox.Delivered
                          && s.evaluations[d] == Evaluation(i, s.repairs[i].request.value.decision.value)
  {
    hide StateOk, Run, O.BoxOk;
    var s := Run(Initial(tickets), commands);
    Reachable(tickets, commands);
    DeliveriesOf(s);
    if HasRequest(s, i) && s.repairs[i].request.value.status == WaitingCompletion && s.repairs[i].request.value.decision.Some? {
      assert Queued(s.repairs[i], i, s.evaluations);
      var e := Evaluation(i, s.repairs[i].request.value.decision.value);
      var d :| 0 <= d < |s.evaluations| && s.evaluations[d] == e;
      assert s.box.rows[d].state != Outbox.Delivered;
    }
  }

  /** In every reachable state a delivery is PROCESSING exactly while it has a lock token and a lease,
      the token is the one of its newest claim, and the attempt count is the number of its claims. */
  lemma LeasesAreConsistent(tickets: seq<Ticket>, commands: seq<Command>, d: nat)
    ensures var box := Run(Initial(tickets), commands).box;
            d < |box.rows| ==>
              var row := box.rows[d];
              && (row.state == Outbox.Processing <==> row.token.Some?)
              && (row.state == Outbox.Processing <==> row.leaseUntil.Some?)
              && (row.token.Some? ==> O.Newest(box.claims, row.token.value) && box.claims[row.token.value] == d)
              && row.attempts == O.Claims(box.claims, d)
  {
    hide StateOk, Run;
    var s := Run(Initial(tickets), commands);
    Reachable(tickets, commands);
    DeliveriesOf(s);
    if d < |s.box.rows| {
      assert O.RowOk(s.box, d);
    }
  }

  /** At any point of any run, a worker whose delivery has been claimed again can neither complete
      it nor give it back, whether its evaluation returned or threw. */
  lemma SupersededWorkersAreFenced(tickets: seq<Ticket>, commands: seq<Command>, token: nat, newer: nat, now: int, attempts: nat)
    requires var s := Run(Initial(tickets), commands);
             token < newer < |s.box.claims| && s.box.claims[newer] == s.box.claims[token]
    ensures var s := Run(Initial(tickets), commands);
            && Apply(s, TryFinishDelivery(token)) == s && Apply(s, TryGiveBackDelivery(token, now, attempts)) == s
            && s.box.claims[token] < |s.box.rows|
            && s.box.rows[s.box.claims[token]].attempts == O.Claims(s.box.claims, s.box.claims[token]) >= 2
  {
    hide StateOk, Run, Outbox.RetryAt, LeftWaiting, EvaluationsOk;
    var s := Run(Initial(tickets), commands);
    Reachable(tickets, commands);
    DeliveriesOf(s);
    var d := s.box.claims[token];
    O.SupersededIsFenced(s.box, d, token, newer, Outbox.RetryAt(now, attempts));
    assert O.RowOk(s.box, d);
    ClaimedTwice(s.box.claims, token, newer);
  }

  lemma {:induction false} ClaimedTwice(claims: seq<nat>, t: nat, u: nat)
    requires t < u < |claims| && claims[t] == claims[u]
    ensures O.Claims(claims, claims[t]) >= 2
  {
    var n := |claims| - 1;
    if u == n {
      ClaimedOnce(claims[..n], t);
    } else {
      ClaimedTwice(claims[..n], t, u);
    }
  }

  lemma {:induction false} ClaimedOnce(claims: seq<nat>, t: nat)
    requires t < |claims|
    ensures O.Claims(claims, claims[t]) >= 1
  {
    var n := |claims| - 1;
    if t == n {
    } else {
      ClaimedOnce(claims[..n], t);
    }
  }

  // ---- top-ups

  /** A top-up is approved exactly when it has its one ledger entry; an entry that names a top-up
      carries its amount and its manager. */
  lemma TopupEntries(tickets: seq<Ticket>, commands: seq<Command>, k: nat, e: nat)
    ensures var b := Run(Initial(tickets), commands).books;
            && L.Count(b.ledger, Topup, TopupReference(k)) == (if k < |b.topups| && b.topups[k].status == TopupApproved then 1 else 0)
            && (e < |b.ledger| && b.ledger[e].reference == TopupReference(k) ==>
                  k < |b.topups| && b.ledger[e].amount == b.topups[k].amount && b.ledger[e].manager == b.topups[k].manager)
  {
    hide StateOk, Run, L.Count, L.Net, L.BalancesOk, L.RowsOk, LedgerOk;
    var s := Run(Initial(tickets), commands);
    Reachable(tickets, commands);
    AccountOf(s);
    if e < |s.books.ledger| {
      assert L.EntryFits(s.books.ledger[e], s.books.topups);
    }
  }

  /** However confirmations, reconciliations and cancellations race, a top-up that is approved,
      failed or cancelled never changes again, and once a caller was told to ask the provider no
      later caller is. */
  lemma TopupsFinish(tickets: seq<Ticket>, commands: seq<Command>, more: seq<Command>, manager: nat, k: nat, paymentKey: string, amount: int)
    ensures var b := Run(Initial(tickets), commands).books;
            var b' := Run(Run(Initial(tickets), commands), more).books;
            k < |b.topups| ==>
              && k < |b'.topups|
              && (b.topups[k].status == TopupApproved || b.topups[k].status == TopupFailed || b.topups[k].status == TopupCancelled ==>
                    b'.topups[k] == b.topups[k])
              && (b.topups[k].status != TopupReady ==>
                    var claim := ClaimTopup(b', manager, k, paymentKey, amount); claim.Some? ==> !claim.value.1 && claim.value.0 == b')
  {
    hide StateOk, Run, RepairsContinue, KeysContinue;
    Later(tickets, commands, more);
    var b := Run(Initial(tickets), commands).books;
    var b' := Run(Run(Initial(tickets), commands), more).books;
    assert k < |b.topups| ==> L.TopupContinues(b.topups[k], b'.topups[k]);
  }
}
