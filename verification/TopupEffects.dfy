/** Who may confirm a top-up, and what the service makes of every answer about it. */
module TopupEffects {
  import opened Options
  import opened Types
  import opened Payments
  import opened Ledger
  import opened Platform
  import opened Invariant
  import opened Runs
  import opened TopupService
  import opened TopupRuns

  /** Exactly one caller is told to ask the provider: the first that confirms a READY order for its
      amount with a payment key that no other top-up has. A repetition with the same key is told that it
      need not ask, and everybody else is refused. */
  lemma ClaimTopupEffect(s: State, manager: nat, k: nat, paymentKey: string, amount: int)
    requires StateOk(s)
    ensures var b := s.books;
            var claim := ClaimTopup(b, manager, k, paymentKey, amount);
            if k >= |b.topups| || b.topups[k].manager != manager || b.topups[k].amount != amount then claim == None
            else
              var o := b.topups[k];
              if o.status == TopupReady then
                claim == if forall j :: 0 <= j < |b.topups| ==> b.topups[j].paymentKey != Some(paymentKey)
                         then Some((b.(topups := b.topups[k := o.(status := TopupConfirming, paymentKey := Some(paymentKey))]), true)) else None
              else
                claim == if o.status in {TopupConfirming, TopupUncertain, TopupApproved} && o.paymentKey == Some(paymentKey)
                         then Some((b, false)) else None
  {
    hide StateOk;
    if k < |s.books.topups| {
      KeyedTopup(s, k);
    }
  }

  /** The status an answer must lead a top-up in flight to. A refusal ends it, and so does a lookup that
      reports an aborted or expired payment, whichever payment that is; a report that this very payment
      was made books it where it can be booked; anything else leaves it to be reconciled. */
  function EndOf(w: World, call: TopupCall, active: bool): TopupStatus
    requires call.answer.Some? && call.order < |w.state.books.topups|
  {
    match call.answer.value
    case Refused => TopupFailed
    case Unclear => TopupUncertain
    case Reported(p) =>
      if call.lookup && p.status in {Aborted, Expired} then TopupFailed
      else if p.status == Done && (p.order, Some(p.paymentKey), p.amount) == (call.order, call.paymentKey, call.amount)
              && Bookable(w.state.books, call.manager, call.order, p, active)
      then TopupApproved else TopupUncertain
  }

  /** After the transactions that follow an answer. */
  function After(w: World, c: nat, active: bool): World {
    var once := Persisted(w, c, active);
    if c < |once.calls| && once.calls[c].unbooked then Persisted(once, c, active) else once
  }

  /** Every answer about a top-up in flight ends as it must and changes no other top-up; an answer about
      one that is over changes no top-up at all. Credit moves exactly when the top-up is approved. */
  lemma TopupAnswerEffect(tickets: seq<Ticket>, moves: seq<Move>, c: nat, active: bool)
    requires var w := Reach(tickets, moves);
             c < |w.calls| && w.calls[c].answer.Some? && !w.calls[c].over && !w.calls[c].unbooked && w.calls[c].order < |w.state.books.topups|
    ensures var w := Reach(tickets, moves);
            var k := w.calls[c].order;
            var b, b' := w.state.books, After(w, c, active).state.books;
            if b.topups[k].status in {TopupConfirming, TopupUncertain} then
              && b'.topups == b.topups[k := b.topups[k].(status := EndOf(w, w.calls[c], active))]
              && (EndOf(w, w.calls[c], active) != TopupApproved ==> b' == b.(topups := b'.topups))
            else b' == b
  {
    hide StateOk, Reach, After, Persisted, Concluded;
    var w := Reach(tickets, moves);
    WorldIsOk(tickets, moves);
    ServiceRuns(w, c, active);
    assert CallFits(w, w.calls[c]);
    ConcludedMeans(w, c, active);
  }

  lemma ServiceRuns(w: World, c: nat, active: bool)
    requires c < |w.calls| && w.calls[c].answer.Some? && !w.calls[c].over && !w.calls[c].unbooked
    ensures After(w, c, active).state.books == Concluded(w.state.books, w.calls[c].manager, w.calls[c].order, VerdictOf(w.calls[c]), active)
  {
    hide Persisted, Concluded, VerdictOf;
    ServiceIsRun(w, c, active);
  }

  lemma ConcludedMeans(w: World, c: nat, active: bool)
    requires StateOk(w.state) && c < |w.calls| && w.calls[c].answer.Some? && CallFits(w, w.calls[c])
    ensures var k := w.calls[c].order;
            var b := w.state.books;
            var b' := Concluded(b, w.calls[c].manager, k, VerdictOf(w.calls[c]), active);
            if b.topups[k].status in {TopupConfirming, TopupUncertain} then
              && b'.topups == b.topups[k := b.topups[k].(status := EndOf(w, w.calls[c], active))]
              && (EndOf(w, w.calls[c], active) != TopupApproved ==> b' == b.(topups := b'.topups))
            else b' == b
  {
    hide StateOk, HonestTopup, FinalizeTopup, RejectTopup, MarkTopupUncertain;
    var call := w.calls[c];
    RejectMeans(w.state.books, call.manager, call.order);
    UncertainMeans(w.state.books, call.manager, call.order);
    if VerdictOf(call).BookIt? {
      var p := VerdictOf(call).payment;
      if p.means.Some? && p.approvedAt.Some? {
        BookingMeans(w.state, call.manager, call.order, p, active);
      }
    }
  }

  lemma RejectMeans(b: Books, manager: nat, k: nat)
    requires Owns(b, manager, k)
    ensures Or(RejectTopup(b, manager, k), b)
            == if b.topups[k].status in {TopupConfirming, TopupUncertain} then b.(topups := b.topups[k := b.topups[k].(status := TopupFailed)]) else b
  {
  }

  lemma UncertainMeans(b: Books, manager: nat, k: nat)
    requires Owns(b, manager, k)
    ensures Or(MarkTopupUncertain(b, manager, k), b)
            == if b.topups[k].status in {TopupConfirming, TopupUncertain} then b.(topups := b.topups[k := b.topups[k].(status := TopupUncertain)]) else b
  {
    assert b.topups[k := b.topups[k]] == b.topups;
  }

  lemma BookingMeans(s: State, manager: nat, k: nat, p: TopupPayment, active: bool)
    requires StateOk(s) && Owns(s.books, manager, k) && Matches(p, k, s.books.topups[k].paymentKey, s.books.topups[k].amount)
    requires p.means.Some? && p.approvedAt.Some?
    ensures var b := s.books;
            var next := FinalizeTopup(b, manager, k, p.paymentKey, p.amount, active);
            if b.topups[k].status in {TopupConfirming, TopupUncertain} then
              && (next.Some? <==> Bookable(b, manager, k, p, active))
              && (next.Some? ==> next.value.topups == b.topups[k := b.topups[k].(status := TopupApproved)])
            else next.Some? ==> next.value == b
  {
    hide StateOk;
    KeyedTopup(s, k);
  }

  /** When the provider may say what about a top-up: as for a repair order. */
  lemma TopupProviderEffect(w: World, c: nat, reply: TopupAnswer, k: nat, outcome: Charge)
    ensures Moved(w, Answers(c, reply))
            == if c < |w.calls| && w.calls[c].answer.None? && w.calls[c].order in w.charges
                  && (var call, charge := w.calls[c], w.charges[w.calls[c].order];
                      match reply
                      case Refused => call.lookup || charge == Dead
                      case Unclear => true
                      case Reported(p) =>
                        (p.order, Some(p.paymentKey), p.amount) == (call.order, call.paymentKey, call.amount) ==>
                          (p.status == Done ==> charge == Charged) && (p.status in {Aborted, Expired} ==> charge == Dead))
               then w.(calls := w.calls[c := w.calls[c].(answer := Some(reply))]) else w
    ensures Moved(w, Decides(k, outcome))
            == if k in w.charges && w.charges[k] == Authorized && outcome in {Charged, Dead} then w.(charges := w.charges[k := outcome]) else w
  {
  }

  /** Confirming asks the provider exactly if the claim says so, and reconciling looks up exactly a
      top-up in flight of this manager. */
  lemma TopupCallEffect(w: World, manager: nat, k: nat, paymentKey: string, amount: int)
    ensures var b := w.state.books;
            var claim := ClaimTopup(b, manager, k, paymentKey, amount);
            && Moved(w, TopupRuns.Confirm(manager, k, paymentKey, amount))
               == (if claim.Some? && claim.value.1 then
                     World(w.state.(books := claim.value.0), w.charges[k := Authorized],
                           w.calls + [TopupCall(k, manager, false, Some(paymentKey), amount, None, false, false, false)])
                   else w)
            && Moved(w, TopupRuns.Reconcile(manager, k))
               == (if k < |b.topups| && b.topups[k].manager == manager && b.topups[k].status in {TopupConfirming, TopupUncertain} then
                     w.(calls := w.calls + [TopupCall(k, manager, true, b.topups[k].paymentKey, b.topups[k].amount, None, false, false, false)])
                   else w)
  {
    hide ClaimTopup;
  }
}
