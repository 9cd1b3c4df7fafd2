/** Top-ups together with the provider: every interleaving of confirmations, lookups, answers and the
    transactions that follow them, with all other commands of the machine in between. */
module TopupRuns {
  import opened Options
  import opened Types
  import opened Payments
  import opened Ledger
  import opened Platform
  import opened Invariant
  import opened Runs
  import opened TopupService
  import L = LedgerProofs

  /** Asked, answered, failed to book, or over; gaveUp says that this call set the order to FAILED. */
  datatype TopupCall = TopupCall(
    order: nat,
    manager: nat,
    lookup: bool,
    paymentKey: Option<string>,
    amount: int,
    answer: Option<TopupAnswer>,
    unbooked: bool,
    over: bool,
    gaveUp: bool)

  datatype World = World(state: State, charges: map<nat, Charge>, calls: seq<TopupCall>)

  datatype Move =
    | Elsewhere(command: Command)
    | Confirm(manager: nat, order: nat, paymentKey: string, amount: int)
    | Reconcile(manager: nat, order: nat)
    | Decides(order: nat, outcome: Charge)
    | Answers(call: nat, reply: TopupAnswer)
    | Concludes(call: nat, active: bool)

  /** The transactions that only the service issues. */
  predicate OwnTransaction(c: Command) {
    c.TryAccount? && (c.account.TryClaimTopup? || c.account.TryFinalizeTopup? || c.account.TryRejectTopup? || c.account.TryMarkTopupUncertain?)
  }

  function NewCall(k: nat, manager: nat, lookup: bool, paymentKey: Option<string>, amount: int): TopupCall {
    TopupCall(k, manager, lookup, paymentKey, amount, None, false, false, false)
  }

  function OnAccount(w: World, c: Command): World {
    w.(state := Apply(w.state, c))
  }

  function Began(w: World, manager: nat, k: nat, paymentKey: string, amount: int): World {
    var claim := ClaimTopup(w.state.books, manager, k, paymentKey, amount);
    if claim.None? || !claim.value.1 then w
    else
      OnAccount(w, TryAccount(TryClaimTopup(manager, k, paymentKey, amount))).(
        charges := w.charges[k := Authorized],
        calls := w.calls + [NewCall(k, manager, false, Some(paymentKey), amount)])
  }

  function LookedUp(w: World, manager: nat, k: nat): World {
    var b := w.state.books;
    if !Owns(b, manager, k) || !TopupInFlight(b.topups[k].status) then w
    else w.(calls := w.calls + [NewCall(k, manager, true, b.topups[k].paymentKey, b.topups[k].amount)])
  }

  function Answered(w: World, c: nat, reply: TopupAnswer): World {
    if c < |w.calls| && w.calls[c].answer.None? && w.calls[c].order in w.charges
       && HonestTopup(w.charges[w.calls[c].order], w.calls[c].lookup, w.calls[c].order, w.calls[c].paymentKey, w.calls[c].amount, reply)
    then w.(calls := w.calls[c := w.calls[c].(answer := Some(reply))]) else w
  }

  function VerdictOf(call: TopupCall): TopupVerdict
    requires call.answer.Some?
  {
    JudgeTopup(call.lookup, call.order, call.paymentKey, call.amount, call.answer.value)
  }

  /** One transaction after an answer; a booking that throws is followed by another. */
  function Persisted(w: World, c: nat, active: bool): World {
    if c >= |w.calls| || w.calls[c].answer.None? || w.calls[c].over then w
    else
      var call := w.calls[c];
      var over := w.(calls := w.calls[c := call.(over := true)]);
      var uncertain := OnAccount(over, TryAccount(TryMarkTopupUncertain(call.manager, call.order)));
      if call.unbooked then uncertain
      else
        match VerdictOf(call)
        case RejectIt =>
          var fails := Owns(w.state.books, call.manager, call.order) && TopupInFlight(w.state.books.topups[call.order].status);
          OnAccount(over, TryAccount(TryRejectTopup(call.manager, call.order))).(calls := w.calls[c := call.(over := true, gaveUp := fails)])
        case LeaveUncertain => uncertain
        case BookIt(p) =>
          if p.means.Some? && p.approvedAt.Some? && FinalizeTopup(w.state.books, call.manager, call.order, p.paymentKey, p.amount, active).Some?
          then OnAccount(over, TryAccount(TryFinalizeTopup(call.manager, call.order, p.paymentKey, p.amount, active)))
          else w.(calls := w.calls[c := call.(unbooked := true)])
  }

  function Moved(w: World, m: Move): World {
    match m
    case Elsewhere(c) => if OwnTransaction(c) then w else OnAccount(w, c)
    case Confirm(manager, k, paymentKey, amount) => Began(w, manager, k, paymentKey, amount)
    case Reconcile(manager, k) => LookedUp(w, manager, k)
    case Decides(k, outcome) =>
      if k in w.charges && w.charges[k] == Authorized && outcome != Authorized then w.(charges := w.charges[k := outcome]) else w
    case Answers(c, reply) => Answered(w, c, reply)
    case Concludes(c, active) => Persisted(w, c, active)
  }

  function Reach(tickets: seq<Ticket>, moves: seq<Move>): World {
    if moves == [] then World(Initial(tickets), map[], [])
    else Moved(Reach(tickets, moves[..|moves| - 1]), moves[|moves| - 1])
  }

  // ---- the invariant

  predicate GivenUp(calls: seq<TopupCall>, k: nat) {
    exists c :: 0 <= c < |calls| && calls[c].order == k && calls[c].gaveUp
  }

  predicate TopupOk(w: World, k: nat)
    requires k < |w.state.books.topups|
  {
    var o := w.state.books.topups[k];
    && (k in w.charges <==> o.paymentKey.Some?)
    && (o.status == TopupApproved ==> k in w.charges && w.charges[k] == Charged)
    && (o.status == TopupReady || o.status == TopupCancelled ==> o.paymentKey.None?)
    && (o.status == TopupFailed ==> GivenUp(w.calls, k))
  }

  /** A call carries the identity of a claimed order, and its answer is honest. */
  predicate CallFits(w: World, call: TopupCall) {
    && Owns(w.state.books, call.manager, call.order) && call.order in w.charges
    && var o := w.state.books.topups[call.order];
       && call.paymentKey == o.paymentKey && call.paymentKey.Some? && call.amount == o.amount && o.status != TopupReady
       && (call.answer.Some? ==> HonestTopup(w.charges[call.order], call.lookup, call.order, call.paymentKey, call.amount, call.answer.value))
       && (call.gaveUp ==> call.over && call.answer.Some? && VerdictOf(call) == RejectIt && o.status == TopupFailed)
  }

  predicate AskedOnce(calls: seq<TopupCall>) {
    forall c, d :: 0 <= c < d < |calls| && !calls[c].lookup && !calls[d].lookup ==> calls[c].order != calls[d].order
  }

  ghost predicate WorldOk(w: World) {
    && StateOk(w.state)
    && (forall k :: 0 <= k < |w.state.books.topups| ==> TopupOk(w, k))
    && (forall k :: k in w.charges ==> k < |w.state.books.topups|)
    && (forall c :: 0 <= c < |w.calls| ==> CallFits(w, w.calls[c]))
    && AskedOnce(w.calls)
  }

  lemma StepIsOk(s: State, c: Command)
    requires StateOk(s)
    ensures StateOk(Apply(s, c))
  {
    hide StateOk, StateContinues, Apply;
    StepKeeps(s, c);
  }

  /** Outside the service a top-up order is only created or, while READY, cancelled. */
  predicate Untouched(topups: seq<TopupOrder>, topups': seq<TopupOrder>) {
    && |topups| <= |topups'|
    && (forall k :: 0 <= k < |topups| ==>
          topups'[k] == topups[k] || (topups[k].status == TopupReady && topups'[k] == topups[k].(status := TopupCancelled)))
    && (forall k :: |topups| <= k < |topups'| ==> topups'[k].status == TopupReady && topups'[k].paymentKey.None?)
  }

  lemma AccountUntouched(b: Books, action: AccountAction)
    requires !(action.TryClaimTopup? || action.TryFinalizeTopup? || action.TryRejectTopup? || action.TryMarkTopupUncertain?)
    ensures OnBooks(b, action).Some? ==> Untouched(b.topups, OnBooks(b, action).value.topups)
  {
    hide CanDebit, CanCredit, ShouldAutoDebit, Sum, HasOpening;
  }

  lemma SettlementLeavesTopups(s: State, i: nat, mode: Mode, key: Key, payload: AttemptPayload, evidence: Option<Evidence>)
    requires HasRequest(s, i)
    ensures var next := SettleLocked(s, i, mode, key, payload, evidence); next.Some? ==> next.value.books.topups == s.books.topups
  {
    hide Settled, LackCredit, CanDebit;
  }

  lemma SettleLeavesTopups(s: State, i: nat, manager: nat, mode: Mode, key: Key, actor: nat, decision: Option<nat>, evidence: Option<Evidence>, now: int)
    ensures var next := Settle(s, i, manager, mode, key, actor, decision, evidence, now); next.Some? ==> next.value.books.topups == s.books.topups
  {
    hide SettlementValid, ActiveOrder, EvidenceOk, SettleLocked;
    forall d: nat | HasRequest(s, i) {
      SettlementLeavesTopups(WithAccount(s, manager), i, mode, key, SettlePayload(i, mode, actor, d, evidence), evidence);
    }
  }

  lemma EvaluationLeavesTopups(s: State, i: nat, manager: nat, decision: nat)
    ensures var next := Evaluate(s, i, manager, decision); next.Some? ==> next.value.books.topups == s.books.topups
  {
    hide SettlementValid, ActiveOrder, AwaitApproval, ShouldAutoDebit, SettleLocked;
    if HasRequest(s, i) {
      SettlementLeavesTopups(WithAccount(s, manager), i, AutoCredit, AutoSettlement(i, decision),
                             SettlePayload(i, AutoCredit, manager, decision, None), None);
    }
  }

  lemma CorrectionLeavesTopups(s: State, key: Key, payload: CorrectionPayload)
    ensures var next := Correct(s, key, payload); next.Some? ==> next.value.books.topups == s.books.topups
  {
    hide ReversedRequest, VoidedDirect, CancelledRequest, DebitMatches, CanCredit;
  }

  lemma CreditLeavesTopups(s: State, c: Command)
    requires c.TrySettle? || c.TryCorrect? || c.TryRunEvaluation?
    ensures Apply(s, c).books.topups == s.books.topups
  {
    hide Settle, Evaluate, Correct;
    match c
    case TrySettle(i, manager, mode, key, actor, decision, evidence, now) => SettleLeavesTopups(s, i, manager, mode, key, actor, decision, evidence, now);
    case TryCorrect(key, payload) => CorrectionLeavesTopups(s, key, payload);
    case TryRunEvaluation(token) =>
      if IsClaimed(s, token) && EvaluationOf(s, token).request < |s.repairs| {
        var e := EvaluationOf(s, token);
        EvaluationLeavesTopups(s, e.request, s.repairs[e.request].manager, e.decision);
      }
  }

  lemma OthersLeaveTopups(s: State, c: Command)
    requires !c.TrySettle? && !c.TryCorrect? && !c.TryRunEvaluation? && !c.TryAccount?
    ensures Apply(s, c).books == s.books
  {
    hide DirectConfirmed, Judge, OrderFinalized, OrderRejected, OrderUncertain, Act, Honest, DecideReport, ReportCompletion, Settle, Evaluate;
    if c.TryDecideReport? {
      DecisionLeavesBooks(s, c.repair, c.manager, c.approved, c.note, c.now);
    } else if c.TryReportCompletion? {
      ReportLeavesBooks(s, c.repair, c.key, c.payload, c.now);
    }
  }

  lemma DecisionLeavesBooks(s: State, i: nat, manager: nat, approved: bool, note: Option<string>, now: int)
    ensures var next := DecideReport(s, i, manager, approved, note, now); next.Some? ==> next.value.books == s.books
  {
  }

  lemma ReportLeavesBooks(s: State, i: nat, key: Key, payload: CompletionPayload, now: int)
    ensures var next := ReportCompletion(s, i, key, payload, now); next.Some? ==> next.value.books == s.books
  {
  }

  lemma ElsewhereUntouched(s: State, c: Command)
    requires !OwnTransaction(c)
    ensures Untouched(s.books.topups, Apply(s, c).books.topups)
  {
    if c.TryAccount? {
      hide OnBooks;
      AccountUntouched(s.books, c.account);
    } else {
      hide Apply;
      if c.TrySettle? || c.TryCorrect? || c.TryRunEvaluation? {
        CreditLeavesTopups(s, c);
      } else {
        OthersLeaveTopups(s, c);
      }
    }
  }

  lemma ElsewhereKeeps(w: World, c: Command)
    requires WorldOk(w) && !OwnTransaction(c)
    ensures WorldOk(OnAccount(w, c))
  {
    hide StateOk, Apply, GivenUp, HonestTopup;
    var w' := OnAccount(w, c);
    StepIsOk(w.state, c);
    ElsewhereUntouched(w.state, c);
    forall k | 0 <= k < |w'.state.books.topups| ensures TopupOk(w', k) {
      assert k < |w.state.books.topups| ==> TopupOk(w, k);
    }
    forall i | 0 <= i < |w.calls| ensures CallFits(w', w.calls[i]) {
      assert CallFits(w, w.calls[i]);
      assert TopupOk(w, w.calls[i].order);
    }
  }

  lemma BeganKeeps(w: World, manager: nat, k: nat, paymentKey: string, amount: int)
    requires WorldOk(w)
    ensures WorldOk(Began(w, manager, k, paymentKey, amount))
  {
    hide StateOk, TopupPaymentKeyTaken, GivenUp;
    var w' := Began(w, manager, k, paymentKey, amount);
    var claim := ClaimTopup(w.state.books, manager, k, paymentKey, amount);
    StepIsOk(w.state, TryAccount(TryClaimTopup(manager, k, paymentKey, amount)));
    if claim.Some? && claim.value.1 {
      Claimed(w, w', k, NewCall(k, manager, false, Some(paymentKey), amount));
    }
  }

  lemma Claimed(w: World, w': World, k: nat, call: TopupCall)
    requires WorldOk(w) && StateOk(w'.state) && k < |w.state.books.topups| && w.state.books.topups[k].status == TopupReady
    requires call.paymentKey.Some? && call.answer.None? && !call.gaveUp && call.order == k
    requires call.manager == w.state.books.topups[k].manager && call.amount == w.state.books.topups[k].amount
    requires w'.state.books.topups
             == w.state.books.topups[k := w.state.books.topups[k].(status := TopupConfirming, paymentKey := call.paymentKey)]
    requires w'.charges == w.charges[k := Authorized] && w'.calls == w.calls + [call]
    ensures WorldOk(w')
  {
    hide StateOk, GivenUp;
    assert TopupOk(w, k);
    assert forall c :: 0 <= c < |w.calls| ==> CallFits(w, w.calls[c]);
    forall j | 0 <= j < |w'.state.books.topups| ensures TopupOk(w', j) {
      assert TopupOk(w, j);
      CallAdded(w.calls, call, j);
    }
    forall c | 0 <= c < |w'.calls| ensures CallFits(w', w'.calls[c]) {
      if c < |w.calls| {
        assert CallFits(w, w.calls[c]);
      }
    }
  }

  lemma LookedUpKeeps(w: World, manager: nat, k: nat)
    requires WorldOk(w)
    ensures WorldOk(LookedUp(w, manager, k))
  {
    hide StateOk, GivenUp;
    var w' := LookedUp(w, manager, k);
    if w' != w {
      KeyedTopup(w.state, k);
      assert TopupOk(w, k);
      forall j | 0 <= j < |w'.state.books.topups| ensures TopupOk(w', j) {
        assert TopupOk(w, j);
        CallAdded(w.calls, w'.calls[|w.calls|], j);
      }
      forall c | 0 <= c < |w'.calls| ensures CallFits(w', w'.calls[c]) {
        assert c < |w.calls| ==> CallFits(w, w.calls[c]);
      }
    }
  }

  lemma KeyedTopup(s: State, k: nat)
    requires StateOk(s) && k < |s.books.topups|
    ensures TopupInFlight(s.books.topups[k].status) || s.books.topups[k].status == TopupApproved ==> s.books.topups[k].paymentKey.Some?
    ensures s.books.topups[k].status == TopupReady ==> s.books.topups[k].paymentKey.None?
    ensures TopupKey(k) in s.books.ledgerKeys <==> s.books.topups[k].status == TopupApproved
    ensures TopupPayoutEntryKey(k) in s.books.ledgerKeys ==> s.books.topups[k].status == TopupApproved
    ensures 0 <= Balance(s.books, s.books.topups[k].manager)
  {
    hide RepairsOk, OneOpen, LedgerOk, ChargesOk, CallsOk, KeysOk, EvaluationsOk, DeliveriesOk;
    L.BalanceInRange(s.books, s.books.topups[k].manager);
  }

  lemma DecidedKeeps(w: World, k: nat, outcome: Charge)
    requires WorldOk(w)
    ensures WorldOk(Moved(w, Decides(k, outcome)))
  {
    hide StateOk, GivenUp;
    var w' := Moved(w, Decides(k, outcome));
    forall j | 0 <= j < |w'.state.books.topups| ensures TopupOk(w', j) {
      assert TopupOk(w, j);
    }
    forall c | 0 <= c < |w'.calls| ensures CallFits(w', w'.calls[c]) {
      assert CallFits(w, w.calls[c]);
    }
  }

  lemma AnsweredKeeps(w: World, c: nat, reply: TopupAnswer)
    requires WorldOk(w)
    ensures WorldOk(Answered(w, c, reply))
  {
    hide StateOk, GivenUp, HonestTopup;
    var w' := Answered(w, c, reply);
    if w' != w {
      forall j | 0 <= j < |w'.state.books.topups| ensures TopupOk(w', j) {
        assert TopupOk(w, j);
        Relabelled(w.calls, c, w'.calls[c], j);
      }
      assert CallFits(w, w.calls[c]);
      forall d | 0 <= d < |w'.calls| ensures CallFits(w', w'.calls[d]) {
        assert CallFits(w, w.calls[d]);
      }
    }
  }

  /** A call that keeps its order, and whether it gave up, still explains a failed order. */
  lemma Relabelled(calls: seq<TopupCall>, c: nat, call: TopupCall, k: nat)
    requires c < |calls| && call.order == calls[c].order && (calls[c].gaveUp ==> call.gaveUp)
    ensures GivenUp(calls, k) ==> GivenUp(calls[c := call], k)
  {
    if GivenUp(calls, k) {
      var d :| 0 <= d < |calls| && calls[d].order == k && calls[d].gaveUp;
      assert calls[c := call][d].order == k;
    }
  }

  lemma CallAdded(calls: seq<TopupCall>, call: TopupCall, k: nat)
    ensures GivenUp(calls, k) ==> GivenUp(calls + [call], k)
  {
    if GivenUp(calls, k) {
      var d :| 0 <= d < |calls| && calls[d].order == k && calls[d].gaveUp;
      assert (calls + [call])[d].order == k;
    }
  }

  /** The transactions that follow an answer move one order in flight, or nothing. */
  lemma CallConcluded(w: World, w': World, c: nat, status: TopupStatus, gaveUp: bool)
    requires WorldOk(w) && StateOk(w'.state) && c < |w.calls| && w.calls[c].order < |w.state.books.topups|
    requires var k, call := w.calls[c].order, w.calls[c];
             var o := w.state.books.topups[k];
             && w'.charges == w.charges && w'.state.books.topups == w.state.books.topups[k := o.(status := status)]
             && |w'.calls| == |w.calls| && w'.calls == w.calls[c := w'.calls[c]]
             && w'.calls[c] == call.(over := w'.calls[c].over, unbooked := w'.calls[c].unbooked, gaveUp := gaveUp)
             && (status == o.status || (TopupInFlight(o.status) && (status == TopupUncertain || status == TopupFailed || status == TopupApproved)))
             && (status == TopupApproved && o.status != TopupApproved ==> k in w.charges && w.charges[k] == Charged)
             && (status == TopupFailed && o.status != TopupFailed ==> gaveUp)
             && (call.gaveUp ==> gaveUp)
             && (gaveUp ==> w'.calls[c].over && call.answer.Some? && VerdictOf(call) == RejectIt && status == TopupFailed)
    ensures WorldOk(w')
  {
    hide StateOk, GivenUp, HonestTopup;
    var k := w.calls[c].order;
    assert CallFits(w, w.calls[c]);
    forall j | 0 <= j < |w'.state.books.topups| ensures TopupOk(w', j) {
      assert TopupOk(w, j);
      Relabelled(w.calls, c, w'.calls[c], j);
      GaveUpHere(w'.calls, c);
    }
    forall d | 0 <= d < |w'.calls| ensures CallFits(w', w'.calls[d]) {
      assert CallFits(w, w.calls[d]);
    }
  }

  lemma GaveUpHere(calls: seq<TopupCall>, c: nat)
    requires c < |calls|
    ensures calls[c].gaveUp ==> GivenUp(calls, calls[c].order)
  {
  }

  lemma PersistedKeeps(w: World, c: nat, active: bool)
    requires WorldOk(w)
    ensures WorldOk(Persisted(w, c, active))
  {
    hide WorldOk, JudgeTopup, OnAccount, FinalizeTopup;
    if c < |w.calls| && w.calls[c].answer.Some? && !w.calls[c].over {
      var verdict := VerdictOf(w.calls[c]);
      if verdict == RejectIt && !w.calls[c].unbooked {
        RejectionKeeps(w, c, active);
      } else if verdict.BookIt? && !w.calls[c].unbooked {
        BookingKeeps(w, c, active);
      } else {
        UncertaintyKeeps(w, c, active);
      }
    }
  }

  lemma RejectionKeeps(w: World, c: nat, active: bool)
    requires WorldOk(w) && c < |w.calls| && w.calls[c].answer.Some? && !w.calls[c].over && !w.calls[c].unbooked && VerdictOf(w.calls[c]) == RejectIt
    ensures WorldOk(Persisted(w, c, active))
  {
    hide StateOk, GivenUp, JudgeTopup, HonestTopup;
    var call := w.calls[c];
    var topups := w.state.books.topups;
    assert CallFits(w, call);
    assert topups[call.order := topups[call.order]] == topups;
    StepIsOk(w.state, TryAccount(TryRejectTopup(call.manager, call.order)));
    var fails := TopupInFlight(topups[call.order].status);
    CallConcluded(w, Persisted(w, c, active), c, if fails then TopupFailed else topups[call.order].status, fails);
  }

  lemma UncertaintyKeeps(w: World, c: nat, active: bool)
    requires WorldOk(w) && c < |w.calls| && w.calls[c].answer.Some? && !w.calls[c].over
    requires w.calls[c].unbooked || VerdictOf(w.calls[c]) == LeaveUncertain
    ensures WorldOk(Persisted(w, c, active))
  {
    hide StateOk, GivenUp, JudgeTopup, HonestTopup;
    var call := w.calls[c];
    var topups := w.state.books.topups;
    assert CallFits(w, call);
    assert topups[call.order := topups[call.order]] == topups;
    StepIsOk(w.state, TryAccount(TryMarkTopupUncertain(call.manager, call.order)));
    var marked := topups[call.order].status == TopupConfirming;
    CallConcluded(w, Persisted(w, c, active), c, if marked then TopupUncertain else topups[call.order].status, call.gaveUp);
  }

  lemma BookingKeeps(w: World, c: nat, active: bool)
    requires WorldOk(w) && c < |w.calls| && w.calls[c].answer.Some? && !w.calls[c].over && !w.calls[c].unbooked && VerdictOf(w.calls[c]).BookIt?
    ensures WorldOk(Persisted(w, c, active))
  {
    hide StateOk, GivenUp, FinalizeTopup;
    var call := w.calls[c];
    var b := w.state.books;
    assert CallFits(w, call);
    var p := VerdictOf(call).payment;
    assert b.topups[call.order := b.topups[call.order]] == b.topups;
    var booked := FinalizeTopup(b, call.manager, call.order, p.paymentKey, p.amount, active);
    if p.means.Some? && p.approvedAt.Some? && booked.Some? {
      StepIsOk(w.state, TryAccount(TryFinalizeTopup(call.manager, call.order, p.paymentKey, p.amount, active)));
      BookingApproves(b, call.manager, call.order, p.paymentKey, p.amount, active);
      BookingIsJustified(w.charges[call.order], call.lookup, call.order, call.paymentKey, call.amount, call.answer.value);
      CallConcluded(w, Persisted(w, c, active), c, TopupApproved, call.gaveUp);
    } else {
      CallConcluded(w, Persisted(w, c, active), c, b.topups[call.order].status, call.gaveUp);
    }
  }

  lemma BookingApproves(b: Books, manager: nat, k: nat, paymentKey: string, amount: int, active: bool)
    requires FinalizeTopup(b, manager, k, paymentKey, amount, active).Some?
    ensures k < |b.topups| && (TopupInFlight(b.topups[k].status) || b.topups[k].status == TopupApproved)
    ensures FinalizeTopup(b, manager, k, paymentKey, amount, active).value.topups == b.topups[k := b.topups[k].(status := TopupApproved)]
  {
    assert b.topups[k := b.topups[k]] == b.topups;
  }

  lemma {:induction false} WorldIsOk(tickets: seq<Ticket>, moves: seq<Move>)
    ensures WorldOk(Reach(tickets, moves))
  {
    hide StateOk, Apply, Began, LookedUp, Answered, Persisted;
    if moves == [] {
      InitialOk(tickets);
    } else {
      var n := |moves| - 1;
      var w := Reach(tickets, moves[..n]);
      WorldIsOk(tickets, moves[..n]);
      hide WorldOk;
      match moves[n]
      case Elsewhere(c) =>
        if !OwnTransaction(c) {
          ElsewhereKeeps(w, c);
        }
      case Confirm(manager, k, paymentKey, amount) => BeganKeeps(w, manager, k, paymentKey, amount);
      case Reconcile(manager, k) => LookedUpKeeps(w, manager, k);
      case Decides(k, outcome) => DecidedKeeps(w, k, outcome);
      case Answers(c, reply) => AnsweredKeeps(w, c, reply);
      case Concludes(c, active) => PersistedKeeps(w, c, active);
    }
  }

  // ---- the results

  /** An answer that an honest provider may give about a charged top-up, and that the service takes for
      the end of it. */
  predicate Misleading(call: TopupCall) {
    && call.lookup && call.answer.Some?
    && match call.answer.value
       case Refused => true
       case Unclear => false
       case Reported(p) => (p.status == Aborted || p.status == Expired) && !Matches(p, call.order, call.paymentKey, call.amount)
  }

  /** In every reachable world a charged top-up is in flight or approved, unless a call gave it up, and
      then that call acted on a refused lookup or on an aborted or expired report about another
      payment. */
  lemma ChargedIsLostOnlyByMisleading(tickets: seq<Ticket>, moves: seq<Move>, k: nat)
    ensures var w := Reach(tickets, moves);
            k in w.charges && w.charges[k] == Charged ==>
              && k < |w.state.books.topups|
              && var status := w.state.books.topups[k].status;
                 && (TopupInFlight(status) || status == TopupApproved || status == TopupFailed)
                 && (status == TopupFailed <==> GivenUp(w.calls, k))
                 && forall c :: 0 <= c < |w.calls| && w.calls[c].order == k && w.calls[c].gaveUp ==> Misleading(w.calls[c])
  {
    hide StateOk, Reach;
    var w := Reach(tickets, moves);
    WorldIsOk(tickets, moves);
    if k in w.charges {
      assert TopupOk(w, k);
      forall c | 0 <= c < |w.calls| && w.calls[c].order == k && w.calls[c].gaveUp
        ensures w.state.books.topups[k].status == TopupFailed && (w.charges[k] == Charged ==> Misleading(w.calls[c]))
      {
        assert CallFits(w, w.calls[c]);
        var call := w.calls[c];
        RejectionIsSafe(call.lookup, call.order, call.paymentKey, call.amount, call.answer.value);
      }
    }
  }

  /** A top-up is approved only if the provider has charged it, whatever raced. */
  lemma ApprovedIsCharged(tickets: seq<Ticket>, moves: seq<Move>, k: nat)
    ensures var w := Reach(tickets, moves);
            k < |w.state.books.topups| && w.state.books.topups[k].status == TopupApproved ==> k in w.charges && w.charges[k] == Charged
  {
    hide StateOk, Reach;
    var w := Reach(tickets, moves);
    WorldIsOk(tickets, moves);
    assert k < |w.state.books.topups| ==> TopupOk(w, k);
  }

  /** However confirmations, lookups and cancellations race, the provider is asked to confirm a top-up at
      most once. */
  lemma ConfirmedAtMostOnce(tickets: seq<Ticket>, moves: seq<Move>, c: nat, d: nat)
    ensures var calls := Reach(tickets, moves).calls;
            c < |calls| && d < |calls| && !calls[c].lookup && !calls[d].lookup && calls[c].order == calls[d].order ==> c == d
  {
    hide StateOk, Reach;
    WorldIsOk(tickets, moves);
  }

  /** A charged top-up can be lost: the confirmation's answer never arrives, the payment goes through,
      the lookup is refused, and the order is FAILED for good. */
  lemma ChargedTopupCanBeLost()
    ensures exists moves ::
              var w := Reach([], moves);
              && 0 in w.charges && w.charges[0] == Charged
              && |w.state.books.topups| == 1 && w.state.books.topups[0].status == TopupFailed
  {
    hide Moved, Reach;
    var start: seq<Move> := [];
    var m0 := Elsewhere(TryAccount(TryCreateTopup(0, 1, Client("a"), None, "", true)));
    var m1 := Confirm(0, 0, "p", 1);
    ReachStart();
    ReachNext(start, m0);
    ReachNext(start + [m0], m1);
    ReachNext(start + [m0] + [m1], Decides(0, Charged));
    ReachNext(start + [m0] + [m1] + [Decides(0, Charged)], Reconcile(0, 0));
    ReachNext(start + [m0] + [m1] + [Decides(0, Charged)] + [Reconcile(0, 0)], Answers(1, Refused));
    ReachNext(start + [m0] + [m1] + [Decides(0, Charged)] + [Reconcile(0, 0)] + [Answers(1, Refused)], Concludes(1, true));
    PaidBy(Reach([], start), m0, m1);
    LostBy(Reach([], start + [m0] + [m1] + [Decides(0, Charged)]));
  }

  lemma ReachStart()
    ensures Reach([], []) == World(Initial([]), map[], [])
  {
  }

  lemma ReachNext(moves: seq<Move>, m: Move)
    ensures Reach([], moves + [m]) == Moved(Reach([], moves), m)
  {
    hide Moved;
    assert (moves + [m])[..|moves|] == moves;
  }

  lemma PaidBy(w: World, m0: Move, m1: Move)
    requires w == World(Initial([]), map[], [])
    requires m0 == Elsewhere(TryAccount(TryCreateTopup(0, 1, Client("a"), None, "", true))) && m1 == Confirm(0, 0, "p", 1)
    ensures var paid := Moved(Moved(Moved(w, m0), m1), Decides(0, Charged));
            && paid.state.books.topups == [TopupOrder(0, 1, TopupConfirming, None, "", Some("p"))]
            && paid.charges == map[0 := Charged] && |paid.calls| == 1
  {
    hide Apply;
    var w0 := Moved(w, m0);
    AppliedOn(w.state, TryCreateTopup(0, 1, Client("a"), None, "", true));
    assert w0.state.books.topups == [TopupOrder(0, 1, TopupReady, None, "", None)];
    AppliedOn(w0.state, TryClaimTopup(0, 0, "p", 1));
    assert Moved(w0, m1).charges == map[0 := Authorized];
  }

  lemma LostBy(w: World)
    requires w.state.books.topups == [TopupOrder(0, 1, TopupConfirming, None, "", Some("p"))]
    requires w.charges == map[0 := Charged] && |w.calls| == 1
    ensures var lost := Moved(Moved(Moved(w, Reconcile(0, 0)), Answers(1, Refused)), Concludes(1, true));
            lost.charges == w.charges && |lost.state.books.topups| == 1 && lost.state.books.topups[0].status == TopupFailed
  {
    hide Apply;
    var asked := Moved(w, Reconcile(0, 0));
    assert asked.calls[1] == NewCall(0, 0, true, Some("p"), 1);
    var answered := Moved(asked, Answers(1, Refused));
    assert answered.calls[1] == NewCall(0, 0, true, Some("p"), 1).(answer := Some(Refused));
    AppliedOn(answered.state, TryRejectTopup(0, 0));
  }

  lemma AppliedOn(s: State, action: AccountAction)
    ensures Apply(s, TryAccount(action)) == s.(books := Or(OnBooks(s.books, action), s.books))
  {
    hide OnBooks;
  }

  // ---- how often a claim says to ask the provider

  predicate Asks(s: State, c: Command, k: nat) {
    && c.TryAccount? && c.account.TryClaimTopup? && c.account.order == k
    && var claim := ClaimTopup(s.books, c.account.manager, k, c.account.paymentKey, c.account.amount); claim.Some? && claim.value.1
  }

  function AskCount(s: State, commands: seq<Command>, k: nat): nat {
    if commands == [] then 0
    else
      var n := |commands| - 1;
      AskCount(s, commands[..n], k) + if Asks(Run(s, commands[..n]), commands[n], k) then 1 else 0
  }

  predicate Keyed(s: State, k: nat) {
    k < |s.books.topups| && s.books.topups[k].paymentKey.Some?
  }

  lemma StepAsks(s: State, c: Command, k: nat)
    requires StateOk(s)
    ensures Keyed(Apply(s, c), k) <==> Keyed(s, k) || Asks(s, c, k)
    ensures Asks(s, c, k) ==> !Keyed(s, k)
  {
    hide StateOk, Apply, Asks;
    if OwnTransaction(c) {
      OwnAsks(s, c, k);
    } else {
      ElsewhereUntouched(s, c);
      AsksIsOwn(s, c, k);
    }
  }

  lemma AsksIsOwn(s: State, c: Command, k: nat)
    ensures Asks(s, c, k) ==> OwnTransaction(c)
  {
  }

  lemma OwnAsks(s: State, c: Command, k: nat)
    requires StateOk(s) && OwnTransaction(c)
    ensures Keyed(Apply(s, c), k) <==> Keyed(s, k) || Asks(s, c, k)
    ensures Asks(s, c, k) ==> !Keyed(s, k)
  {
    hide StateOk, Apply, OnBooks, ClaimTopup;
    AppliedOn(s, c.account);
    if k < |s.books.topups| {
      KeyedTopup(s, k);
    }
    match c.account
    case TryClaimTopup(manager, j, paymentKey, amount) => ClaimKeys(s.books, manager, j, paymentKey, amount);
    case TryFinalizeTopup(_, _, _, _, _) => OthersKeepKeys(s.books, c.account);
    case TryRejectTopup(_, _) => OthersKeepKeys(s.books, c.account);
    case TryMarkTopupUncertain(_, _) => OthersKeepKeys(s.books, c.account);
  }

  lemma ClaimKeys(b: Books, manager: nat, k: nat, paymentKey: string, amount: int)
    ensures var next := OnBooks(b, TryClaimTopup(manager, k, paymentKey, amount));
            var claim := ClaimTopup(b, manager, k, paymentKey, amount);
            && (next.Some? <==> claim.Some?)
            && (claim.Some? && !claim.value.1 ==> next == Some(b))
            && (claim.Some? && claim.value.1 ==>
                  && k < |b.topups| && b.topups[k].status == TopupReady
                  && next.value.topups == b.topups[k := b.topups[k].(status := TopupConfirming, paymentKey := Some(paymentKey))])
  {
    hide TopupPaymentKeyTaken;
  }

  lemma OthersKeepKeys(b: Books, action: AccountAction)
    requires action.TryFinalizeTopup? || action.TryRejectTopup? || action.TryMarkTopupUncertain?
    ensures var next := OnBooks(b, action);
            next.Some? ==>
              |next.value.topups| == |b.topups| && forall k :: 0 <= k < |b.topups| ==> next.value.topups[k].paymentKey == b.topups[k].paymentKey
  {
    hide CanCredit, CanDebit;
  }

  /** Over any run, claims of a top-up answer "ask the provider" exactly once if it has a payment key by
      then, and never otherwise. */
  lemma {:induction false} AskedExactlyOnce(tickets: seq<Ticket>, commands: seq<Command>, k: nat)
    ensures AskCount(Initial(tickets), commands, k) == if Keyed(Run(Initial(tickets), commands), k) then 1 else 0
  {
    hide StateOk, Apply, Asks, Keyed;
    if commands == [] {
      NoTopups(tickets, k);
    } else {
      var n := |commands| - 1;
      AskedExactlyOnce(tickets, commands[..n], k);
      Reachable(tickets, commands[..n]);
      StepAsks(Run(Initial(tickets), commands[..n]), commands[n], k);
    }
  }

  lemma NoTopups(tickets: seq<Ticket>, k: nat)
    ensures !Keyed(Initial(tickets), k)
  {
  }

  // ---- the service

  /** What the service does with an answer, when nothing comes between its transactions. */
  lemma ServiceIsRun(w: World, c: nat, active: bool)
    requires c < |w.calls| && w.calls[c].answer.Some? && !w.calls[c].over && !w.calls[c].unbooked
    ensures |Persisted(w, c, active).calls| == |w.calls|
    ensures var once := Persisted(w, c, active);
            var after := if once.calls[c].unbooked then Persisted(once, c, active) else once;
            after.state.books == Concluded(w.state.books, w.calls[c].manager, w.calls[c].order, VerdictOf(w.calls[c]), active)
  {
    hide JudgeTopup, Apply, FinalizeTopup, RejectTopup, MarkTopupUncertain;
    var call := w.calls[c];
    AppliedOn(w.state, TryMarkTopupUncertain(call.manager, call.order));
    AppliedOn(w.state, TryRejectTopup(call.manager, call.order));
    if VerdictOf(call).BookIt? {
      var p := VerdictOf(call).payment;
      AppliedOn(w.state, TryFinalizeTopup(call.manager, call.order, p.paymentKey, p.amount, active));
    }
  }

  /** What can stop a charged top-up from being booked: a report without method or time, a balance that
      the credit would take past the limit, and for a Gara top-up a vendor that can no longer be paid or
      a payout that already took its key. */
  predicate Bookable(b: Books, manager: nat, k: nat, p: TopupPayment, active: bool)
    requires k < |b.topups|
  {
    && p.means.Some? && p.approvedAt.Some?
    && Balance(b, manager) + p.amount <= MAX_SAFE_CREDIT_BALANCE
    && (b.topups[k].registration.Some? ==> active && TopupPayout(k) !in b.payoutKeys)
  }

  /** In every reachable state a top-up in flight that the provider reports done is approved exactly
      when it can be booked, and otherwise is left to be reconciled: no other check of the booking
      fails, neither the ledger keys nor the debit of a Gara top-up. */
  lemma BookingSucceeds(tickets: seq<Ticket>, commands: seq<Command>, manager: nat, k: nat, p: TopupPayment, active: bool)
    requires var b := Run(Initial(tickets), commands).books;
             Owns(b, manager, k) && TopupInFlight(b.topups[k].status) && Matches(p, k, b.topups[k].paymentKey, b.topups[k].amount)
    ensures var b := Run(Initial(tickets), commands).books;
            var b' := Concluded(b, manager, k, BookIt(p), active);
            k < |b'.topups| && b'.topups[k].status == if Bookable(b, manager, k, p, active) then TopupApproved else TopupUncertain
  {
    hide StateOk, Run;
    Reachable(tickets, commands);
    KeyedTopup(Run(Initial(tickets), commands), k);
  }
}
