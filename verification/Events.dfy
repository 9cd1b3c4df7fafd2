/** The domain events that the transactions enqueue, each under a key that must be new.

    enqueue() keeps the first event of a key and refuses another payload under it. That every key is
    enqueued once means that neither ever happens.
 */
module Events {
  import opened Options
  import opened Types
  import opened Workflow
  import opened Payments
  import opened Ledger
  import opened Platform
  import opened Invariant
  import opened Runs
  import R = RequestSteps
  import O = OrderSteps
  import L = LedgerProofs
  import P = PaymentProofs
  import W = WorkflowProofs

  /** A fixed prefix and the ids that follow it. */
  datatype EventKey =
    | JobAssigned(repair: nat)
    | EstimateSent(repair: nat, estimate: nat, revised: bool)
    | EstimateReviewed(repair: nat, estimate: nat, party: Party, outcome: EstimateStatus)
    | CompletionSubmitted(repair: nat, report: nat)
    | CompletionDecided(repair: nat, report: nat, party: Party, approved: bool)
    | RequestCreated(request: nat, payer: Party)
    | PaymentState(request: nat, state: AuditKey)
    | TopupDone(order: nat, approved: bool)

  /** What happens once: an estimate is sent once and answered once, by one party; a report is decided
      once, one way; a request is created once; a top-up is either approved or failed. */
  function Subject(key: EventKey): EventKey {
    match key
    case EstimateSent(i, e, _) => EstimateSent(i, e, false)
    case EstimateReviewed(i, e, _, _) => EstimateReviewed(i, e, Manager, Approved)
    case CompletionDecided(i, k, _, _) => CompletionDecided(i, k, Manager, true)
    case RequestCreated(i, _) => RequestCreated(i, Manager)
    case TopupDone(k, _) => TopupDone(k, true)
    case JobAssigned(_) | CompletionSubmitted(_, _) | PaymentState(_, _) => key
  }

  // ---- what one command enqueues

  predicate Undecided(r: Repair) {
    r.reports != [] && r.reports[|r.reports| - 1].decision.None?
  }

  function WorkEvents(r: Repair, i: nat, action: Action): seq<EventKey> {
    match action
    case TrySubmit(_, e) =>
      if e < |r.estimates| && r.estimates[e].status == Draft then [EstimateSent(i, e, r.estimates[e].version > 1)] else []
    case TryReviewByManager(_, e, review, _) =>
      if e < |r.estimates| && r.estimates[e].status != Target(review) then [EstimateReviewed(i, e, Manager, Target(review))] else []
    case TryReviewByTenant(_, e, approve, _) =>
      var target := if approve then Approved else RevisionRequested;
      if e < |r.estimates| && r.estimates[e].status != target then [EstimateReviewed(i, e, Tenant, target)] else []
    case TryDecideByTenant(_, approved, _, _) =>
      if Undecided(r) then
        [CompletionDecided(i, |r.reports| - 1, Tenant, approved)] + if approved then [RequestCreated(i, Tenant)] else []
      else []
    case _ => []
  }

  /** A payment event is enqueued together with a new row of the audit trail. */
  function PaymentEvents(s: State, s': State, i: nat): seq<EventKey> {
    if HasRequest(s, i) && HasRequest(s', i) then
      var before, after := s.repairs[i].request.value.events, s'.repairs[i].request.value.events;
      if |before| <= |after| then seq(|after| - |before|, k requires 0 <= k < |after| - |before| => PaymentState(i, after[|before| + k]))
      else []
    else []
  }

  function AccountEvents(b: Books, action: AccountAction): seq<EventKey> {
    match action
    case TryFinalizeTopup(_, k, _, _, _) => if k < |b.topups| && b.topups[k].status != TopupApproved then [TopupDone(k, true)] else []
    case TryRejectTopup(_, k) => if k < |b.topups| && b.topups[k].status != TopupFailed then [TopupDone(k, false)] else []
    case _ => []
  }

  function ReportEvents(r: Repair, i: nat): seq<EventKey> {
    [CompletionSubmitted(i, |r.reports|)] + if r.costBearer == Some(LandlordPays) && r.request.None? then [RequestCreated(i, Manager)] else []
  }

  function Enqueued(s: State, c: Command): seq<EventKey> {
    var next := Step(s, c);
    if next.None? then []
    else
      match c
      case TryAssignVendor(_, _, _, _, _) => if |next.value.repairs| > |s.repairs| then [JobAssigned(|s.repairs|)] else []
      case TryRequestVendor(_, _, _, _, _, _) => if |next.value.repairs| > |s.repairs| then [JobAssigned(|s.repairs|)] else []
      case TryWork(i, action) => if i < |s.repairs| then WorkEvents(s.repairs[i], i, action) else []
      case TryReportCompletion(i, key, _, _) =>
        if i < |s.repairs| && key !in s.keys.submissions then ReportEvents(s.repairs[i], i) else []
      case TryDecideReport(i, _, approved, _, _) =>
        if i < |s.repairs| && Undecided(s.repairs[i]) then [CompletionDecided(i, |s.repairs[i].reports| - 1, Manager, approved)] else []
      case TrySettle(i, _, _, _, _, _, _, _) => PaymentEvents(s, next.value, i)
      case TryCorrect(_, payload) => PaymentEvents(s, next.value, payload.request)
      case TryConfirmDirect(i, _) => PaymentEvents(s, next.value, i)
      case TryPersist(call) => if call < |s.calls| then PaymentEvents(s, next.value, s.calls[call].ref.request) else []
      case TryRunEvaluation(token) => if IsClaimed(s, token) then PaymentEvents(s, next.value, EvaluationOf(s, token).request) else []
      case TryAccount(action) => AccountEvents(s.books, action)
      case _ => []
  }

  /** All keys that a run enqueues, in order. */
  function Log(s: State, commands: seq<Command>): seq<EventKey> {
    if commands == [] then []
    else
      var n := |commands| - 1;
      Log(s, commands[..n]) + Enqueued(Run(s, commands[..n]), commands[n])
  }

  // ---- what shows that a key was used

  predicate Happened(s: State, key: EventKey) {
    match key
    case JobAssigned(i) => i < |s.repairs|
    case EstimateSent(i, e, _) => i < |s.repairs| && e < |s.repairs[i].estimates| && s.repairs[i].estimates[e].status != Draft
    case EstimateReviewed(i, e, _, _) => i < |s.repairs| && e < |s.repairs[i].estimates| && W.Answered(s.repairs[i].estimates[e])
    case CompletionSubmitted(i, k) => i < |s.repairs| && k < |s.repairs[i].reports|
    case CompletionDecided(i, k, _, _) => i < |s.repairs| && k < |s.repairs[i].reports| && s.repairs[i].reports[k].decision.Some?
    case RequestCreated(i, _) => HasRequest(s, i)
    case PaymentState(i, state) => HasRequest(s, i) && state in s.repairs[i].request.value.events
    case TopupDone(k, _) => k < |s.books.topups| && (s.books.topups[k].status == TopupApproved || s.books.topups[k].status == TopupFailed)
  }

  lemma HappenedStays(s: State, s': State, key: EventKey)
    requires StateContinues(s, s') && Happened(s, key)
    ensures Happened(s', key)
  {
    hide OrdersContinue, AccountContinues, KeysContinue;
    match key
    case TopupDone(k, _) =>
      TopupLater(s.books, s'.books, k);
    case JobAssigned(i) =>
    case PaymentState(i, _) => assert RepairContinues(s.repairs[i], s'.repairs[i]);
    case EstimateSent(i, e, _) => EstimateLater(s, s', i, e);
    case EstimateReviewed(i, e, _, _) => EstimateLater(s, s', i, e);
    case CompletionSubmitted(i, _) => assert RepairContinues(s.repairs[i], s'.repairs[i]);
    case CompletionDecided(i, _, _, _) => assert RepairContinues(s.repairs[i], s'.repairs[i]);
    case RequestCreated(i, _) => assert RepairContinues(s.repairs[i], s'.repairs[i]);
  }

  lemma TopupLater(b: Books, b': Books, k: nat)
    requires AccountContinues(b, b') && k < |b.topups|
    ensures k < |b'.topups| && L.TopupContinues(b.topups[k], b'.topups[k])
  {
  }

  lemma EstimateLater(s: State, s': State, i: nat, e: nat)
    requires StateContinues(s, s') && i < |s.repairs| && e < |s.repairs[i].estimates|
    ensures i < |s'.repairs| && e < |s'.repairs[i].estimates|
    ensures W.EstimateContinues(s.repairs[i].estimates[e], s'.repairs[i].estimates[e])
  {
    hide OrdersContinue, AccountContinues, KeysContinue, W.EstimateContinues;
    assert RepairContinues(s.repairs[i], s'.repairs[i]);
  }

  // ---- one command

  /** What is enqueued had not happened before, has happened now, and is enqueued once. */
  predicate News(s: State, s': State, keys: seq<EventKey>) {
    && (forall a :: 0 <= a < |keys| ==> !Happened(s, keys[a]) && Happened(s', keys[a]))
    && (forall a, b :: 0 <= a < b < |keys| ==> Subject(keys[a]) != Subject(keys[b]))
  }

  lemma SameSubject(s: State, key: EventKey, other: EventKey)
    requires Subject(key) == Subject(other)
    ensures Happened(s, key) <==> Happened(s, other)
  {
  }

  lemma WorkNews(s: State, i: nat, action: Action)
    requires i < |s.repairs| && Act(s.repairs[i], action).Some?
    ensures News(s, WithRepair(s, i, Act(s.repairs[i], action).value), WorkEvents(s.repairs[i], i, action))
  {
    hide FindApproved, Latest, HasPending, SaveDraft;
  }

  lemma ReportNews(s: State, i: nat, key: Key, payload: CompletionPayload, now: int)
    requires ReportCompletion(s, i, key, payload, now).Some? && key !in s.keys.submissions
    ensures News(s, ReportCompletion(s, i, key, payload, now).value, ReportEvents(s.repairs[i], i))
  {
    hide FindApproved, HasPending;
  }

  lemma DecisionNews(s: State, i: nat, manager: nat, approved: bool, note: Option<string>, now: int)
    requires DecideReport(s, i, manager, approved, note, now).Some? && Undecided(s.repairs[i])
    ensures News(s, DecideReport(s, i, manager, approved, note, now).value, [CompletionDecided(i, |s.repairs[i].reports| - 1, Manager, approved)])
  {
  }

  lemma AccountNews(s: State, action: AccountAction)
    requires Account(s, action).Some?
    ensures News(s, Account(s, action).value, AccountEvents(s.books, action))
  {
    hide CanCredit, CanDebit, Sum, HasOpening;
  }

  lemma PaymentNews(s: State, s': State, i: nat)
    requires StateOk(s') && StateContinues(s, s')
    ensures News(s, s', PaymentEvents(s, s', i))
  {
    hide StateOk, OrdersContinue, W.Continues, AccountContinues, KeysContinue, P.BooksAgree, P.AttemptsOk, P.OrdersOk, W.WorkflowOk;
    if HasRequest(s, i) && HasRequest(s', i) {
      R.RequestIsOk(s', i);
      assert RepairContinues(s.repairs[i], s'.repairs[i]);
    }
  }

  lemma AssignmentNews(s: State, s': State)
    ensures News(s, s', if |s'.repairs| > |s.repairs| then [JobAssigned(|s.repairs|)] else [])
  {
  }

  lemma StepNews(s: State, c: Command)
    requires StateOk(s)
    ensures News(s, Apply(s, c), Enqueued(s, c))
  {
    hide StateOk, StateContinues, News, AssignVendor, RequestVendor, Act, ReportCompletion, DecideReport, Settle, Correct, RequestDirect,
         ConfirmDirect, CreateOrder, RetryOrder, CancelOrder, BeginConfirm, BeginReconcile, ProviderMoves, ReceiveAnswer, Persist,
         Account, ClaimDeliveries, RunEvaluation, FinishDelivery, GiveBackDelivery, WorkEvents, ReportEvents, AccountEvents, PaymentEvents;
    StepKeeps(s, c);
    var s' := Apply(s, c);
    NoNews(s, s');
    if Step(s, c).Some? {
      match c
      case TryAssignVendor(_, _, _, _, _) => AssignmentNews(s, s');
      case TryRequestVendor(_, _, _, _, _, _) => AssignmentNews(s, s');
      case TryWork(i, action) => WorkNews(s, i, action);
      case TryReportCompletion(i, key, payload, now) => if i < |s.repairs| && key !in s.keys.submissions { ReportNews(s, i, key, payload, now); }
      case TryDecideReport(i, manager, approved, note, now) =>
        if i < |s.repairs| && Undecided(s.repairs[i]) { DecisionNews(s, i, manager, approved, note, now); }
      case TryAccount(action) => AccountNews(s, action);
      case TrySettle(i, _, _, _, _, _, _, _) => PaymentNews(s, s', i);
      case TryCorrect(_, payload) => PaymentNews(s, s', payload.request);
      case TryConfirmDirect(i, _) => PaymentNews(s, s', i);
      case TryPersist(call) => if call < |s.calls| { PaymentNews(s, s', s.calls[call].ref.request); }
      case TryRunEvaluation(token) => if IsClaimed(s, token) { PaymentNews(s, s', EvaluationOf(s, token).request); }
      case _ =>
    }
  }

  lemma NoNews(s: State, s': State)
    ensures News(s, s', [])
  {
  }

  // ---- the results

  /** In every run each event key is enqueued at most once, and so is any key that would contradict it:
      the refusal of "same key, different payload" cannot happen. Whatever was enqueued has happened. */
  lemma {:induction false} KeysAreEnqueuedOnce(tickets: seq<Ticket>, commands: seq<Command>)
    ensures var log := Log(Initial(tickets), commands);
            && (forall a, b :: 0 <= a < b < |log| ==> Subject(log[a]) != Subject(log[b]))
            && (forall a :: 0 <= a < |log| ==> Happened(Run(Initial(tickets), commands), log[a]))
  {
    hide Log, Run, Happened, Subject;
    RunIsLogged(tickets, commands);
  }

  predicate Logged(s: State, log: seq<EventKey>) {
    && (forall a, b :: 0 <= a < b < |log| ==> Subject(log[a]) != Subject(log[b]))
    && (forall a :: 0 <= a < |log| ==> Happened(s, log[a]))
  }

  lemma {:induction false} RunIsLogged(tickets: seq<Ticket>, commands: seq<Command>)
    ensures Logged(Run(Initial(tickets), commands), Log(Initial(tickets), commands))
  {
    hide StateOk, StateContinues, Apply, Enqueued, News;
    if commands == [] {
    } else {
      var n := |commands| - 1;
      var s := Run(Initial(tickets), commands[..n]);
      hide Logged;
      RunIsLogged(tickets, commands[..n]);
      Reachable(tickets, commands[..n]);
      StepKeeps(s, commands[n]);
      StepNews(s, commands[n]);
      Appended(s, Apply(s, commands[n]), Log(Initial(tickets), commands[..n]), Enqueued(s, commands[n]));
    }
  }

  lemma Appended(s: State, s': State, log: seq<EventKey>, keys: seq<EventKey>)
    requires StateContinues(s, s') && News(s, s', keys) && Logged(s, log)
    ensures Logged(s', log + keys)
  {
    hide StateContinues, Happened, Subject;
    forall a | 0 <= a < |log| ensures Happened(s', log[a]) {
      HappenedStays(s, s', log[a]);
    }
    forall a, b | 0 <= a < |log| && 0 <= b < |keys| ensures Subject(log[a]) != Subject(keys[b]) {
      if Subject(log[a]) == Subject(keys[b]) {
        SameSubject(s, log[a], keys[b]);
      }
    }
  }

  /** No request is ever enqueued twice for credit evaluation, whichever decision it is for. */
  lemma EvaluationsAreEnqueuedOnce(tickets: seq<Ticket>, commands: seq<Command>, c: nat, d: nat)
    ensures var evaluations := Run(Initial(tickets), commands).evaluations;
            c < |evaluations| && d < |evaluations| && evaluations[c].request == evaluations[d].request ==> c == d
  {
    hide StateOk, Run, L.BooksOk, LedgerOk;
    var s := Run(Initial(tickets), commands);
    Reachable(tickets, commands);
    OnceOf(s);
  }

  lemma OnceOf(s: State)
    requires StateOk(s)
    ensures EvaluatedOnce(s.evaluations)
  {
    hide RepairsOk, OneOpen, L.BooksOk, LedgerOk, ChargesOk, CallsOk, KeysOk;
  }

  // ---- the log is complete for payments

  function EventsOf(s: State, i: nat): seq<AuditKey> {
    if HasRequest(s, i) then s.repairs[i].request.value.events else []
  }

  /** The request whose audit trail a command may add to. */
  function Announces(s: State, c: Command): Option<nat> {
    match c
    case TrySettle(i, _, _, _, _, _, _, _) => Some(i)
    case TryCorrect(_, payload) => Some(payload.request)
    case TryConfirmDirect(i, _) => Some(i)
    case TryPersist(call) => if call < |s.calls| then Some(s.calls[call].ref.request) else None
    case TryRunEvaluation(token) => if IsClaimed(s, token) then Some(EvaluationOf(s, token).request) else None
    case _ => None
  }

  lemma RepairsAppended(s: State, c: Command, i: nat)
    requires c.TryAssignVendor? || c.TryRequestVendor?
    ensures EventsOf(Apply(s, c), i) == EventsOf(s, i)
  {
  }

  lemma WorkAnnouncesNothing(s: State, c: Command, i: nat)
    requires c.TryWork? || c.TryReportCompletion? || c.TryDecideReport?
    ensures EventsOf(Apply(s, c), i) == EventsOf(s, i)
  {
    hide FindApproved, Latest, HasPending, WithDraft, SupersedeApproved, SupersedeRevisions;
  }

  lemma OrdersAnnounceNothing(s: State, c: Command, i: nat)
    requires c.TryRequestDirect? || c.TryCreateOrder? || c.TryRetryOrder? || c.TryCancelOrder? || c.TryBeginConfirm?
    ensures EventsOf(Apply(s, c), i) == EventsOf(s, i)
  {
    hide HasOpenOrder, OpenKeyHeld, SameCreation;
  }

  lemma OthersAnnounceNothing(s: State, c: Command, i: nat)
    requires c.TryBeginReconcile? || c.TryProviderMoves? || c.TryReceiveAnswer? || c.TryAccount? || c.TryClaimDeliveries?
             || c.TryFinishDelivery? || c.TryGiveBackDelivery?
    ensures EventsOf(Apply(s, c), i) == EventsOf(s, i)
  {
    hide OnBooks, Honest;
  }

  lemma SettlesElsewhere(s: State, c: Command, i: nat)
    requires c.TrySettle? || c.TryRunEvaluation?
    requires Announces(s, c).Some? && Announces(s, c) != Some(i)
    ensures EventsOf(Apply(s, c), i) == EventsOf(s, i)
  {
    hide SettlementValid, ActiveOrder, Settled, LackCredit, AwaitApproval, CanDebit, EvidenceOk, ShouldAutoDebit;
  }

  lemma AnnouncesElsewhere(s: State, c: Command, i: nat)
    requires c.TryCorrect? || c.TryConfirmDirect? || c.TryPersist?
    requires Announces(s, c).Some? && Announces(s, c) != Some(i)
    ensures EventsOf(Apply(s, c), i) == EventsOf(s, i)
  {
    hide ReversedRequest, VoidedDirect, CancelledRequest, DebitMatches, CanCredit, DirectConfirmed, Judge, OrderFinalized, OrderRejected, OrderUncertain;
  }

  /** A command adds to an audit trail exactly what it enqueues for it. */
  lemma StepLogsPayments(s: State, c: Command, i: nat, state: AuditKey)
    requires StateOk(s)
    ensures state in EventsOf(Apply(s, c), i) <==> state in EventsOf(s, i) || PaymentState(i, state) in Enqueued(s, c)
  {
    hide StateOk, StateContinues, Apply;
    StepKeeps(s, c);
    if Announces(s, c) == Some(i) {
      AnnouncedHere(s, c, i, state);
    } else {
      NothingAnnounced(s, c, i);
      NotEnqueued(s, c, i, state);
    }
  }

  lemma NothingAnnounced(s: State, c: Command, i: nat)
    requires Announces(s, c) != Some(i)
    ensures EventsOf(Apply(s, c), i) == EventsOf(s, i)
  {
    hide Step, EventsOf;
    if Announces(s, c).Some? {
      if c.TrySettle? || c.TryRunEvaluation? {
        SettlesElsewhere(s, c, i);
      } else {
        AnnouncesElsewhere(s, c, i);
      }
    } else if c.TryAssignVendor? || c.TryRequestVendor? {
      RepairsAppended(s, c, i);
    } else if c.TryWork? || c.TryReportCompletion? || c.TryDecideReport? {
      WorkAnnouncesNothing(s, c, i);
    } else if c.TryRequestDirect? || c.TryCreateOrder? || c.TryRetryOrder? || c.TryCancelOrder? || c.TryBeginConfirm? {
      OrdersAnnounceNothing(s, c, i);
    } else if c.TryPersist? || c.TryRunEvaluation? {
      NoSuchCall(s, c);
    } else {
      OthersAnnounceNothing(s, c, i);
    }
  }

  lemma NoSuchCall(s: State, c: Command)
    requires (c.TryPersist? || c.TryRunEvaluation?) && Announces(s, c).None?
    ensures Apply(s, c) == s
  {
  }

  lemma NotEnqueued(s: State, c: Command, i: nat, state: AuditKey)
    requires Announces(s, c) != Some(i)
    ensures PaymentState(i, state) !in Enqueued(s, c)
  {
    hide Step;
  }

  lemma AnnouncedHere(s: State, c: Command, i: nat, state: AuditKey)
    requires Announces(s, c) == Some(i) && StateContinues(s, Apply(s, c))
    ensures state in EventsOf(Apply(s, c), i) <==> state in EventsOf(s, i) || PaymentState(i, state) in Enqueued(s, c)
  {
    hide Step, StateContinues, PaymentEvents, EventsOf;
    if Step(s, c).Some? {
      assert Enqueued(s, c) == PaymentEvents(s, Apply(s, c), i);
      NoNewRequest(s, c, i);
      PaymentsOf(s, Apply(s, c), i, state);
    }
  }

  lemma NoNewRequest(s: State, c: Command, i: nat)
    requires Announces(s, c) == Some(i) && Step(s, c).Some?
    ensures HasRequest(s, i)
  {
    hide SettlementValid, Execute, DirectConfirmed, SettleLocked, Judge, ActiveOrder, EvidenceOk;
  }

  lemma PaymentsOf(s: State, s': State, i: nat, state: AuditKey)
    requires StateContinues(s, s') && HasRequest(s, i)
    ensures state in EventsOf(s', i) <==> state in EventsOf(s, i) || PaymentState(i, state) in PaymentEvents(s, s', i)
  {
    hide OrdersContinue, AccountContinues, KeysContinue, W.EstimatesContinue;
    assert RepairContinues(s.repairs[i], s'.repairs[i]);
    var before, after := EventsOf(s, i), EventsOf(s', i);
    if state in after && state !in before {
      var k :| 0 <= k < |after| && after[k] == state;
      assert before <= after;
      assert PaymentEvents(s, s', i)[k - |before|] == PaymentState(i, state);
    }
  }

  /** The log misses no payment event: a state is in the audit trail's events exactly when its key was
      enqueued. */
  lemma {:induction false} PaymentEventsAreLogged(tickets: seq<Ticket>, commands: seq<Command>, i: nat, state: AuditKey)
    ensures state in EventsOf(Run(Initial(tickets), commands), i) <==> PaymentState(i, state) in Log(Initial(tickets), commands)
  {
    hide StateOk, StateContinues, Apply, Enqueued;
    if commands == [] {
    } else {
      var n := |commands| - 1;
      var s := Run(Initial(tickets), commands[..n]);
      hide EventsOf;
      PaymentEventsAreLogged(tickets, commands[..n], i, state);
      Reachable(tickets, commands[..n]);
      StepLogsPayments(s, commands[n], i, state);
    }
  }
}
