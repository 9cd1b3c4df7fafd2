/** The whole money path as one state machine.

    A command is one transaction of a repository, one move of the payment provider, or one step
    of the service that talks to it. Everything that the code does not decide (clocks, answers
    of the provider, which rows are locked, whether an actor or vendor is eligible) is in the
    command. A crash is a step that never comes.
 */
module Platform {
  import opened Options
  import opened Types
  import opened Drafts
  import opened Workflow
  import opened Payments
  import opened Ledger
  import Outbox

  // ---- the state

  datatype Ticket = Ticket(manager: nat, tenant: nat)

  datatype OrderRef = OrderRef(request: nat, order: nat)

  datatype Correction = CreditReversal | DirectVoid | PaymentCancel

  datatype CorrectionPayload = CorrectionPayload(request: nat, manager: nat, actor: nat, note: string, kind: Correction)

  datatype CompletionPayload = CompletionPayload(vendor: nat, repair: nat, completedAt: int, summary: string)

  /** The unique columns whose values span repairs, with the row or payload stored under each. */
  datatype Keys = Keys(
    attempts: map<Key, AttemptPayload>,
    receipts: map<Key, CorrectionPayload>,
    creations: map<Key, OrderRef>,
    payments: map<string, OrderRef>,
    submissions: map<Key, CompletionPayload>,
    connections: map<Key, nat>)

  /** What the provider holds for the payment an order was claimed with. */
  datatype Charge = Authorized | Charged | Dead

  datatype CallKind = ConfirmCall | LookupCall

  datatype Answer = Declined | Unknown | Payment(payment: Snapshot)

  datatype Phase = Asking | Answered(answer: Answer) | FinalizeFailed | Over

  /** A call of the order service to the provider, with the identity it expects back. */
  datatype Call = Call(ref: OrderRef, kind: CallKind, paymentKey: Option<string>, amount: int, phase: Phase)

  /** A credit-evaluation delivery refers to a request and the decision that approved it. */
  datatype Evaluation = Evaluation(request: nat, decision: nat)

  datatype State = State(
    tickets: seq<Ticket>,
    repairs: seq<Repair>,
    books: Books,
    keys: Keys,
    charges: map<OrderRef, Charge>,
    calls: seq<Call>,
    box: Outbox.Box,
    evaluations: seq<Evaluation>,
    evaluated: set<nat>)

  function Initial(tickets: seq<Ticket>): State {
    State(tickets, [], Books(map[], map[], [], {}, [], map[], [], map[]), Keys(map[], map[], map[], map[], map[], map[]),
          map[], [], Outbox.Box([], []), [], {})
  }

  predicate HasRequest(s: State, i: nat) {
    i < |s.repairs| && s.repairs[i].request.Some?
  }

  predicate HasOrder(s: State, ref: OrderRef) {
    HasRequest(s, ref.request) && ref.order < |s.repairs[ref.request].request.value.orders|
  }

  function OrderAt(s: State, ref: OrderRef): Order
    requires HasOrder(s, ref)
  {
    s.repairs[ref.request].request.value.orders[ref.order]
  }

  function WithRepair(s: State, i: nat, r: Repair): State
    requires i < |s.repairs|
  {
    s.(repairs := s.repairs[i := r])
  }

  function WithRequest(s: State, i: nat, q: Request): State
    requires i < |s.repairs|
  {
    WithRepair(s, i, s.repairs[i].(request := Some(q)))
  }

  // ---- assigning a vendor

  function NewRepair(s: State, ticket: nat, vendor: nat, byTenant: bool): Repair
    requires ticket < |s.tickets|
  {
    Repair(ticket, vendor, s.tickets[ticket].manager, s.tickets[ticket].tenant, byTenant, Requested,
           if byTenant then Some(TenantPays) else None, None, None, [], [], None)
  }

  function FindOpen(repairs: seq<Repair>, ticket: nat): (k: Option<nat>)
    ensures k.Some? ==> k.value < |repairs| && repairs[k.value].ticket == ticket && !Closed(repairs[k.value].status)
    ensures k.None? ==> forall j :: 0 <= j < |repairs| && repairs[j].ticket == ticket ==> Closed(repairs[j].status)
  {
    if repairs == [] then None
    else
      var n := |repairs| - 1;
      if repairs[n].ticket == ticket && !Closed(repairs[n].status) then Some(n) else FindOpen(repairs[..n], ticket)
  }

  /** eligible: the vendor may be assigned; assignable: the ticket is in a status that takes one. */
  function AssignVendor(s: State, manager: nat, ticket: nat, vendor: nat, eligible: bool, assignable: bool): Option<State> {
    if ticket >= |s.tickets| || s.tickets[ticket].manager != manager || !eligible then None
    else
      var created := NewRepair(s, ticket, vendor, false);
      match FindOpen(s.repairs, ticket)
      case None => if assignable then Some(s.(repairs := s.repairs + [created])) else None
      case Some(k) =>
        var current := s.repairs[k];
        if current.vendor == vendor then Some(s)
        else if current.status != Requested then None
        else Some(s.(repairs := s.repairs[k := current.(status := Cancelled)] + [created]))
  }

  function RequestVendor(s: State, tenant: nat, ticket: nat, vendor: nat, key: Key, eligible: bool, requestable: bool): Option<State> {
    if ticket >= |s.tickets| || s.tickets[ticket].tenant != tenant || !eligible then None
    else if key in s.keys.connections then
      var k := s.keys.connections[key];
      if k < |s.repairs| && s.repairs[k].ticket == ticket && s.repairs[k].vendor == vendor && s.repairs[k].tenantInitiated
      then Some(s) else None
    else if FindOpen(s.repairs, ticket).Some? || !requestable then None
    else
      Some(s.(repairs := s.repairs + [NewRepair(s, ticket, vendor, true)],
              keys := s.keys.(connections := s.keys.connections[key := |s.repairs|])))
  }

  // ---- the vendor workflow

  datatype Action =
    | TrySaveDraft(vendor: nat, estimate: Option<nat>, input: DraftInput)
    | TrySubmit(vendor: nat, e: nat)
    | TryWithdraw(vendor: nat, e: nat)
    | TryReviewByManager(manager: nat, e: nat, review: Review, note: Option<string>)
    | TryReviewByTenant(tenant: nat, e: nat, approve: bool, note: Option<string>)
    | TryVisitConfirmed(party: Party, actor: nat, e: nat, at: int)
    | TrySchedule(vendor: nat, at: int)
    | TryStart(vendor: nat, now: int)
    | TryDecideByTenant(tenant: nat, approved: bool, note: Option<string>, now: int)

  function Act(r: Repair, action: Action): Option<Repair> {
    match action
    case TrySaveDraft(vendor, estimate, input) => SaveDraft(r, vendor, estimate, input)
    case TrySubmit(vendor, e) => SubmitEstimate(r, vendor, e)
    case TryWithdraw(vendor, e) => WithdrawEstimate(r, vendor, e)
    case TryReviewByManager(manager, e, review, note) => ReviewEstimate(r, manager, e, review, note)
    case TryReviewByTenant(tenant, e, approve, note) => ReviewTenantEstimate(r, tenant, e, approve, note)
    case TryVisitConfirmed(party, actor, e, at) => ConfirmVisit(r, party, actor, e, at)
    case TrySchedule(vendor, at) => ScheduleApproved(r, vendor, at)
    case TryStart(vendor, now) => StartJob(r, vendor, now)
    case TryDecideByTenant(tenant, approved, note, now) => DecideTenantCompletion(r, tenant, approved, note, now)
  }

  function Work(s: State, i: nat, action: Action): Option<State> {
    if i >= |s.repairs| then None
    else
      match Act(s.repairs[i], action)
      case None => None
      case Some(r) => Some(WithRepair(s, i, r))
  }

  function ReportCompletion(s: State, i: nat, key: Key, payload: CompletionPayload, now: int): Option<State> {
    if i >= |s.repairs| || payload.repair != i || payload.vendor != s.repairs[i].vendor || !BearerResolved(s.repairs[i]) then None
    else if key in s.keys.submissions then if s.keys.submissions[key] == payload then Some(s) else None
    else
      match SubmitCompletion(s.repairs[i], payload.vendor, payload.completedAt, now)
      case None => None
      case Some(r) => Some(WithRepair(s, i, r).(keys := s.keys.(submissions := s.keys.submissions[key := payload])))
  }

  /** The first approval of a report with a payment request enqueues its credit evaluation in
      the same transaction. */
  function DecideReport(s: State, i: nat, manager: nat, approved: bool, note: Option<string>, now: int): Option<State> {
    if i >= |s.repairs| then None
    else
      var r := s.repairs[i];
      match DecideCompletion(r, manager, approved, note, now)
      case None => None
      case Some(r') =>
        var decided := WithRepair(s, i, r');
        if approved && r'.request.Some? && LastReport(r).Some? && LastReport(r).value.decision.None? then
          Some(decided.(box := Outbox.Enqueued(s.box, now), evaluations := s.evaluations + [Evaluation(i, |r.reports| - 1)]))
        else Some(decided)
  }

  // ---- settlement

  /** Every check of the settlement snapshot against the repair's current rows. */
  predicate SettlementValid(r: Repair, decision: nat) {
    r.request.Some? &&
    var q := r.request.value;
    && r.reports != [] && q.report == |r.reports| - 1
    && q.decision == Some(decision) && decision == q.report
    && r.reports[decision].decision.Some?
    && r.reports[decision].decision.value.source == Manager
    && r.reports[decision].decision.value.approved
    && r.costBearer == Some(LandlordPays)
    && q.estimate < |r.estimates|
    && r.estimates[q.estimate].status == Approved
    && r.estimates[q.estimate].content.Fixed?
    && r.estimates[q.estimate].content.total == q.amount
    && PositiveDatabaseInteger(q.amount)
  }

  function DebitKind(mode: Mode): EntryKind {
    if mode == AutoCredit then AutoDebit else ManualDebit
  }

  function SettleLocked(s: State, i: nat, mode: Mode, key: Key, payload: AttemptPayload, evidence: Option<Evidence>): Option<State>
    requires HasRequest(s, i)
  {
    var r := s.repairs[i];
    var q := r.request.value;
    var keys := s.keys.(attempts := s.keys.attempts[key := payload]);
    if key in s.keys.attempts then None
    else if mode == Direct then
      match Settled(q, i, mode, key, payload, evidence, None)
      case None => None
      case Some(paid) => Some(WithRequest(s, i, paid).(keys := keys))
    else if !CanDebit(s.books, r.manager, q.amount) then
      Some(WithRequest(s, i, LackCredit(q, mode, key, payload)).(keys := keys))
    else if PaymentKey(key) in s.books.ledgerKeys then None
    else
      match Settled(q, i, mode, key, payload, None, Some(|s.books.ledger|))
      case None => None
      case Some(paid) =>
        Some(WithRequest(s, i, paid).(
             books := Post(s.books, r.manager, DebitKind(mode), -q.amount, RequestReference(i), None, PaymentKey(key)),
             keys := keys))
  }

  function WithAccount(s: State, manager: nat): State {
    s.(books := EnsureAccount(s.books, manager))
  }

  /** The automatic evaluation after a manager's approval. */
  function Evaluate(s: State, i: nat, manager: nat, decision: nat): Option<State> {
    if !HasRequest(s, i) || s.repairs[i].manager != manager || !SettlementValid(s.repairs[i], decision) then None
    else
      var q := s.repairs[i].request.value;
      if q.status != WaitingCompletion then Some(s)
      else
        var s := WithAccount(s, manager);
        if !ShouldAutoDebit(s.books, manager, q.amount) then Some(WithRequest(s, i, AwaitApproval(q)))
        else if ActiveOrder(q, i) then None
        else
          SettleLocked(s, i, AutoCredit, AutoSettlement(i, decision), SettlePayload(i, AutoCredit, manager, decision, None), None)
  }

  predicate EvidenceOk(evidence: Evidence, now: int) {
    evidence.paidAt <= now && 0 < |evidence.reference| <= 120
  }

  function Settle(s: State, i: nat, manager: nat, mode: Mode, key: Key, actor: nat, decision: Option<nat>,
                  evidence: Option<Evidence>, now: int): Option<State> {
    if mode == Toss || (mode == Direct <==> evidence.None?) || (evidence.Some? && !EvidenceOk(evidence.value, now)) then None
    else if !HasRequest(s, i) || s.repairs[i].manager != manager then None
    else
      var r := s.repairs[i];
      var q := r.request.value;
      var chosen := if decision.Some? then decision else q.decision;
      if chosen.None? || !SettlementValid(r, chosen.value) then None
      else if evidence.Some? && evidence.value.paidAt < r.reports[chosen.value].decision.value.at then None
      else
        var payload := SettlePayload(i, mode, actor, chosen.value, evidence);
        if key in s.keys.attempts then if s.keys.attempts[key] == payload then Some(s) else None
        else if Final(q.status) then Some(s)
        else if mode == AutoCredit && q.status != WaitingCompletion then None
        else if mode != AutoCredit && !Payable(q.status) then None
        else if ActiveOrder(q, i) then None
        else SettleLocked(WithAccount(s, manager), i, mode, key, payload, evidence)
  }

  // ---- corrections

  /** The entry that a reversal is about to undo. */
  predicate DebitMatches(b: Books, i: nat, q: Request) {
    && q.debit.Some? && q.debit.value < |b.ledger|
    && var entry := b.ledger[q.debit.value];
       && (entry.kind == AutoDebit || entry.kind == ManualDebit)
       && entry.reference == RequestReference(i)
       && entry.amount == -q.amount
  }

  function Reverse(s: State, i: nat, key: Key): Option<State>
    requires HasRequest(s, i)
  {
    var r := s.repairs[i];
    var q := r.request.value;
    if !CreditPaid(q.status) || !DebitMatches(s.books, i, q) || !CanCredit(s.books, r.manager, q.amount)
       || ReversalKey(key) in s.books.ledgerKeys
    then None
    else
      match ReversedRequest(q, i)
      case None => None
      case Some(q') =>
        Some(WithRequest(s, i, q').(
             books := Post(s.books, r.manager, Reversal, q.amount, RequestReference(i), q.debit, ReversalKey(key))))
  }

  function Execute(s: State, i: nat, kind: Correction, key: Key): Option<State>
    requires HasRequest(s, i)
  {
    var q := s.repairs[i].request.value;
    match kind
    case CreditReversal => Reverse(s, i, key)
    case DirectVoid => (match VoidedDirect(q, i) case None => None case Some(q') => Some(WithRequest(s, i, q')))
    case PaymentCancel => (match CancelledRequest(q, i) case None => None case Some(q') => Some(WithRequest(s, i, q')))
  }

  function Correct(s: State, key: Key, payload: CorrectionPayload): Option<State> {
    var i := payload.request;
    if !HasRequest(s, i) || s.repairs[i].manager != payload.manager then None
    else if key in s.keys.receipts then if s.keys.receipts[key] == payload then Some(s) else None
    else
      match Execute(s, i, payload.kind, key)
      case None => None
      case Some(s') => Some(s'.(keys := s'.keys.(receipts := s'.keys.receipts[key := payload])))
  }

  // ---- the tenant's direct payment

  function RequestDirect(s: State, i: nat, tenant: nat, key: Key): Option<State> {
    if !HasRequest(s, i) then None
    else
      var r := s.repairs[i];
      var q := r.request.value;
      var payload := TenantDirectPayload(i, tenant, q.amount);
      if q.payer != Tenant || r.tenant != tenant || !TenantDriven(r) then None
      else if key in s.keys.attempts && s.keys.attempts[key] != payload then None
      else if IsTenantDirectPending(q) || IsTenantDirectPaid(q) then Some(s)
      else
        match DirectRequested(q, key, payload)
        case None => None
        case Some(q') =>
          if key in s.keys.attempts then None
          else Some(WithRequest(s, i, q').(keys := s.keys.(attempts := s.keys.attempts[key := payload])))
  }

  function ConfirmDirect(s: State, i: nat, vendor: nat): Option<State> {
    if !HasRequest(s, i) || s.repairs[i].vendor != vendor then None
    else
      match DirectConfirmed(s.repairs[i].request.value, s.repairs[i].tenant)
      case None => None
      case Some(q') => Some(WithRequest(s, i, q'))
  }

  // ---- Toss orders

  predicate Pays(s: State, i: nat, party: Party, user: nat) {
    && HasRequest(s, i)
    && s.repairs[i].request.value.payer == party
    && user == (if party == Manager then s.repairs[i].manager else s.repairs[i].tenant)
  }

  /** The order stored under a creation key is the one this command would have created. */
  predicate SameCreation(s: State, ref: OrderRef, i: nat, amount: int, creation: CreationPayload, retryOf: Option<nat>) {
    && HasOrder(s, ref) && ref.request == i
    && OrderAt(s, ref).creation == creation && OrderAt(s, ref).amount == amount && OrderAt(s, ref).retryOf == retryOf
  }

  function Created(s: State, i: nat, q: Request, creation: CreationPayload): State
    requires i < |s.repairs| && |q.orders| > 0
  {
    WithRequest(s, i, q).(keys := s.keys.(creations := s.keys.creations[creation.key := OrderRef(i, |q.orders| - 1)]))
  }

  function CreateOrder(s: State, i: nat, party: Party, user: nat, creation: CreationPayload): Option<State> {
    if !Pays(s, i, party, user) then None
    else
      var q := s.repairs[i].request.value;
      if !CanPrepareToss(q) then None
      else if creation.key in s.keys.creations then
        if SameCreation(s, s.keys.creations[creation.key], i, q.amount, creation, None) then Some(s) else None
      else
        match OrderPlaced(q, i, creation)
        case None => None
        case Some(q') => Some(Created(s, i, q', creation))
  }

  function RetryOrder(s: State, ref: OrderRef, party: Party, user: nat, creation: CreationPayload): Option<State> {
    if !HasOrder(s, ref) || !Pays(s, ref.request, party, user) then None
    else
      var q := s.repairs[ref.request].request.value;
      if creation.key in s.keys.creations then
        if SameCreation(s, s.keys.creations[creation.key], ref.request, OrderAt(s, ref).amount, creation, Some(ref.order))
        then Some(s) else None
      else
        match OrderRetried(q, ref.request, ref.order, creation)
        case None => None
        case Some(q') => Some(Created(s, ref.request, q', creation))
  }

  function CancelOrder(s: State, ref: OrderRef, party: Party, user: nat): Option<State> {
    if !HasOrder(s, ref) || !Pays(s, ref.request, party, user) then None
    else
      match OrderCancelledByUser(s.repairs[ref.request].request.value, ref.order)
      case None => None
      case Some(q') => Some(WithRequest(s, ref.request, q'))
  }

  // ---- confirming and reconciling an order

  /** claimConfirmation; the caller that claims the order goes on to call the provider. */
  function BeginConfirm(s: State, ref: OrderRef, party: Party, user: nat, paymentKey: string, amount: int): Option<State> {
    if !HasOrder(s, ref) || !Pays(s, ref.request, party, user) then None
    else
      var taken := paymentKey in s.keys.payments && s.keys.payments[paymentKey] != ref;
      match ClaimConfirmation(s.repairs[ref.request].request.value, ref.request, ref.order, paymentKey, amount, taken)
      case ClaimRefused => None
      case Replayed => Some(s)
      case Claimed(q') =>
        Some(WithRequest(s, ref.request, q').(
             keys := s.keys.(payments := s.keys.payments[paymentKey := ref]),
             charges := s.charges[ref := Authorized],
             calls := s.calls + [Call(ref, ConfirmCall, Some(paymentKey), amount, Asking)]))
  }

  function BeginReconcile(s: State, ref: OrderRef, party: Party, user: nat): Option<State> {
    if !HasOrder(s, ref) || !Pays(s, ref.request, party, user) then None
    else
      var order := OrderAt(s, ref);
      if !InFlight(order.status) then Some(s)
      else Some(s.(calls := s.calls + [Call(ref, LookupCall, order.paymentKey, order.amount, Asking)]))
  }

  /** The provider settles the fate of a payment once, at any time after the claim, whether or
      not an answer ever arrives. */
  function ProviderMoves(s: State, ref: OrderRef, outcome: Charge): Option<State> {
    if ref in s.charges && s.charges[ref] == Authorized && outcome != Authorized
    then Some(s.(charges := s.charges[ref := outcome])) else None
  }

  predicate SameIdentity(payment: Snapshot, call: Call) {
    && (payment.repair, payment.order) == (call.ref.request, call.ref.order)
    && Some(payment.paymentKey) == call.paymentKey
    && payment.amount == call.amount
  }

  /** Which answers an honest provider may give. A refused confirmation and a payment that is
      aborted or expired are final; nothing is promised about other errors or other payments. */
  predicate Honest(charges: map<OrderRef, Charge>, call: Call, answer: Answer) {
    match answer
    case Unknown => true
    case Declined => call.kind == ConfirmCall ==> call.ref in charges && charges[call.ref] == Dead
    case Payment(payment) =>
      SameIdentity(payment, call) ==>
        match payment.status
        case Done => call.ref in charges && charges[call.ref] == Charged
        case Aborted | Expired => call.ref in charges && charges[call.ref] == Dead
        case Nonterminal => true
  }

  function WithPhase(s: State, c: nat, phase: Phase): State
    requires c < |s.calls|
  {
    s.(calls := s.calls[c := s.calls[c].(phase := phase)])
  }

  function ReceiveAnswer(s: State, c: nat, answer: Answer): Option<State> {
    if c < |s.calls| && s.calls[c].phase == Asking && Honest(s.charges, s.calls[c], answer)
    then Some(WithPhase(s, c, Answered(answer))) else None
  }

  datatype Verdict = MarkRejected | MarkUncertain | Finalize(payment: Snapshot)

  /** What the service makes of an answer. Only a confirmation believes DECLINED; only a
      reconciliation believes ABORTED and EXPIRED. */
  function Judge(call: Call, answer: Answer): Verdict {
    match answer
    case Unknown => MarkUncertain
    case Declined => if call.kind == ConfirmCall then MarkRejected else MarkUncertain
    case Payment(payment) =>
      if !SameIdentity(payment, call) then MarkUncertain
      else
        match payment.status
        case Done => Finalize(payment)
        case Aborted | Expired => if call.kind == LookupCall then MarkRejected else MarkUncertain
        case Nonterminal => MarkUncertain
  }

  function Rewritten(s: State, i: nat, next: Option<Request>): State
    requires i < |s.repairs|
  {
    if next.Some? then WithRequest(s, i, next.value) else s
  }

  /** The transaction that follows an answer. A finalization that throws is followed by one more
      transaction; any other transaction that throws ends the call. */
  function Persist(s: State, c: nat): Option<State> {
    if c >= |s.calls| || !HasOrder(s, s.calls[c].ref) then None
    else
      var i, k := s.calls[c].ref.request, s.calls[c].ref.order;
      var q := s.repairs[i].request.value;
      match s.calls[c].phase
      case Asking | Over => None
      case FinalizeFailed => Some(Rewritten(WithPhase(s, c, Over), i, OrderUncertain(q, i, k)))
      case Answered(answer) =>
        match Judge(s.calls[c], answer)
        case MarkRejected => Some(Rewritten(WithPhase(s, c, Over), i, OrderRejected(q, k)))
        case MarkUncertain => Some(Rewritten(WithPhase(s, c, Over), i, OrderUncertain(q, i, k)))
        case Finalize(payment) =>
          var next := OrderFinalized(q, i, k, payment);
          Some(Rewritten(WithPhase(s, c, if next.Some? then Over else FinalizeFailed), i, next))
  }

  // ---- the credit account

  datatype AccountAction =
    | TryCreateTopup(manager: nat, amount: int, key: Key, payout: Option<nat>, returnPath: string, active: bool)
    | TryClaimTopup(manager: nat, order: nat, paymentKey: string, amount: int)
    | TryFinalizeTopup(manager: nat, order: nat, paymentKey: string, amount: int, active: bool)
    | TryRejectTopup(manager: nat, order: nat)
    | TryMarkTopupUncertain(manager: nat, order: nat)
    | TryCancelTopup(manager: nat, order: nat)
    | TrySavePolicy(manager: nat, policy: Policy)
    | TryCreatePayout(manager: nat, registration: nat, amount: int, key: Key, active: bool)
    | TryRequestPayout(manager: nat, registration: nat, amount: int, key: Key, active: bool)
    | TrySettlePayout(manager: nat, row: nat, key: Key)
    | TrySeedDemo(manager: nat)

  function OnBooks(b: Books, action: AccountAction): Option<Books> {
    match action
    case TryCreateTopup(manager, amount, key, registration, path, active) => CreateTopup(b, manager, amount, key, registration, path, active)
    case TryClaimTopup(manager, k, paymentKey, amount) =>
      (match ClaimTopup(b, manager, k, paymentKey, amount) case None => None case Some(claim) => Some(claim.0))
    case TryFinalizeTopup(manager, k, paymentKey, amount, active) => FinalizeTopup(b, manager, k, paymentKey, amount, active)
    case TryRejectTopup(manager, k) => RejectTopup(b, manager, k)
    case TryMarkTopupUncertain(manager, k) => MarkTopupUncertain(b, manager, k)
    case TryCancelTopup(manager, k) => CancelTopup(b, manager, k)
    case TrySavePolicy(manager, policy) => SavePolicy(b, manager, policy)
    case TryCreatePayout(manager, registration, amount, key, active) => CreatePayout(b, manager, registration, amount, key, active)
    case TryRequestPayout(manager, registration, amount, key, active) => RequestPayout(b, manager, registration, amount, key, active)
    case TrySettlePayout(manager, k, key) => SettlePayout(b, manager, k, key)
    case TrySeedDemo(manager) => SeedDemo(b, manager)
  }

  function Account(s: State, action: AccountAction): Option<State> {
    match OnBooks(s.books, action)
    case None => None
    case Some(b) => Some(s.(books := b))
  }

  // ---- the credit worker

  function ClaimDeliveries(s: State, limit: int, now: int, locked: set<nat>): Option<State> {
    match Outbox.ClaimPending(s.box, limit, now, now + Outbox.LEASE_MS, locked)
    case None => None
    case Some(box) => Some(s.(box := box))
  }

  predicate IsClaimed(s: State, token: nat) {
    token < |s.box.claims| && s.box.claims[token] < |s.evaluations|
  }

  function EvaluationOf(s: State, token: nat): Evaluation
    requires IsClaimed(s, token)
  {
    s.evaluations[s.box.claims[token]]
  }

  /** A worker evaluates the delivery it claimed, even if its lease has run out by now. */
  function RunEvaluation(s: State, token: nat): Option<State> {
    if !IsClaimed(s, token) then None
    else
      var e := EvaluationOf(s, token);
      if e.request >= |s.repairs| then None
      else
        match Evaluate(s, e.request, s.repairs[e.request].manager, e.decision)
        case None => None
        case Some(s') => Some(s'.(evaluated := s'.evaluated + {token}))
  }

  /** Only after its evaluation returned does the worker mark the delivery. */
  function FinishDelivery(s: State, token: nat): Option<State> {
    if !IsClaimed(s, token) || token !in s.evaluated then None
    else Some(s.(box := Outbox.MarkDelivered(s.box, s.box.claims[token], token).0))
  }

  function GiveBackDelivery(s: State, token: nat, now: int, attempts: nat): Option<State> {
    if !IsClaimed(s, token) then None
    else Some(s.(box := Outbox.Reschedule(s.box, s.box.claims[token], token, Outbox.RetryAt(now, attempts)).0))
  }

  // ---- commands and runs

  datatype Command =
    | TryAssignVendor(manager: nat, ticket: nat, vendor: nat, eligible: bool, assignable: bool)
    | TryRequestVendor(tenant: nat, ticket: nat, vendor: nat, key: Key, eligible: bool, requestable: bool)
    | TryWork(repair: nat, action: Action)
    | TryReportCompletion(repair: nat, key: Key, payload: CompletionPayload, now: int)
    | TryDecideReport(repair: nat, manager: nat, approved: bool, note: Option<string>, now: int)
    | TrySettle(request: nat, manager: nat, mode: Mode, key: Key, actor: nat, decision: Option<nat>, evidence: Option<Evidence>, now: int)
    | TryCorrect(key: Key, correction: CorrectionPayload)
    | TryRequestDirect(request: nat, tenant: nat, key: Key)
    | TryConfirmDirect(request: nat, vendor: nat)
    | TryCreateOrder(request: nat, party: Party, user: nat, creation: CreationPayload)
    | TryRetryOrder(ref: OrderRef, party: Party, user: nat, creation: CreationPayload)
    | TryCancelOrder(ref: OrderRef, party: Party, user: nat)
    | TryBeginConfirm(ref: OrderRef, party: Party, user: nat, paymentKey: string, amount: int)
    | TryBeginReconcile(ref: OrderRef, party: Party, user: nat)
    | TryProviderMoves(ref: OrderRef, outcome: Charge)
    | TryReceiveAnswer(call: nat, answer: Answer)
    | TryPersist(call: nat)
    | TryAccount(account: AccountAction)
    | TryClaimDeliveries(limit: int, now: int, locked: set<nat>)
    | TryRunEvaluation(token: nat)
    | TryFinishDelivery(token: nat)
    | TryGiveBackDelivery(token: nat, now: int, attempts: nat)

  function Step(s: State, c: Command): Option<State> {
    match c
    case TryAssignVendor(manager, ticket, vendor, eligible, assignable) => AssignVendor(s, manager, ticket, vendor, eligible, assignable)
    case TryRequestVendor(tenant, ticket, vendor, key, eligible, requestable) => RequestVendor(s, tenant, ticket, vendor, key, eligible, requestable)
    case TryWork(i, action) => Work(s, i, action)
    case TryReportCompletion(i, key, payload, now) => ReportCompletion(s, i, key, payload, now)
    case TryDecideReport(i, manager, approved, note, now) => DecideReport(s, i, manager, approved, note, now)
    case TrySettle(i, manager, mode, key, actor, decision, evidence, now) => Settle(s, i, manager, mode, key, actor, decision, evidence, now)
    case TryCorrect(key, correction) => Correct(s, key, correction)
    case TryRequestDirect(i, tenant, key) => RequestDirect(s, i, tenant, key)
    case TryConfirmDirect(i, vendor) => ConfirmDirect(s, i, vendor)
    case TryCreateOrder(i, party, user, creation) => CreateOrder(s, i, party, user, creation)
    case TryRetryOrder(ref, party, user, creation) => RetryOrder(s, ref, party, user, creation)
    case TryCancelOrder(ref, party, user) => CancelOrder(s, ref, party, user)
    case TryBeginConfirm(ref, party, user, paymentKey, amount) => BeginConfirm(s, ref, party, user, paymentKey, amount)
    case TryBeginReconcile(ref, party, user) => BeginReconcile(s, ref, party, user)
    case TryProviderMoves(ref, outcome) => ProviderMoves(s, ref, outcome)
    case TryReceiveAnswer(call, answer) => ReceiveAnswer(s, call, answer)
    case TryPersist(call) => Persist(s, call)
    case TryAccount(action) => Account(s, action)
    case TryClaimDeliveries(limit, now, locked) => ClaimDeliveries(s, limit, now, locked)
    case TryRunEvaluation(token) => RunEvaluation(s, token)
    case TryFinishDelivery(token) => FinishDelivery(s, token)
    case TryGiveBackDelivery(token, now, attempts) => GiveBackDelivery(s, token, now, attempts)
  }

  /** A transaction that throws leaves no trace. */
  function Apply(s: State, c: Command): State {
    var next := Step(s, c);
    if next.Some? then next.value else s
  }

  function Run(s: State, commands: seq<Command>): State {
    if commands == [] then s else Apply(Run(s, commands[..|commands| - 1]), commands[|commands| - 1])
  }

  lemma RunOne(s: State, c: Command)
    ensures Run(s, [c]) == Apply(s, c)
  {
    hide Apply;
    assert [c][..0] == [];
  }

  lemma RunTwo(s: State, c: Command, d: Command)
    ensures Run(s, [c, d]) == Apply(Apply(s, c), d)
  {
    hide Apply;
    assert [c, d][..1] == [c];
    RunOne(s, c);
  }

  lemma {:induction false} RunsAppend(s: State, commands: seq<Command>, more: seq<Command>)
    ensures Run(Run(s, commands), more) == Run(s, commands + more)
  {
    hide Apply;
    if more == [] {
      assert commands + more == commands;
    } else {
      var n := |more| - 1;
      RunsAppend(s, commands, more[..n]);
      assert (commands + more)[..|commands + more| - 1] == commands + more[..n];
    }
  }
}
