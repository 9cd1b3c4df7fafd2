/** The automatic evaluation settles under a key that it derives from request and decision. A client can
    have used that very key for another payment; what then becomes of the evaluation. */
module AutomaticKey {
  import opened Options
  import opened Types
  import opened Drafts
  import opened Workflow
  import opened Payments
  import opened Ledger
  import opened Platform
  import opened Invariant
  import opened Runs
  import E = PaymentEffects
  import T = WorkflowTheorems
  import W = WorkflowProofs
  import Outbox

  /** The request waits for its evaluation, and the key of that evaluation is already taken. */
  predicate KeyTaken(s: State, i: nat, decision: nat) {
    && HasRequest(s, i) && s.repairs[i].request.value.status == WaitingCompletion
    && s.repairs[i].request.value.decision == Some(decision) && AutoSettlement(i, decision) in s.keys.attempts
  }

  /** Once the key is taken, then at every later point at which the request still waits, its evaluation
      throws exactly while the manager's policy asks for an automatic debit. */
  lemma EvaluationStaysBlocked(tickets: seq<Ticket>, commands: seq<Command>, more: seq<Command>, i: nat, decision: nat)
    requires KeyTaken(Run(Initial(tickets), commands), i, decision)
    ensures var s := Run(Run(Initial(tickets), commands), more);
            && HasRequest(s, i)
            && var manager, q := s.repairs[i].manager, s.repairs[i].request.value;
               && q.decision == Some(decision)
               && (q.status == WaitingCompletion ==>
                     (Evaluate(s, i, manager, decision).None? <==> E.PolicyAllows(s.books, manager, q.amount)))
  {
    hide StateOk, StateContinues, Run, Evaluate, E.PolicyAllows;
    Later(tickets, commands, more);
    var s, s' := Run(Initial(tickets), commands), Run(Run(Initial(tickets), commands), more);
    TakenStays(s, s', i, decision);
    if s'.repairs[i].request.value.status == WaitingCompletion {
      E.EvaluateEffect(s', i, decision);
    }
  }

  lemma TakenStays(s: State, s': State, i: nat, decision: nat)
    requires StateContinues(s, s') && KeyTaken(s, i, decision)
    ensures HasRequest(s', i) && s'.repairs[i].request.value.decision == Some(decision) && AutoSettlement(i, decision) in s'.keys.attempts
  {
    hide RepairsContinue, AccountContinues, OrdersContinue, W.EstimatesContinue;
    T.RepairLater(s, s', i);
  }

  // ---- such a state can be reached

  ghost predicate Reaches(s: State, s': State) {
    exists commands :: Run(s, commands) == s'
  }

  lemma StepReaches(s: State, c: Command)
    ensures Reaches(s, Apply(s, c))
  {
    hide Apply;
    RunOne(s, c);
  }

  lemma ReachesFurther(a: State, b: State, c: State)
    requires Reaches(a, b) && Reaches(b, c)
    ensures Reaches(a, c)
  {
    hide Apply;
    var commands :| Run(a, commands) == b;
    var more :| Run(b, more) == c;
    RunsAppend(a, commands, more);
  }

  const MANAGER: nat := 0
  const TENANT: nat := 1
  const VENDOR: nat := 2
  const LINES := [Line(1, 1)]

  /** A repair of the witness at one moment; every date in it is 0. */
  function Witness(ticket: nat, byTenant: bool, status: RepairStatus, estimates: seq<Estimate>, reports: seq<Report>, request: Option<Request>): Repair {
    var bearer := if byTenant then Some(TenantPays) else if estimates != [] && estimates[0].status == Approved then Some(LandlordPays) else None;
    var scheduled := status != Requested && status != EstimateSubmitted && status != EstimateApproved;
    Repair(ticket, VENDOR, MANAGER, TENANT, byTenant, status, bearer, if scheduled then Some(0) else None,
           if scheduled && status != Scheduled then Some(0) else None, estimates, reports, request)
  }

  function Quote(status: EstimateStatus, party: Option<Party>): Estimate {
    Estimate(1, status, Fixed(LINES, 1), party, None)
  }

  function Approver(byTenant: bool): Party {
    if byTenant then Tenant else Manager
  }

  lemma LinesTotal()
    ensures Normalize(FixedInput(LINES, None)) == Some(Fixed(LINES, 1))
  {
    assert LINES[..0] == [];
    assert Total(LINES) == 1;
  }

  function ApproveIt(byTenant: bool): Action {
    if byTenant then TryReviewByTenant(TENANT, 0, true, None) else TryReviewByManager(MANAGER, 0, Approve(LandlordPays), None)
  }

  /** The five transactions that take a new repair to work in progress. */
  lemma Drafted(ticket: nat, byTenant: bool)
    ensures Act(Witness(ticket, byTenant, Requested, [], [], None), TrySaveDraft(VENDOR, None, FixedInput(LINES, None)))
            == Some(Witness(ticket, byTenant, Requested, [Quote(Draft, None)], [], None))
  {
    LinesTotal();
    hide Normalize;
    assert [] + [Quote(Draft, None)] == [Quote(Draft, None)];
  }

  lemma Sent(ticket: nat, byTenant: bool)
    ensures Act(Witness(ticket, byTenant, Requested, [Quote(Draft, None)], [], None), TrySubmit(VENDOR, 0))
            == Some(Witness(ticket, byTenant, EstimateSubmitted, [Quote(Submitted, None)], [], None))
  {
    assert [Quote(Draft, None)][0 := Quote(Submitted, None)] == [Quote(Submitted, None)];
    assert SupersedeRevisions([Quote(Submitted, None)], 1) == [Quote(Submitted, None)];
  }

  lemma Accepted(ticket: nat, byTenant: bool)
    ensures Act(Witness(ticket, byTenant, EstimateSubmitted, [Quote(Submitted, None)], [], None), ApproveIt(byTenant))
            == Some(Witness(ticket, byTenant, EstimateApproved, [Quote(Approved, Some(Approver(byTenant)))], [], None))
  {
    assert SupersedeApproved([Quote(Submitted, None)], 0) == [Quote(Submitted, None)];
    assert forall e :: [Quote(Submitted, None)][0 := e] == [e];
  }

  lemma Begun(ticket: nat, byTenant: bool)
    ensures var approved := [Quote(Approved, Some(Approver(byTenant)))];
            && Act(Witness(ticket, byTenant, EstimateApproved, approved, [], None), TrySchedule(VENDOR, 0))
               == Some(Witness(ticket, byTenant, Scheduled, approved, [], None))
            && Act(Witness(ticket, byTenant, Scheduled, approved, [], None), TryStart(VENDOR, 0))
               == Some(Witness(ticket, byTenant, InProgress, approved, [], None))
  {
  }

  lemma WorkReaches(s: State, i: nat, action: Action, r: Repair)
    requires i < |s.repairs| && Act(s.repairs[i], action) == Some(r)
    ensures Reaches(s, WithRepair(s, i, r))
  {
    hide Act;
    StepReaches(s, TryWork(i, action));
  }

  lemma Rewritten(s: State, i: nat, r: Repair, r': Repair)
    requires i < |s.repairs|
    ensures WithRepair(WithRepair(s, i, r), i, r') == WithRepair(s, i, r')
  {
    assert s.repairs[i := r][i := r'] == s.repairs[i := r'];
  }

  lemma WorkReachesFurther(s: State, i: nat, r: Repair, action: Action, r': Repair)
    requires i < |s.repairs| && Reaches(s, WithRepair(s, i, r)) && Act(r, action) == Some(r')
    ensures Reaches(s, WithRepair(s, i, r'))
  {
    hide Act, Reaches;
    WorkReaches(WithRepair(s, i, r), i, action, r');
    Rewritten(s, i, r, r');
    ReachesFurther(s, WithRepair(s, i, r), WithRepair(s, i, r'));
  }

  function Working(ticket: nat, byTenant: bool): Repair {
    Witness(ticket, byTenant, InProgress, [Quote(Approved, Some(Approver(byTenant)))], [], None)
  }

  lemma WorkingReached(s: State, i: nat, ticket: nat, byTenant: bool)
    requires i < |s.repairs| && s.repairs[i] == Witness(ticket, byTenant, Requested, [], [], None)
    ensures Reaches(s, WithRepair(s, i, Working(ticket, byTenant)))
  {
    hide Act, Reaches;
    var approved := [Quote(Approved, Some(Approver(byTenant)))];
    Drafted(ticket, byTenant);
    Sent(ticket, byTenant);
    Accepted(ticket, byTenant);
    Begun(ticket, byTenant);
    hide Witness;
    WorkReaches(s, i, TrySaveDraft(VENDOR, None, FixedInput(LINES, None)), Witness(ticket, byTenant, Requested, [Quote(Draft, None)], [], None));
    WorkReachesFurther(s, i, Witness(ticket, byTenant, Requested, [Quote(Draft, None)], [], None), TrySubmit(VENDOR, 0),
                       Witness(ticket, byTenant, EstimateSubmitted, [Quote(Submitted, None)], [], None));
    WorkReachesFurther(s, i, Witness(ticket, byTenant, EstimateSubmitted, [Quote(Submitted, None)], [], None), ApproveIt(byTenant),
                       Witness(ticket, byTenant, EstimateApproved, approved, [], None));
    WorkReachesFurther(s, i, Witness(ticket, byTenant, EstimateApproved, approved, [], None), TrySchedule(VENDOR, 0),
                       Witness(ticket, byTenant, Scheduled, approved, [], None));
    WorkReachesFurther(s, i, Witness(ticket, byTenant, Scheduled, approved, [], None), TryStart(VENDOR, 0), Working(ticket, byTenant));
  }

  // ---- the whole witness: a tenant's direct payment of repair 0 takes the key of repair 1

  const TICKETS := [Ticket(MANAGER, TENANT), Ticket(MANAGER, TENANT)]
  const TAKEN: Key := AutoSettlement(1, 0)
  const REPORT := Report(0, None)

  function Reported(i: nat): CompletionPayload {
    CompletionPayload(VENDOR, i, 0, "")
  }

  function Signed(party: Party): Report {
    Report(0, Some(Decision(party, true, None, 0)))
  }

  const PAID_BY_TENANT := NewRequest(Tenant, 1, 0, 0, PendingApproval)
  const AWAITED := NewRequest(Manager, 1, 0, 0, WaitingCompletion)

  /** Repair 0: requested, done and approved by the tenant, who asks to pay it directly. */
  function TenantDone(request: Option<Request>): Repair {
    Witness(0, true, Completed, [Quote(Approved, Some(Tenant))], [Signed(Tenant)], request)
  }

  /** Repair 1: assigned, done and approved by the manager, who pays it. */
  function ManagerDone(): Repair {
    Witness(1, false, Completed, [Quote(Approved, Some(Manager))], [Signed(Manager)], Some(AWAITED.(decision := Some(0))))
  }

  lemma FirstRequested()
    ensures Apply(Initial(TICKETS), TryRequestVendor(TENANT, 0, VENDOR, Client("c"), true, true))
            == Initial(TICKETS).(repairs := [Witness(0, true, Requested, [], [], None)],
                                 keys := Initial(TICKETS).keys.(connections := map[Client("c") := 0]))
  {
  }

  lemma ReportedBy(s: State, i: nat, ticket: nat, byTenant: bool, key: Key)
    requires i < |s.repairs| && s.repairs[i] == Working(ticket, byTenant) && key !in s.keys.submissions
    ensures Apply(s, TryReportCompletion(i, key, Reported(i), 0))
            == WithRepair(s, i, Witness(ticket, byTenant, CompletionReported, [Quote(Approved, Some(Approver(byTenant)))], [REPORT],
                                        if byTenant then None else Some(AWAITED)))
               .(keys := s.keys.(submissions := s.keys.submissions[key := Reported(i)]))
  {
    assert [] + [REPORT] == [REPORT];
  }

  lemma DecidedByTenant()
    ensures Act(Witness(0, true, CompletionReported, [Quote(Approved, Some(Tenant))], [REPORT], None), TryDecideByTenant(TENANT, true, None, 0))
            == Some(TenantDone(Some(PAID_BY_TENANT)))
  {
    assert [REPORT][0 := Signed(Tenant)] == [Signed(Tenant)];
  }

  lemma DirectAsked(s: State)
    requires |s.repairs| > 0 && s.repairs[0] == TenantDone(Some(PAID_BY_TENANT)) && TAKEN !in s.keys.attempts
    ensures TAKEN in Apply(s, TryRequestDirect(0, TENANT, TAKEN)).keys.attempts
    ensures var s' := Apply(s, TryRequestDirect(0, TENANT, TAKEN));
            s' == s.(repairs := s'.repairs, keys := s'.keys) && |s'.repairs| == |s.repairs| && s'.keys == s.keys.(attempts := s'.keys.attempts)
            && forall i :: 0 < i < |s.repairs| ==> s'.repairs[i] == s.repairs[i]
  {
  }

  lemma SecondAssigned(s: State)
    requires s.tickets == TICKETS && |s.repairs| == 1 && s.repairs[0] == TenantDone(Some(PAID_BY_TENANT))
    ensures Apply(s, TryAssignVendor(MANAGER, 1, VENDOR, true, true))
            == s.(repairs := s.repairs + [Witness(1, false, Requested, [], [], None)])
  {
    assert s.repairs[..0] == [];
    assert FindOpen(s.repairs[..0], 1) == None;
  }

  lemma DecidedByManager(s: State)
    requires |s.repairs| == 2
    requires s.repairs[1] == Witness(1, false, CompletionReported, [Quote(Approved, Some(Manager))], [REPORT], Some(AWAITED))
    ensures var s' := Apply(s, TryDecideReport(1, MANAGER, true, None, 0));
            && |s'.repairs| == 2 && s'.repairs[0] == s.repairs[0] && s'.repairs[1] == ManagerDone() && s'.keys == s.keys && s'.books == s.books
  {
    assert [REPORT][0 := Signed(Manager)] == [Signed(Manager)];
  }

  lemma PolicySaved(s: State)
    ensures var s' := Apply(s, TryAccount(TrySavePolicy(MANAGER, AutoDebitUnderLimit(1))));
            s'.repairs == s.repairs && s'.keys == s.keys && E.PolicyAllows(s'.books, MANAGER, 1)
  {
  }

  lemma Onwards(a: State, b: State, c: Command)
    requires Reaches(a, b)
    ensures Reaches(a, Apply(b, c))
  {
    hide Reaches, Apply;
    StepReaches(b, c);
    ReachesFurther(a, b, Apply(b, c));
  }

  /** Repair 0 is done and approved by its tenant, and repair 1 is assigned. */
  lemma FirstHalf() returns (s: State)
    ensures Reaches(Initial(TICKETS), s)
    ensures |s.repairs| == 2 && s.repairs[1] == Witness(1, false, Requested, [], [], None)
    ensures s.repairs[0] == TenantDone(Some(PAID_BY_TENANT)) && TAKEN !in s.keys.attempts && Client("b") !in s.keys.submissions
  {
    hide Reaches, Apply, Act, Witness;
    var start := Initial(TICKETS);
    FirstRequested();
    StepReaches(start, TryRequestVendor(TENANT, 0, VENDOR, Client("c"), true, true));
    s := Apply(start, TryRequestVendor(TENANT, 0, VENDOR, Client("c"), true, true));
    WorkingReached(s, 0, 0, true);
    ReachesFurther(start, s, WithRepair(s, 0, Working(0, true)));
    s := WithRepair(s, 0, Working(0, true));
    ReportedBy(s, 0, 0, true, Client("a"));
    Onwards(start, s, TryReportCompletion(0, Client("a"), Reported(0), 0));
    s := Apply(s, TryReportCompletion(0, Client("a"), Reported(0), 0));
    DecidedByTenant();
    WorkReaches(s, 0, TryDecideByTenant(TENANT, true, None, 0), TenantDone(Some(PAID_BY_TENANT)));
    ReachesFurther(start, s, WithRepair(s, 0, TenantDone(Some(PAID_BY_TENANT))));
    s := WithRepair(s, 0, TenantDone(Some(PAID_BY_TENANT)));
    SecondAssigned(s);
    Onwards(start, s, TryAssignVendor(MANAGER, 1, VENDOR, true, true));
    s := Apply(s, TryAssignVendor(MANAGER, 1, VENDOR, true, true));
  }

  /** A reachable state in which an approved request waits, its manager's policy asks for the automatic
      debit, and its evaluation throws because a tenant has used its key after the approval made it known. */
  lemma TakenKeyIsReachable()
    ensures exists commands ::
              var s := Run(Initial(TICKETS), commands);
              KeyTaken(s, 1, 0) && E.PolicyAllows(s.books, MANAGER, 1) && Evaluate(s, 1, MANAGER, 0) == None
  {
    hide Apply, Run, Act, Evaluate, E.PolicyAllows, StateOk, StateContinues;
    var start := Initial(TICKETS);
    var s := FirstHalf();
    WorkingReached(s, 1, 1, false);
    ReachesFurther(start, s, WithRepair(s, 1, Working(1, false)));
    s := WithRepair(s, 1, Working(1, false));
    ReportedBy(s, 1, 1, false, Client("b"));
    Onwards(start, s, TryReportCompletion(1, Client("b"), Reported(1), 0));
    s := Apply(s, TryReportCompletion(1, Client("b"), Reported(1), 0));
    DecidedByManager(s);
    Onwards(start, s, TryDecideReport(1, MANAGER, true, None, 0));
    s := Apply(s, TryDecideReport(1, MANAGER, true, None, 0));
    DirectAsked(s);
    Onwards(start, s, TryRequestDirect(0, TENANT, TAKEN));
    s := Apply(s, TryRequestDirect(0, TENANT, TAKEN));
    PolicySaved(s);
    Onwards(start, s, TryAccount(TrySavePolicy(MANAGER, AutoDebitUnderLimit(1))));
    s := Apply(s, TryAccount(TrySavePolicy(MANAGER, AutoDebitUnderLimit(1))));
    var commands :| Run(start, commands) == s;
    BlockedNow(TICKETS, commands, 1, 0);
  }

  lemma BlockedNow(tickets: seq<Ticket>, commands: seq<Command>, i: nat, decision: nat)
    requires KeyTaken(Run(Initial(tickets), commands), i, decision)
    ensures var s := Run(Initial(tickets), commands);
            Evaluate(s, i, s.repairs[i].manager, decision).None?
            <==> E.PolicyAllows(s.books, s.repairs[i].manager, s.repairs[i].request.value.amount)
  {
    hide Apply, Evaluate, E.PolicyAllows;
    assert Run(Run(Initial(tickets), commands), []) == Run(Initial(tickets), commands);
    EvaluationStaysBlocked(tickets, commands, [], i, decision);
  }
}
