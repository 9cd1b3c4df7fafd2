/** The vendor workflow over whole runs, and the snapshot that a payment request takes of it. */
module WorkflowTheorems {
  import opened Options
  import opened Types
  import opened Drafts
  import opened Workflow
  import opened Payments
  import opened Platform
  import opened Invariant
  import opened RequestSteps
  import opened Runs
  import P = PaymentProofs
  import W = WorkflowProofs

  // ---- repairs

  lemma RepairLater(s: State, s': State, i: nat)
    requires StateContinues(s, s') && i < |s.repairs|
    ensures i < |s'.repairs| && RepairContinues(s.repairs[i], s'.repairs[i])
  {
    hide RepairContinues, KeysContinue, AccountContinues;
  }

  /** A completed or cancelled repair keeps that status forever, and a repair keeps its ticket,
      vendor and initiator. */
  lemma ClosedStaysClosed(tickets: seq<Ticket>, commands: seq<Command>, more: seq<Command>, i: nat)
    ensures var s := Run(Initial(tickets), commands);
            var s' := Run(s, more);
            i < |s.repairs| ==>
              && i < |s'.repairs|
              && (Closed(s.repairs[i].status) ==> s'.repairs[i].status == s.repairs[i].status)
              && (s'.repairs[i].ticket, s'.repairs[i].vendor, s'.repairs[i].tenantInitiated)
                 == (s.repairs[i].ticket, s.repairs[i].vendor, s.repairs[i].tenantInitiated)
  {
    hide StateOk, StateContinues, Run, OrdersContinue, W.EstimatesContinue, W.RequestContinues;
    Later(tickets, commands, more);
    var s := Run(Initial(tickets), commands);
    if i < |s.repairs| {
      RepairLater(s, Run(s, more), i);
    }
  }

  /** A ticket never has two open repairs. */
  lemma OneOpenRepairPerTicket(tickets: seq<Ticket>, commands: seq<Command>, j: nat, k: nat)
    ensures var repairs := Run(Initial(tickets), commands).repairs;
            j < |repairs| && k < |repairs| && repairs[j].ticket == repairs[k].ticket
            && !Closed(repairs[j].status) && !Closed(repairs[k].status) ==>
              j == k
  {
    hide StateOk, Run;
    Reachable(tickets, commands);
    OneOpenOf(Run(Initial(tickets), commands));
  }

  // ---- estimates

  /** Versions are 1..n; at most one estimate is open and it is the newest; at most one is
      approved; at most one is under revision; while one is under review its repair is in
      ESTIMATE_SUBMITTED, SCHEDULED or IN_PROGRESS. */
  lemma VersionDiscipline(tickets: seq<Ticket>, commands: seq<Command>, i: nat, j: nat, k: nat)
    ensures var repairs := Run(Initial(tickets), commands).repairs;
            i < |repairs| && j < |repairs[i].estimates| && k < |repairs[i].estimates| ==>
              var e, f := repairs[i].estimates[j], repairs[i].estimates[k];
              && e.version == j + 1
              && (W.OpenEstimate(e.status) ==> j == |repairs[i].estimates| - 1)
              && (e.status == f.status && (e.status == Approved || e.status == RevisionRequested) ==> j == k)
              && (e.status == Submitted ==>
                    repairs[i].status == EstimateSubmitted || repairs[i].status == Scheduled || repairs[i].status == InProgress)
              && ContentOk(e.content)
  {
    hide StateOk, Run, P.RequestOk, RepairCharges, ContentOk, W.ReportsOk, W.SnapshotOk;
    var s := Run(Initial(tickets), commands);
    Reachable(tickets, commands);
    if i < |s.repairs| {
      RepairOf(s, i);
      if j < |s.repairs[i].estimates| {
        assert W.EstimateOk(s.repairs[i].estimates[j]);
      }
    }
  }

  /** An estimate keeps its version, and its content once it is no longer a draft. */
  lemma ContentIsFixedOnceSubmitted(tickets: seq<Ticket>, commands: seq<Command>, more: seq<Command>, i: nat, j: nat)
    ensures var s := Run(Initial(tickets), commands);
            var s' := Run(s, more);
            i < |s.repairs| && j < |s.repairs[i].estimates| ==>
              && i < |s'.repairs| && j < |s'.repairs[i].estimates|
              && s'.repairs[i].estimates[j].version == s.repairs[i].estimates[j].version
              && (s.repairs[i].estimates[j].status != Draft ==>
                    s'.repairs[i].estimates[j].status != Draft && s'.repairs[i].estimates[j].content == s.repairs[i].estimates[j].content)
  {
    hide StateOk, StateContinues, Run, OrdersContinue, W.RequestContinues;
    Later(tickets, commands, more);
    var s := Run(Initial(tickets), commands);
    if i < |s.repairs| && j < |s.repairs[i].estimates| {
      RepairLater(s, Run(s, more), i);
      assert W.EstimateContinues(s.repairs[i].estimates[j], Run(s, more).repairs[i].estimates[j]);
    }
  }

  // ---- the payment snapshot

  /** The amount of a request is the total of the approved lines of its estimate, a positive
      database integer. */
  lemma AmountIsTheApprovedTotal(tickets: seq<Ticket>, commands: seq<Command>, i: nat)
    ensures var s := Run(Initial(tickets), commands);
            HasRequest(s, i) ==>
              var q := s.repairs[i].request.value;
              && q.estimate < |s.repairs[i].estimates|
              && var e := s.repairs[i].estimates[q.estimate];
                 && e.status == Approved && e.content.Fixed?
                 && q.amount == Total(e.content.lines) && 0 < q.amount <= MAX_DATABASE_INT
  {
    hide StateOk, Run, P.RequestOk, RepairCharges;
    var s := Run(Initial(tickets), commands);
    Reachable(tickets, commands);
    if HasRequest(s, i) {
      RepairOf(s, i);
      assert W.EstimateOk(s.repairs[i].estimates[s.repairs[i].request.value.estimate]);
    }
  }

  /** All the settlement checks hold together exactly when the given decision is the one recorded
      on the request: for a request that a manager has approved they can never start to fail. */
  lemma SettlementChecksHold(tickets: seq<Ticket>, commands: seq<Command>, i: nat, decision: nat)
    ensures var s := Run(Initial(tickets), commands);
            HasRequest(s, i) ==>
              (SettlementValid(s.repairs[i], decision) <==> s.repairs[i].request.value.decision == Some(decision))
  {
    hide StateOk, Run, P.RequestOk, RepairCharges, ContentOk;
    var s := Run(Initial(tickets), commands);
    Reachable(tickets, commands);
    if HasRequest(s, i) {
      AmountIsTheApprovedTotal(tickets, commands, i);
      RepairOf(s, i);
    }
  }

  /** Once a request exists, its payer, amount and estimate row are fixed, and so is a recorded
      decision; a request that has left WAITING_COMPLETION never returns to it. */
  lemma SnapshotIsFixed(tickets: seq<Ticket>, commands: seq<Command>, more: seq<Command>, i: nat)
    ensures var s := Run(Initial(tickets), commands);
            var s' := Run(s, more);
            HasRequest(s, i) ==>
              && HasRequest(s', i)
              && var q, q' := s.repairs[i].request.value, s'.repairs[i].request.value;
                 && (q'.payer, q'.amount, q'.estimate) == (q.payer, q.amount, q.estimate)
                 && q.estimate < |s.repairs[i].estimates| && q.estimate < |s'.repairs[i].estimates|
                 && s'.repairs[i].estimates[q.estimate] == s.repairs[i].estimates[q.estimate]
                 && (q.decision.Some? ==> q'.decision == q.decision)
                 && (q.status != WaitingCompletion ==> q'.status != WaitingCompletion)
                 && (Final(q.status) ==> Final(q'.status))
  {
    hide StateOk, StateContinues, Run, OrdersContinue, W.EstimateContinues;
    Later(tickets, commands, more);
    var s := Run(Initial(tickets), commands);
    if i < |s.repairs| {
      RepairLater(s, Run(s, more), i);
    }
  }
}
