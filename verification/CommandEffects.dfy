/** The commands that wrap a transaction on one repair or one delivery: what else they read and write. */
module CommandEffects {
  import opened Options
  import opened Types
  import opened Workflow
  import opened Payments
  import opened Platform
  import opened Invariant
  import opened WorkflowEffects
  import W = WorkflowProofs
  import P = PaymentProofs
  import O = OutboxProofs
  import Outbox

  /** A workflow action is the transaction it is named after, on the rows of that one repair. */
  lemma WorkEffect(s: State, i: nat, action: Action)
    ensures var next := if i >= |s.repairs| then None
                        else
                          var r := s.repairs[i];
                          match action
                          case TrySaveDraft(vendor, estimate, input) => SaveDraft(r, vendor, estimate, input)
                          case TrySubmit(vendor, e) => SubmitEstimate(r, vendor, e)
                          case TryWithdraw(vendor, e) => WithdrawEstimate(r, vendor, e)
                          case TryReviewByManager(manager, e, review, note) => ReviewEstimate(r, manager, e, review, note)
                          case TryReviewByTenant(tenant, e, approve, note) => ReviewTenantEstimate(r, tenant, e, approve, note)
                          case TryVisitConfirmed(party, actor, e, at) => ConfirmVisit(r, party, actor, e, at)
                          case TrySchedule(vendor, at) => ScheduleApproved(r, vendor, at)
                          case TryStart(vendor, now) => StartJob(r, vendor, now)
                          case TryDecideByTenant(tenant, approved, note, now) => DecideTenantCompletion(r, tenant, approved, note, now);
            Work(s, i, action) == if next.Some? then Some(s.(repairs := s.repairs[i := next.value])) else None
  {
    hide SaveDraft, SubmitEstimate, WithdrawEstimate, ReviewEstimate, ReviewTenantEstimate, ConfirmVisit, ScheduleApproved, StartJob, DecideTenantCompletion;
  }

  /** A report under a new submission key is stored under it; under a used key the same report of the same
      vendor changes nothing, and any other is refused. */
  lemma ReportCommandEffect(s: State, i: nat, key: Key, payload: CompletionPayload, now: int)
    requires StateOk(s)
    ensures var known := i < |s.repairs| && payload.repair == i && payload.vendor == s.repairs[i].vendor && PayerKnown(s.repairs[i]);
            ReportCompletion(s, i, key, payload, now)
            == if !known then None
               else if key in s.keys.submissions then if s.keys.submissions[key] == payload then Some(s) else None
               else if Reportable(s.repairs[i], payload.vendor, payload.completedAt, now)
               then Some(s.(repairs := s.repairs[i := SubmitCompletion(s.repairs[i], payload.vendor, payload.completedAt, now).value],
                            keys := s.keys.(submissions := s.keys.submissions[key := payload]))) else None
  {
    hide StateOk, W.WorkflowOk, SubmitCompletion, NothingPending, Any;
    if i < |s.repairs| {
      WorkflowOf(s, i);
      ReportEffect(s.repairs[i], payload.vendor, payload.completedAt, now);
    }
  }

  lemma WorkflowOf(s: State, i: nat)
    requires StateOk(s) && i < |s.repairs|
    ensures W.WorkflowOk(s.repairs[i])
  {
    hide W.WorkflowOk, P.RequestOk;
    assert RepairOk(s.repairs[i], i);
  }

  /** A manager's first approval of a report with a payment request queues exactly one evaluation, of this
      request and decision and due at once; a rejection, an approval without a request and a repetition
      queue none. */
  lemma DecideCommandEffect(s: State, i: nat, manager: nat, approved: bool, note: Option<string>, now: int)
    ensures var next := DecideReport(s, i, manager, approved, note, now);
            && (next.Some? <==> i < |s.repairs| && DecideCompletion(s.repairs[i], manager, approved, note, now).Some?)
            && (next.Some? ==>
                  var r := s.repairs[i];
                  var r' := DecideCompletion(r, manager, approved, note, now).value;
                  var queued := approved && r.request.Some? && r.reports != [] && r.reports[|r.reports| - 1].decision.None?;
                  next.value == s.(repairs := s.repairs[i := r'],
                                   box := Outbox.Box(s.box.rows + (if queued then [Outbox.Delivery(Outbox.Pending, now, 0, None, None)] else []), s.box.claims),
                                   evaluations := s.evaluations + if queued then [Evaluation(i, |r.reports| - 1)] else []))
  {
    assert s.box.rows + [] == s.box.rows && s.evaluations + [] == s.evaluations;
  }

  // ---- the worker

  /** A worker evaluates the request of the delivery it claimed, for that repair's manager and with the
      delivery's decision; only then may it mark the delivery, and it may give it back at any time. */
  lemma WorkerEffect(s: State, token: nat, now: int, attempts: nat)
    requires StateOk(s)
    ensures if token >= |s.box.claims| then
              RunEvaluation(s, token) == None && FinishDelivery(s, token) == None && GiveBackDelivery(s, token, now, attempts) == None
            else
              var d := s.box.claims[token];
              && d < |s.evaluations| && s.evaluations[d].request < |s.repairs|
              && var e := s.evaluations[d];
                 var next := Evaluate(s, e.request, s.repairs[e.request].manager, e.decision);
                 && RunEvaluation(s, token) == (if next.Some? then Some(next.value.(evaluated := next.value.evaluated + {token})) else None)
                 && FinishDelivery(s, token)
                    == (if token in s.evaluated then Some(s.(box := Outbox.MarkDelivered(s.box, d, token).0)) else None)
                 && GiveBackDelivery(s, token, now, attempts) == Some(s.(box := Outbox.Reschedule(s.box, d, token, Outbox.RetryAt(now, attempts)).0))
  {
    hide Evaluate, Outbox.RetryAt, Outbox.MarkDelivered, Outbox.Reschedule, LeftWaiting, RepairsOk;
    if token < |s.box.claims| {
      assert EvaluationOk(s.repairs, s.evaluations[s.box.claims[token]]);
    }
  }
}
