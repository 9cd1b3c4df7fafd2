/** The invariant holds in every state that any sequence of commands can reach. */
module Runs {
  import opened Options
  import opened Types
  import opened Platform
  import opened Invariant
  import opened Frames
  import opened RequestSteps
  import opened OrderSteps

  lemma InitialOk(tickets: seq<Ticket>)
    ensures StateOk(Initial(tickets))
  {
  }

  lemma StepKeeps(s: State, c: Command)
    requires StateOk(s)
    ensures Steps(s, Apply(s, c))
  {
    hide StateOk, StateContinues, AssignVendor, RequestVendor, Work, ReportCompletion, DecideReport, Settle, Correct, RequestDirect,
         ConfirmDirect, CreateOrder, RetryOrder, CancelOrder, BeginConfirm, BeginReconcile, ProviderMoves, ReceiveAnswer, Persist,
         Account, ClaimDeliveries, RunEvaluation, FinishDelivery, GiveBackDelivery;
    StateContinuesItself(s);
    if Step(s, c).Some? {
      match c
      case TryAssignVendor(manager, ticket, vendor, eligible, assignable) => AssignVendorKeeps(s, manager, ticket, vendor, eligible, assignable);
      case TryRequestVendor(tenant, ticket, vendor, key, eligible, requestable) => RequestVendorKeeps(s, tenant, ticket, vendor, key, eligible, requestable);
      case TryWork(i, action) => WorkKeeps(s, i, action);
      case TryReportCompletion(i, key, payload, now) => ReportCompletionKeeps(s, i, key, payload, now);
      case TryDecideReport(i, manager, approved, note, now) => DecideReportKeeps(s, i, manager, approved, note, now);
      case TrySettle(i, manager, mode, key, actor, decision, evidence, now) => SettleKeeps(s, i, manager, mode, key, actor, decision, evidence, now);
      case TryCorrect(key, correction) => CorrectKeeps(s, key, correction);
      case TryRequestDirect(i, tenant, key) => RequestDirectKeeps(s, i, tenant, key);
      case TryConfirmDirect(i, vendor) => ConfirmDirectKeeps(s, i, vendor);
      case TryCreateOrder(i, party, user, creation) => CreateOrderKeeps(s, i, party, user, creation);
      case TryRetryOrder(ref, party, user, creation) => RetryOrderKeeps(s, ref, party, user, creation);
      case TryCancelOrder(ref, party, user) => CancelOrderKeeps(s, ref, party, user);
      case TryBeginConfirm(ref, party, user, paymentKey, amount) => BeginConfirmKeeps(s, ref, party, user, paymentKey, amount);
      case TryBeginReconcile(ref, party, user) => BeginReconcileKeeps(s, ref, party, user);
      case TryProviderMoves(ref, outcome) => ProviderMovesKeeps(s, ref, outcome);
      case TryReceiveAnswer(call, answer) => ReceiveAnswerKeeps(s, call, answer);
      case TryPersist(call) => PersistKeeps(s, call);
      case TryAccount(action) => AccountKeeps(s, action);
      case TryClaimDeliveries(limit, now, locked) => ClaimDeliveriesKeeps(s, limit, now, locked);
      case TryRunEvaluation(token) => RunEvaluationKeeps(s, token);
      case TryFinishDelivery(token) => FinishDeliveryKeeps(s, token);
      case TryGiveBackDelivery(token, now, attempts) => GiveBackDeliveryKeeps(s, token, now, attempts);
    }
  }

  /** Every run keeps the invariant, and everything written stays written. */
  lemma {:induction false} RunKeeps(s: State, commands: seq<Command>)
    requires StateOk(s)
    ensures Steps(s, Run(s, commands))
  {
    hide StateOk, StateContinues, Apply;
    if commands == [] {
      StateContinuesItself(s);
    } else {
      var n := |commands| - 1;
      RunKeeps(s, commands[..n]);
      StepKeeps(Run(s, commands[..n]), commands[n]);
      StepsTransitive(s, Run(s, commands[..n]), Run(s, commands));
    }
  }

  lemma Reachable(tickets: seq<Ticket>, commands: seq<Command>)
    ensures StateOk(Run(Initial(tickets), commands))
  {
    hide StateOk, StateContinues, Run;
    InitialOk(tickets);
    RunKeeps(Initial(tickets), commands);
  }

  /** Two points of one run. */
  lemma Later(tickets: seq<Ticket>, commands: seq<Command>, more: seq<Command>)
    ensures var s := Run(Initial(tickets), commands); StateOk(s) && Steps(s, Run(s, more))
  {
    hide StateOk, StateContinues, Run;
    Reachable(tickets, commands);
    RunKeeps(Run(Initial(tickets), commands), more);
  }
}
