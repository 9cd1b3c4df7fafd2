# Verification of the repair money path

This project models how a repair is paid for and proves what its database transactions promise
together. The model is one state machine: a vendor's versioned estimate, the work and its completion
report, the decision on it, the payment request that the approval opens, and exactly one payment of
that request, by prepaid credit, by a recorded direct payment or by a Toss order.

A command of the machine (`Platform.dfy`) is one transaction, one move of the payment provider, or one
step of the service that talks to the provider. Everything the code does not decide is in the command:
clocks, the provider's answers, which rows another transaction has locked, whether a vendor or ticket
qualifies. A crash is a step that never comes, so every interleaving and every crash between two
transactions is some sequence of commands. A transaction that throws changes nothing. The results hold
in every state that any sequence of commands can reach.

The provider is honest but may stay silent: a refused confirmation, and a payment it reports as aborted
or expired, is never charged later; a payment it reports as done has been charged; nothing is promised
by any other error. It may settle the fate of a claimed payment at any time, even if no request to it
was ever answered.

| files | contents |
|---|---|
| `Types`, `Drafts`, `Workflow`, `Payments`, `Ledger`, `Outbox`, `Platform` | rows, transactions and the machine |
| `WorkflowProofs`, `PaymentProofs`, `LedgerProofs` | what each transaction keeps for its own rows |
| `WorkflowEffects`, `PaymentEffects`, `OrderEffects`, `AccountEffects`, `TopupEffects`, `OutboxEffects`, `CommandEffects` | when each transaction goes through and what it leaves behind, in terms of rows, with the rules' statuses and roles named independently of the transactions |
| `Invariant`, `Frames`, `RequestSteps`, `OrderSteps`, `Runs` | the invariant of the whole machine, kept by every command and every run |
| `PaymentTheorems`, `LedgerTheorems`, `WorkflowTheorems`, `ReplayTheorems` | the main results |
| `Database`, `WorkflowRepository`, `CreditRepository`, `OrderRepository`, `CreditWorker`, `TopupService` | the repositories and services as classes that update tables in place, each proved equal to commands of the machine |
| `Events`, `EventCompleteness` | the domain events of every command, that each key is enqueued once and that none is missing |
| `TopupRuns`, `AutomaticKey` | top-ups together with the provider; the automatic evaluation whose key was used |
| `AgentGate`, `Scheduler`, `Orchestrator`, `Calendar`, `Csv` | smaller independent parts |

Findings that differ from what one might expect:

- Reconciling a top-up believes a refused lookup, and an aborted or expired report about any payment, so
  a top-up that was charged can end FAILED (`TopupRuns.ChargedTopupCanBeLost`). In every reachable world
  only a call that acted on such an answer loses a charged top-up
  (`TopupRuns.ChargedIsLostOnlyByMisleading`). Reconciling a repair order does not have this.
- A lost command lookup requeues a reconstruction job without comparing its attempts with `maxAttempts`.
  Attempts are spent at dispatch, so a lookup lost before they are used up costs a retry like any failure;
  each one lost afterwards allows one dispatch too many. `SchedulerProofs.AttemptsAreExact` gives exactly
  when and by how much, `SchedulerProofs.LostLookupOverspends` shows that there is no other bound.
- The automatic evaluation derives its attempt key from request and decision. If somebody uses that key
  after the approval and before the evaluation, the evaluation throws as long as the policy asks for an
  automatic debit (`AutomaticKey.EvaluationStaysBlocked`); such a state can be reached
  (`AutomaticKey.TakenKeyIsReachable`).
- A bill due in January of the year 1000 has a payable date whose year has three digits
  (`Calendar.PayableYearHasFourDigits`).

Modelling choices: a row's id is its position in its table; rows that belong to one repair through an
immutable foreign key are kept inside it, and a payment request has the id of its repair because there is
at most one. Unique columns that span repairs are maps. Payload hashes are taken as injective and are
modelled by what they cover. Text is trimmed and checked for being blank before it enters the model. A
top-up's provider is a separate machine around the first (`TopupRuns.dfy`), with the same honesty. A
settlement in automatic mode asks no policy when it is requested explicitly, which the repository allows
and the service never does; results about the policy exclude that command.

## Model

| member | source | states |
|---|---|---|
| PaymentTheorems.NoStrandedCharge | apps/api/src/credit/repair-payment-order.service.ts:203-336 | In every reachable state an order the provider has charged is confirming, uncertain or approved; until approved its request is payable for it alone, nothing else has paid, and no other order of the request was charged |
| PaymentTheorems.ReconcileCompletes | apps/api/src/credit/repair-payment-order.service.ts:274-336 | From any reachable state, the next reconciliation of a charged order that is answered ends with the order approved and the request TOSS_PAID |
| PaymentTheorems.AnswerCompletes | apps/api/src/credit/prisma-repair-payment-order.repository.ts:638-771 | Whenever an answer says an order in flight was paid, the following transaction approves order and request; none of its conflict checks can fire |
| PaymentTheorems.ConfirmedAtMostOnce | apps/api/src/credit/repair-payment-order.service.ts:203-233 | Over any interleaving of confirmations and reconciliations the provider's confirm is called at most once per order |
| PaymentTheorems.TossMutex | apps/api/src/credit/prisma-repair-payment-order.repository.ts:397-480 | At most one open order per request; the open key is held exactly by it; meanwhile the request stays payable and is not a tenant's direct payment in progress |
| PaymentTheorems.PaymentKeysAreUnique | apps/api/src/credit/prisma-repair-payment-order.repository.ts:608-617 | Two orders of any requests never share a payment key |
| PaymentTheorems.PaidAtMostOnce | apps/api/src/credit/prisma-credit-command.repository.ts:1798-1957 | Successful attempts plus approved orders of a request are one if it is paid or was undone, and zero otherwise, in every reachable state |
| PaymentTheorems.OnePayment | apps/api/src/credit/prisma-credit-command.repository.ts:1798-1957 | The same for any request that satisfies its row invariant |
| PaymentTheorems.CostsAgree | apps/api/src/credit/prisma-credit-command.repository.ts:1528-1554 | A manager's request has a confirmed cost of its amount exactly while paid and a void one exactly when undone; a tenant's never has a cost or debit |
| PaymentTheorems.CorrectionsSucceed | apps/api/src/credit/prisma-credit-command.repository.ts:1320-1440 | Exactly which reversals, voids and cancellations go through: their consistency checks never fail, and only a balance too high stops a reversal |
| PaymentTheorems.DebitOf | apps/api/src/credit/prisma-credit-command.repository.ts:1322-1344 | For a credit-paid request the ledger entry check of a reversal always holds |
| PaymentTheorems.EventsAreWrittenOnce | apps/api/src/credit/prisma-credit-command.repository.ts:1556-1626 | The event list of a payment request holds no key twice; for the keys of all events see Events.KeysAreEnqueuedOnce |
| Events.KeysAreEnqueuedOnce | apps/api/src/domain-events/prisma-domain-event.repository.ts:114-163 | Over any run each event key is enqueued at most once, and so is any key that contradicts it (an estimate reviewed twice, a report decided both ways, a top-up both approved and failed), for assignments, estimates, reviews, reports, decisions, requests, payments and top-ups; whatever was enqueued has happened |
| Events.EvaluationsAreEnqueuedOnce | apps/api/src/roomlog/prisma-vendor-workflow.repository.ts:2392-2413 | Over any run no request is enqueued twice for credit evaluation, whichever decision it is for |
| Events.PaymentEventsAreLogged | apps/api/src/credit/prisma-credit-command.repository.ts:1748-1796 | A payment state is in a request's events exactly when its key was enqueued: the log of a run misses no payment event |
| EventCompleteness.LogIsComplete | apps/api/src/domain-events/prisma-domain-event.repository.ts:114-163 | Over any run everything that happened was announced: whatever the rows say of assignments, estimates, reviews, reports, decisions, requests, payments and top-ups has its key in the log, and what lasts is in the log only if it is so |
| OutboxEffects.CandidatesEffect | apps/api/src/domain-events/prisma-domain-event.repository.ts:165-221 | A poll takes only unlocked deliveries that are due or whose lease has ended, oldest first, each once, and all of them unless the batch is full of earlier ones |
| OutboxEffects.ClaimPendingEffect | apps/api/src/domain-events/prisma-domain-event.repository.ts:165-221 | What a poll leases, under which token and until when; it refuses a lease that is over |
| OutboxEffects.ReleaseEffect | apps/api/src/domain-events/prisma-domain-event.repository.ts:223-259 | Whoever holds a delivery finishes it or gives it back; anybody else changes nothing |
| OutboxEffects.RetryEffect | apps/api/src/roomlog/completion-credit-delivery.worker.ts:28-31 | One second after the first attempt, doubling each time, 256 seconds from the ninth on |
| OutboxEffects.LeaseIsExclusive | apps/api/src/domain-events/prisma-domain-event.repository.ts:165-221 | Over any run a claimed delivery is claimed by nobody else until its lease has ended or its worker has finished it or given it back |
| OutboxEffects.CrashedIsReclaimed | apps/api/src/domain-events/prisma-domain-event.repository.ts:182-188 | A delivery whose worker never came back is leased again by any poll from the end of its lease on, unless locked or the batch is full of earlier ones |
| Events.StepNews | apps/api/src/domain-events/prisma-domain-event.repository.ts:114-163 | What one command enqueues had not happened before it, has happened after it, and is about different things |
| LedgerTheorems.Conservation | apps/api/src/credit/prisma-credit-command.repository.ts:1345-1388 | In every reachable state the balance is in range, is the sum of its ledger, and equals opening plus approved top-ups less debited payouts less amounts currently credit-paid; every balanceAfter is the running sum |
| LedgerTheorems.LedgerIsAppendOnly | apps/api/src/credit/prisma-credit-command.repository.ts:1376-1388 | Ledger entries are never changed or removed over a run |
| LedgerTheorems.ReversalRestores | apps/api/src/credit/prisma-credit-command.repository.ts:1320-1398 | A reversal adds one entry opposite to the debit it points at and gives the account back exactly that amount |
| LedgerTheorems.DebitedAtMostOnce | apps/api/src/roomlog/completion-credit-delivery.worker.ts:106-142 | With any workers, crashes, lease expiries and redeliveries a request has at most one debit and one reversal, and these follow its status exactly |
| LedgerTheorems.DeliveredMeansEvaluated | apps/api/src/roomlog/completion-credit-delivery.worker.ts:115-126 | A delivery is DELIVERED only if its request has left WAITING_COMPLETION, now and at every later time |
| LedgerTheorems.ApprovalIsQueued | apps/api/src/roomlog/prisma-vendor-workflow.repository.ts:2385-2413 | An approved request that still waits has a delivery that is not yet delivered |
| LedgerTheorems.RedeliveryNeverThrows | apps/api/src/credit/prisma-credit-command.repository.ts:1079-1118 | In every reachable state evaluating a claimed delivery whose request has left WAITING_COMPLETION returns and changes nothing: no settlement check and no used key makes a redelivery throw |
| LedgerTheorems.LeasesAreConsistent | apps/api/src/domain-events/prisma-domain-event.repository.ts:165-259 | For every delivery of every reachable state: PROCESSING exactly when it has a token, exactly when it has a lease; the token is that of its newest claim; attemptCount is the number of its claims |
| LedgerTheorems.SupersededWorkersAreFenced | apps/api/src/domain-events/prisma-domain-event.repository.ts:223-259 | In every reachable state a worker whose delivery was claimed again can neither finish it nor give it back, whether its evaluation returned or threw |
| LedgerTheorems.TopupEntries | apps/api/src/credit/prisma-credit-command.repository.ts:815-851 | A top-up has one TOPUP entry exactly when it is approved, with its amount and manager |
| LedgerTheorems.TopupsFinish | apps/api/src/credit/credit.service.ts:209-343 | Approved, failed and cancelled top-ups never change; once a caller was told to ask the provider no later caller is |
| TopupRuns.AskedExactlyOnce | apps/api/src/credit/prisma-credit-command.repository.ts:692-753 | Over any run the claims of a top-up that answer "ask the provider" number one if it has a payment key by then and zero otherwise |
| TopupRuns.ConfirmedAtMostOnce | apps/api/src/credit/credit.service.ts:209-235 | Over any interleaving with the provider, its confirm is called at most once per top-up |
| TopupRuns.ChargedIsLostOnlyByMisleading | apps/api/src/credit/credit.service.ts:225-343 | In every reachable world a charged top-up is in flight or approved, unless a call gave it up, and that call acted on a refused lookup or on an aborted or expired report about another payment |
| TopupRuns.ChargedTopupCanBeLost | apps/api/src/credit/credit.service.ts:288-303 | It does happen: a run with an honest provider that ends with a charged top-up FAILED |
| TopupRuns.ApprovedIsCharged | apps/api/src/credit/credit.service.ts:225-276 | In every reachable world an approved top-up has been charged |
| TopupRuns.WorldIsOk | apps/api/src/credit/credit.service.ts:209-343 | Every interleaving of confirmations, lookups, answers, the transactions that follow and all other commands keeps the top-up invariant |
| TopupRuns.BookingSucceeds | apps/api/src/credit/prisma-credit-command.repository.ts:755-950 | In every reachable state a top-up in flight that is reported done is approved if and only if the report has method and time, the credit stays within the limit, and a Gara top-up's vendor can be paid under an unused payout key; otherwise it is left uncertain |
| TopupRuns.ServiceIsRun | apps/api/src/credit/credit.service.ts:225-343 | The service's reaction to an answer is one or two of these transactions in a row |
| AutomaticKey.EvaluationStaysBlocked | apps/api/src/credit/prisma-credit-command.repository.ts:1146-1168 | Once a waiting request's automatic key is taken, at every later point at which it still waits its evaluation throws exactly while the policy asks for an automatic debit |
| AutomaticKey.TakenKeyIsReachable | apps/api/src/credit/prisma-credit-command.repository.ts:1146-1168 | It does happen: a run in which a tenant's direct payment takes the key and the evaluation of the approved request throws |
| WorkflowTheorems.ClosedStaysClosed | apps/api/src/roomlog/prisma-vendor-workflow.repository.ts:620-659 | Completed and cancelled repairs keep their status forever; a repair keeps its ticket, vendor and initiator |
| WorkflowTheorems.OneOpenRepairPerTicket | apps/api/src/roomlog/prisma-tenant-vendor-connection.repository.ts:193-208 | A ticket never has two open repairs, whichever path creates them |
| WorkflowTheorems.VersionDiscipline | apps/api/src/roomlog/prisma-vendor-workflow.repository.ts:1189-1235 | Versions are 1..n, the open estimate is the newest, at most one is approved and one under revision, and while one is submitted its repair is in ESTIMATE_SUBMITTED, SCHEDULED or IN_PROGRESS |
| WorkflowTheorems.ContentIsFixedOnceSubmitted | apps/api/src/roomlog/prisma-vendor-workflow.repository.ts:1177-1187 | An estimate keeps its version, and its content once it is not a draft |
| WorkflowTheorems.AmountIsTheApprovedTotal | apps/api/src/roomlog/prisma-vendor-workflow.repository.ts:1933-2015 | A request's amount is the sum of quantity times unit amount of its approved estimate and fits 1..2^31-1 |
| WorkflowTheorems.SettlementChecksHold | apps/api/src/credit/prisma-credit-command.repository.ts:1662-1712 | In every reachable state all settlement checks together hold if and only if the given decision is the recorded one |
| WorkflowTheorems.SnapshotIsFixed | apps/api/src/credit/prisma-credit-command.repository.ts:1662-1712 | Payer, amount, estimate row and a recorded decision of a request never change; it never returns to WAITING_COMPLETION, and a final request stays final |
| ReplayTheorems.SettlementReplays | apps/api/src/credit/prisma-credit-command.repository.ts:1241-1275 | A recorded settlement repeated at any later point changes nothing, with the decision given or left out |
| ReplayTheorems.SettlementIsRecorded | apps/api/src/credit/prisma-credit-command.repository.ts:1798-1957 | A settlement that took effect has recorded its key and payload |
| ReplayTheorems.UsedSettlementKey | apps/api/src/credit/prisma-credit-command.repository.ts:1241-1275 | A used settlement key with anything but the recorded payload is refused without effect |
| ReplayTheorems.CorrectionReplays | apps/api/src/credit/prisma-credit-command.repository.ts:1482-1505 | A correction repeated at any later point changes nothing; its key with another payload is refused |
| ReplayTheorems.UsedCorrectionKey | apps/api/src/credit/prisma-credit-command.repository.ts:1489-1503 | The receipt decides every repetition of a correction |
| ReplayTheorems.CreationReplays | apps/api/src/credit/prisma-repair-payment-order.repository.ts:431-452 | Repeating an order creation later never makes a second order: the stored one is returned exactly while the request can be prepared; its key is refused for any other creation and for any retry |
| ReplayTheorems.UsedCreationKey | apps/api/src/credit/prisma-repair-payment-order.repository.ts:431-447 | A used creation key returns only the order it created |
| ReplayTheorems.RetryReplays | apps/api/src/credit/prisma-repair-payment-order.repository.ts:889-905 | A retry repeated at any later point returns its order and changes nothing, whatever became of order and request; its key is refused for any other retry and for any creation |
| ReplayTheorems.UsedRetryKey | apps/api/src/credit/prisma-repair-payment-order.repository.ts:889-905 | A used retry key is accepted if and only if it is that very retry of that very order |
| ReplayTheorems.UsedCompletionKey | apps/api/src/roomlog/prisma-vendor-workflow.repository.ts:1827-1858 | A used submission key with another payload is refused |
| ReplayTheorems.PayoutReplays | apps/api/src/credit/prisma-credit-command.repository.ts:364-386 | A manager's payout repeated at any later point changes nothing; its key with another payload, or for a vendor's own request, is refused |
| ReplayTheorems.PayoutRequestReplays | apps/api/src/credit/prisma-credit-command.repository.ts:473-490 | A vendor's payout request repeated at any later point, even after it was settled, changes nothing; its key with another payload, or for a manager's payout, is refused |
| ReplayTheorems.PayoutSettlesOnce | apps/api/src/credit/prisma-credit-command.repository.ts:619-690 | A settled payout is never debited again, at any later point and under any key |
| ReplayTheorems.TopupReplays | apps/api/src/credit/prisma-credit-command.repository.ts:228-349 | A top-up creation repeated at any later point, whatever became of the order, changes nothing; its key for another order is refused |
| Runs.RunKeeps | apps/api/src/credit/prisma-credit-command.repository.ts:173-192 | Every run of commands keeps the whole invariant and everything already written |
| Runs.StepKeeps | apps/api/src/credit/prisma-credit-command.repository.ts:173-192 | Every single command does |
| WorkflowEffects.NormalizeMeans | apps/api/src/roomlog/prisma-vendor-workflow.repository.ts:310-356 | Exactly which inputs are accepted, and that a fixed one is stored with exactly its own lines and their sum, a visit with its time, a refusal as a refusal |
| Drafts.TotalOfBoth | apps/api/src/roomlog/prisma-vendor-workflow.repository.ts:319-345 | The totals of two lists of lines add up |
| Drafts.TotalOfLine | apps/api/src/roomlog/prisma-vendor-workflow.repository.ts:319-345 | The total of one line is quantity times unit amount |
| WorkflowEffects.SaveDraftEffect | apps/api/src/roomlog/prisma-vendor-workflow.repository.ts:1160-1236 | When a draft is saved, and that afterwards it is the newest estimate and holds exactly the vendor's own lines, visit or refusal |
| WorkflowEffects.SubmitEffect | apps/api/src/roomlog/prisma-vendor-workflow.repository.ts:1238-1353 | When a draft can be submitted, the row it changes, the revision requests it answers, and what a refusal cancels |
| WorkflowEffects.ResubmitEffect | apps/api/src/roomlog/prisma-vendor-workflow.repository.ts:1238-1269 | Submitting anything but a draft again changes nothing, except that a withdrawn one is refused |
| WorkflowEffects.WithdrawEffect | apps/api/src/roomlog/prisma-vendor-workflow.repository.ts:1355-1385 | When an estimate can be withdrawn, where its repair falls back to, and that withdrawing again changes nothing |
| WorkflowEffects.ReviewEffect | apps/api/src/roomlog/prisma-vendor-workflow.repository.ts:1387-1530 | When the manager's review goes through and what each kind of review leaves behind |
| WorkflowEffects.RepeatedReviewEffect | apps/api/src/roomlog/prisma-vendor-workflow.repository.ts:1420-1447 | The same review again changes nothing, any other is refused |
| WorkflowEffects.TenantReviewEffect | apps/api/src/roomlog/prisma-vendor-workflow.repository.ts:933-1078 | When the tenant's review goes through and what it leaves behind |
| WorkflowEffects.RepeatedTenantReviewEffect | apps/api/src/roomlog/prisma-vendor-workflow.repository.ts:957-997 | The tenant's same review again changes nothing, any other is refused |
| WorkflowEffects.VisitEffect | apps/api/src/roomlog/prisma-vendor-workflow.repository.ts:1532-1593 | Who can confirm which visit, once and again; the repair is then open although nothing checks that |
| WorkflowEffects.ScheduleEffect | apps/api/src/roomlog/prisma-vendor-workflow.repository.ts:1595-1636 | In every status, when work can be scheduled; the same date again changes nothing |
| WorkflowEffects.StartEffect | apps/api/src/roomlog/prisma-vendor-workflow.repository.ts:1638-1691 | In every status, when work can be started; a started job keeps its time |
| WorkflowEffects.ApprovedIsUnique | apps/api/src/roomlog/prisma-vendor-workflow.repository.ts:1933-1943 | The approved estimate that completion looks up is the only one |
| WorkflowEffects.ReportEffect | apps/api/src/roomlog/prisma-vendor-workflow.repository.ts:1808-2095 | Exactly when a completion report is accepted, and that landlord-borne work opens or relinks the payment request over the approved total |
| WorkflowEffects.DecisionEffect | apps/api/src/roomlog/prisma-vendor-workflow.repository.ts:2281-2421 | When the manager's decision goes through, and what it records on repair, report and request |
| WorkflowEffects.RepeatedDecisionEffect | apps/api/src/roomlog/prisma-vendor-workflow.repository.ts:2308-2325 | The same decision again changes nothing, a different one is refused, by manager and tenant alike |
| WorkflowEffects.TenantDecisionEffect | apps/api/src/roomlog/prisma-vendor-workflow.repository.ts:2097-2279 | Exactly when the tenant's decision goes through; an approval opens a request over the estimate the tenant approved |
| CommandEffects.WorkEffect | apps/api/src/roomlog/prisma-vendor-workflow.repository.ts:933-1691 | A workflow action is the transaction it is named after and changes no other repair |
| CommandEffects.ReportCommandEffect | apps/api/src/roomlog/prisma-vendor-workflow.repository.ts:1827-1870 | A report under a new submission key is stored under it; under a used key the same report changes nothing and any other is refused |
| CommandEffects.DecideCommandEffect | apps/api/src/roomlog/prisma-vendor-workflow.repository.ts:2334-2413 | A first approval with a payment request queues exactly one evaluation, of this request and decision and due at once; nothing else queues one |
| CommandEffects.WorkerEffect | apps/api/src/roomlog/completion-credit-delivery.worker.ts:106-142 | What a worker evaluates for the delivery it claimed, that it marks only after that, and that it may give back at any time |
| PaymentEffects.SettleLockedEffect | apps/api/src/credit/prisma-credit-command.repository.ts:1798-1957 | All rows of a settlement: one attempt under the key, and either payment with cost, debit, entry and balance, or INSUFFICIENT_CREDIT with the account untouched |
| PaymentEffects.SettleEffect | apps/api/src/credit/prisma-credit-command.repository.ts:1182-1318 | Exactly when a settlement with a new key goes through, including its evidence, and the rows it leaves; for a settled request nothing |
| PaymentEffects.CorrectionEffect | apps/api/src/credit/prisma-credit-command.repository.ts:1320-1626 | What a correction under a new key leaves: the status, the void cost, the reversal entry and the receipt, for exactly the payment it is meant for |
| PaymentEffects.RequestDirectEffect | apps/api/src/roomlog/prisma-vendor-workflow.repository.ts:2423-2547 | Exactly when a tenant's choice to pay directly goes through, the attempt STARTED under its key and mode DIRECT; choosing again changes nothing |
| PaymentEffects.ConfirmDirectEffect | apps/api/src/roomlog/prisma-vendor-workflow.repository.ts:2549-2646 | Exactly when the vendor's confirmation goes through: the last started attempt SUCCEEDED, status DIRECT_PAID with that attempt as reference, the event logged; again changes nothing |
| PaymentEffects.EvaluateEffect | apps/api/src/credit/prisma-credit-command.repository.ts:1101-1168 | A waiting request is debited if and only if the stored policy is an automatic debit with a limit not below its amount and the balance suffices; short credit is noted; above the limit it goes up for approval |
| PaymentEffects.OtherEvaluations | apps/api/src/credit/prisma-credit-command.repository.ts:1101-1121 | Any other evaluation changes nothing or is refused |
| AccountEffects.SavedPolicyIsObeyed | apps/api/src/credit/prisma-credit-command.repository.ts:1049-1077 | Over any run, from a saved policy until the same manager saves another, no automatic debit exceeds its limit, and none happens while approval is always required |
| AccountEffects.SavePolicyEffect | apps/api/src/credit/prisma-credit-command.repository.ts:1049-1077 | Exactly which policies are stored, and that nothing else but a missing account changes |
| AccountEffects.SeedDemoEffect | apps/api/src/credit/vendor-credit-demo-seed.ts:66-111 | A new account opens with the demo balance and its entry; an existing one is never touched |
| AccountEffects.CancelledTopupEffect | apps/api/src/credit/prisma-credit-command.repository.ts:1030-1047 | A top-up can be cancelled exactly while READY; over any run it then stays cancelled and no claim of it succeeds |
| PaymentEffects.NewOrderEffect | apps/api/src/credit/prisma-repair-payment-order.repository.ts:397-480 | Exactly when an order can be created or retried, and the rows that result |
| OrderEffects.CreationEffect | apps/api/src/credit/prisma-repair-payment-order.repository.ts:397-480 | Only the payer creates or retries, and the new order is stored under its key |
| OrderEffects.CancelEffect | apps/api/src/credit/prisma-repair-payment-order.repository.ts:835-856 | Only the payer cancels, and only a READY or failed order |
| OrderEffects.BeginConfirmEffect | apps/api/src/credit/repair-payment-order.service.ts:203-233 | One caller claims a READY order and asks the provider; a repetition asks nothing, everybody else is refused |
| OrderEffects.BeginReconcileEffect | apps/api/src/credit/repair-payment-order.service.ts:274-290 | Exactly an order in flight is looked up |
| OrderEffects.AnswerEffect | apps/api/src/credit/repair-payment-order.service.ts:234-336 | Every answer about an order in flight: a refused confirmation, or a lookup that reports this payment aborted or expired, leaves it FAILED without its open key; a complete paid report approves; anything else leaves it RECONCILIATION_REQUIRED |
| OrderEffects.LateAnswerEffect | apps/api/src/credit/prisma-repair-payment-order.repository.ts:773-833 | An answer about an order no longer in flight changes no row |
| OrderEffects.RefusalFreesRequest | apps/api/src/credit/prisma-repair-payment-order.repository.ts:773-802 | After a refusal the request takes a new order at once |
| OrderEffects.FinalizeEffect | apps/api/src/credit/prisma-repair-payment-order.repository.ts:638-771 | Exactly which reports finalize an order, once and again |
| OrderEffects.ReceiveAnswerEffect | apps/api/src/payment/toss-payment.gateway.ts:128-137 | Exactly what an honest provider may answer at any moment |
| PaymentEffects.ClaimEffect | apps/api/src/credit/prisma-repair-payment-order.repository.ts:546-636 | Exactly which claims succeed, which are repetitions, and that the order is then confirming under the caller's key |
| PaymentEffects.PayoutEffect | apps/api/src/credit/prisma-credit-command.repository.ts:351-595 | Exactly when Gara payouts go through and their rows; a vendor's request is debited at once if and only if the stored limit is not below it and the balance suffices |
| PaymentEffects.SettlePayoutEffect | apps/api/src/credit/prisma-credit-command.repository.ts:619-690 | A waiting payout is debited once by its later settlement |
| PaymentEffects.CreateTopupEffect | apps/api/src/credit/prisma-credit-command.repository.ts:228-349 | When a top-up is created or returned |
| TopupEffects.ClaimTopupEffect | apps/api/src/credit/prisma-credit-command.repository.ts:692-753 | Exactly which caller is told to ask the provider, who is told it need not, and who is refused |
| TopupEffects.TopupAnswerEffect | apps/api/src/credit/credit.service.ts:225-343 | In every reachable world, what every answer about a top-up in flight leads to; no other top-up changes, and credit moves only on approval |
| PaymentEffects.AssignVendorEffect | apps/api/src/roomlog/prisma-vendor-workflow.repository.ts:550-659 | Exactly when an assignment goes through, what it creates and what it cancels |
| PaymentEffects.RequestVendorEffect | apps/api/src/roomlog/prisma-tenant-vendor-connection.repository.ts:145-251 | When a tenant's vendor request opens a repair, and what it opens |
| PaymentEffects.ActiveIsOpen | apps/api/src/credit/prisma-credit-command.repository.ts:1442-1460 | The lookup by open key finds an order exactly when one is open by status |
| WorkflowProofs.SaveDraftKeeps | apps/api/src/roomlog/prisma-vendor-workflow.repository.ts:1160-1236 | Saving a draft keeps the repair invariant and past facts |
| WorkflowProofs.SubmitEstimateKeeps | apps/api/src/roomlog/prisma-vendor-workflow.repository.ts:1238-1353 | So does submitting, including the refusal that cancels the repair |
| WorkflowProofs.WithdrawEstimateKeeps | apps/api/src/roomlog/prisma-vendor-workflow.repository.ts:1355-1385 | So does withdrawing |
| WorkflowProofs.RestoreKeeps | apps/api/src/roomlog/prisma-vendor-workflow.repository.ts:3168-3214 | Falling back after an exit keeps it |
| WorkflowProofs.ReviewEstimateKeeps | apps/api/src/roomlog/prisma-vendor-workflow.repository.ts:1387-1530 | So does the manager's review |
| WorkflowProofs.ReviewTenantEstimateKeeps | apps/api/src/roomlog/prisma-vendor-workflow.repository.ts:933-1078 | So does the tenant's review |
| WorkflowProofs.ConfirmVisitKeeps | apps/api/src/roomlog/prisma-vendor-workflow.repository.ts:1532-1593 | So does confirming a visit, because a submitted estimate implies an open repair |
| WorkflowProofs.ScheduleApprovedKeeps | apps/api/src/roomlog/prisma-vendor-workflow.repository.ts:1595-1636 | So does scheduling |
| WorkflowProofs.StartJobKeeps | apps/api/src/roomlog/prisma-vendor-workflow.repository.ts:1638-1691 | So does starting |
| WorkflowProofs.SubmitCompletionKeeps | apps/api/src/roomlog/prisma-vendor-workflow.repository.ts:1808-2095 | So does reporting completion |
| WorkflowProofs.DecideCompletionKeeps | apps/api/src/roomlog/prisma-vendor-workflow.repository.ts:2281-2421 | So does the manager's decision |
| WorkflowProofs.DecideTenantCompletionKeeps | apps/api/src/roomlog/prisma-vendor-workflow.repository.ts:2097-2279 | So does the tenant's decision |
| WorkflowProofs.LatestIsLast | apps/api/src/roomlog/prisma-vendor-workflow.repository.ts:1189-1193 | The newest version is the last row |
| Drafts.NormalizeAccepts | apps/api/src/roomlog/prisma-vendor-workflow.repository.ts:310-358 | Exactly which fixed estimates are accepted |
| Drafts.TotalIsPositive | apps/api/src/roomlog/prisma-vendor-workflow.repository.ts:343-346 | A total of allowed lines is positive |
| PaymentProofs.AwaitApprovalKeeps | apps/api/src/credit/prisma-credit-command.repository.ts:1129-1147 | Putting a request up for approval keeps the request invariant |
| PaymentProofs.LackCreditKeeps | apps/api/src/credit/prisma-credit-command.repository.ts:1831-1864 | So does recording a shortage |
| PaymentProofs.SettledKeeps | apps/api/src/credit/prisma-credit-command.repository.ts:1866-1957 | A settlement of an open manager request always succeeds and keeps it |
| PaymentProofs.ReversedKeeps | apps/api/src/credit/prisma-credit-command.repository.ts:1320-1398 | Its cost check passes if and only if the request is credit-paid; keeps it |
| PaymentProofs.VoidedDirectKeeps | apps/api/src/credit/prisma-credit-command.repository.ts:1400-1418 | A void goes through if and only if the request is a manager's direct payment; keeps it |
| PaymentProofs.CancelledKeeps | apps/api/src/credit/prisma-credit-command.repository.ts:1420-1440 | A cancellation goes through if and only if the request is payable without an open order; keeps it |
| PaymentProofs.AnnouncedOk | apps/api/src/credit/prisma-credit-command.repository.ts:1748-1796 | A status change with its audit row keeps every audit and event row written once |
| PaymentProofs.DirectRequestedKeeps | apps/api/src/roomlog/prisma-vendor-workflow.repository.ts:2423-2547 | The tenant's direct request keeps it |
| PaymentProofs.DirectConfirmedKeeps | apps/api/src/roomlog/prisma-vendor-workflow.repository.ts:2549-2646 | The vendor's confirmation keeps it, without looking at orders; what it does is in PaymentEffects.ConfirmDirectEffect |
| PaymentProofs.OrderPlacedKeeps | apps/api/src/credit/prisma-repair-payment-order.repository.ts:397-480 | Creating an order keeps it |
| PaymentProofs.OrderRetriedKeeps | apps/api/src/credit/prisma-repair-payment-order.repository.ts:858-959 | Retrying keeps it |
| PaymentProofs.ClaimKeeps | apps/api/src/credit/prisma-repair-payment-order.repository.ts:546-636 | Claiming keeps it |
| PaymentProofs.OrderFinalizedKeeps | apps/api/src/credit/prisma-repair-payment-order.repository.ts:638-771 | Finalizing keeps it |
| PaymentProofs.FinalizationSucceeds | apps/api/src/credit/prisma-repair-payment-order.repository.ts:655-690 | For an order in flight and a matching payment no check of finalization fails |
| PaymentProofs.OrderRejectedKeeps | apps/api/src/credit/prisma-repair-payment-order.repository.ts:773-802 | Rejecting keeps it |
| PaymentProofs.OrderUncertainKeeps | apps/api/src/credit/prisma-repair-payment-order.repository.ts:804-833 | Marking uncertain keeps it |
| PaymentProofs.OrderCancelledKeeps | apps/api/src/credit/prisma-repair-payment-order.repository.ts:835-856 | Cancelling keeps it |
| PaymentProofs.OrderRowKeeps | apps/api/src/credit/prisma-repair-payment-order.repository.ts:59-65 | Replacing any order row that is approved neither before nor after keeps it |
| LedgerProofs.PostKeepsBalances | apps/api/src/credit/prisma-credit-command.repository.ts:1816-1880 | A guarded posting keeps every balance equal to its ledger sum, in range, with running balances |
| LedgerProofs.PostEffect | apps/api/src/credit/prisma-credit-command.repository.ts:1816-1880 | What one posting adds to every group sum and entry count |
| LedgerProofs.GroupsAddUp | apps/api/src/credit/vendor-credit-demo-seed.ts:98-111 | The ledger sum is the sum over openings, top-ups, payouts and requests |
| LedgerProofs.TopupTotalReplaced | apps/api/src/credit/prisma-credit-command.repository.ts:845-853 | Replacing one top-up row moves the approved total by that row's part |
| LedgerProofs.PayoutTotalReplaced | apps/api/src/credit/prisma-credit-command.repository.ts:670-678 | Replacing one payout row moves the debited total by that row's part |
| LedgerProofs.CreateTopupKeeps | apps/api/src/credit/prisma-credit-command.repository.ts:228-349 | Creating a top-up keeps the account invariant |
| LedgerProofs.ClaimTopupKeeps | apps/api/src/credit/prisma-credit-command.repository.ts:692-753 | So does claiming it |
| LedgerProofs.FinalizeTopupKeeps | apps/api/src/credit/prisma-credit-command.repository.ts:755-950 | So does booking it, with or without a payout |
| LedgerProofs.FinalizeTopupEffect | apps/api/src/credit/prisma-credit-command.repository.ts:815-931 | An ordinary top-up adds its amount; a Gara top-up leaves every balance as it was with two opposite entries |
| LedgerProofs.GaraTopupCoversItsDebit | apps/api/src/credit/prisma-credit-command.repository.ts:877-893 | A Gara top-up cannot fail its own debit |
| LedgerProofs.RejectTopupKeeps | apps/api/src/credit/prisma-credit-command.repository.ts:965-1001 | Rejecting keeps it |
| LedgerProofs.MarkTopupUncertainKeeps | apps/api/src/credit/prisma-credit-command.repository.ts:1003-1028 | Marking uncertain keeps it |
| LedgerProofs.CancelTopupKeeps | apps/api/src/credit/prisma-credit-command.repository.ts:1030-1047 | Cancelling keeps it |
| LedgerProofs.SavePolicyKeeps | apps/api/src/credit/prisma-credit-command.repository.ts:1049-1077 | Saving the policy keeps it |
| LedgerProofs.PaidOutKeeps | apps/api/src/credit/prisma-credit-command.repository.ts:403-451 | Debiting for a new payout keeps it |
| LedgerProofs.CreatePayoutKeeps | apps/api/src/credit/prisma-credit-command.repository.ts:351-463 | The manager's payout keeps it |
| LedgerProofs.RequestPayoutKeeps | apps/api/src/credit/prisma-credit-command.repository.ts:465-595 | The requested payout keeps it |
| LedgerProofs.SettlePayoutKeeps | apps/api/src/credit/prisma-credit-command.repository.ts:619-690 | Settling a waiting payout keeps it |
| LedgerProofs.SeedDemoKeeps | apps/api/src/credit/vendor-credit-demo-seed.ts:66-111 | Seeding the demo balance keeps it |
| LedgerProofs.SeedDemoSumAgrees | apps/api/src/credit/vendor-credit-demo-seed.ts:98-140 | The seed's ledger-sum check never rejects; only a missing demo opening does |
| OutboxProofs.EnqueuedKeeps | apps/api/src/domain-events/prisma-domain-event.repository.ts:114-163 | A new delivery keeps the lease invariant |
| OutboxProofs.ClaimPendingKeeps | apps/api/src/domain-events/prisma-domain-event.repository.ts:165-221 | A claim keeps it, and never touches a delivered row |
| OutboxProofs.ClaimEffect | apps/api/src/domain-events/prisma-domain-event.repository.ts:195-219 | Each claimed delivery gets its own new token, one more attempt and the lease; others are untouched |
| OutboxProofs.MarkDeliveredKeeps | apps/api/src/domain-events/prisma-domain-event.repository.ts:223-240 | Marking keeps it |
| OutboxProofs.RescheduleKeeps | apps/api/src/domain-events/prisma-domain-event.repository.ts:242-259 | Giving back keeps it |
| OutboxProofs.HolderDecides | apps/api/src/domain-events/prisma-domain-event.repository.ts:223-259 | Exactly the holder of the current token finishes or gives back |
| OutboxProofs.SupersededIsFenced | apps/api/src/domain-events/prisma-domain-event.repository.ts:223-259 | An older token of a reclaimed delivery can do neither |
| OutboxProofs.HolderIsUnique | apps/api/src/domain-events/prisma-domain-event.repository.ts:195-219 | One good token per delivery and one delivery per token |
| OutboxProofs.RetryBounds | apps/api/src/roomlog/completion-credit-delivery.worker.ts:28-31 | The delay grows with the attempts between 1 and 256 seconds |
| RequestSteps.AssignVendorKeeps | apps/api/src/roomlog/prisma-vendor-workflow.repository.ts:550-659 | This command keeps the whole invariant and everything already written |
| RequestSteps.RequestVendorKeeps | apps/api/src/roomlog/prisma-tenant-vendor-connection.repository.ts:145-251 | This command keeps the whole invariant and everything already written |
| RequestSteps.WorkKeeps | apps/api/src/roomlog/prisma-vendor-workflow.repository.ts:1160-1691 | This command keeps the whole invariant and everything already written |
| RequestSteps.ReportCompletionKeeps | apps/api/src/roomlog/prisma-vendor-workflow.repository.ts:1808-2095 | This command keeps the whole invariant and everything already written |
| RequestSteps.DecideReportKeeps | apps/api/src/roomlog/prisma-vendor-workflow.repository.ts:2281-2421 | This command keeps the whole invariant and everything already written |
| RequestSteps.SettleKeeps | apps/api/src/credit/prisma-credit-command.repository.ts:1182-1318 | This command keeps the whole invariant and everything already written |
| RequestSteps.EvaluateKeeps | apps/api/src/credit/prisma-credit-command.repository.ts:1079-1180 | This command keeps the whole invariant and everything already written |
| RequestSteps.CorrectKeeps | apps/api/src/credit/prisma-credit-command.repository.ts:1462-1506 | This command keeps the whole invariant and everything already written |
| RequestSteps.RequestDirectKeeps | apps/api/src/roomlog/prisma-vendor-workflow.repository.ts:2423-2547 | This command keeps the whole invariant and everything already written |
| RequestSteps.ConfirmDirectKeeps | apps/api/src/roomlog/prisma-vendor-workflow.repository.ts:2549-2646 | This command keeps the whole invariant and everything already written |
| OrderSteps.CreateOrderKeeps | apps/api/src/credit/prisma-repair-payment-order.repository.ts:397-480 | This command keeps the whole invariant and everything already written |
| OrderSteps.RetryOrderKeeps | apps/api/src/credit/prisma-repair-payment-order.repository.ts:858-959 | This command keeps the whole invariant and everything already written |
| OrderSteps.CancelOrderKeeps | apps/api/src/credit/prisma-repair-payment-order.repository.ts:835-856 | This command keeps the whole invariant and everything already written |
| OrderSteps.BeginConfirmKeeps | apps/api/src/credit/repair-payment-order.service.ts:203-233 | This command keeps the whole invariant and everything already written |
| OrderSteps.BeginReconcileKeeps | apps/api/src/credit/repair-payment-order.service.ts:274-290 | This command keeps the whole invariant and everything already written |
| OrderSteps.PersistKeeps | apps/api/src/credit/repair-payment-order.service.ts:234-336 | This command keeps the whole invariant and everything already written |
| OrderSteps.AccountKeeps | apps/api/src/credit/prisma-credit-command.repository.ts:228-1077 | This command keeps the whole invariant and everything already written |
| OrderSteps.ClaimDeliveriesKeeps | apps/api/src/roomlog/completion-credit-delivery.worker.ts:106-113 | This command keeps the whole invariant and everything already written |
| OrderSteps.RunEvaluationKeeps | apps/api/src/roomlog/completion-credit-delivery.worker.ts:115-122 | This command keeps the whole invariant and everything already written |
| OrderSteps.FinishDeliveryKeeps | apps/api/src/roomlog/completion-credit-delivery.worker.ts:122-126 | This command keeps the whole invariant and everything already written |
| OrderSteps.GiveBackDeliveryKeeps | apps/api/src/roomlog/completion-credit-delivery.worker.ts:127-138 | This command keeps the whole invariant and everything already written |
| OrderSteps.VerdictIsJustified | apps/api/src/credit/repair-payment-order.service.ts:234-336 | With an honest provider an order is rejected only if it will never be charged and finalized only if it was; when each happens is in OrderEffects.AnswerEffect |
| OrderSteps.RejectedKeeps | apps/api/src/credit/prisma-repair-payment-order.repository.ts:773-802 | Rejecting is sound only for a payment that is dead |
| OrderSteps.FinalizedKeeps | apps/api/src/credit/prisma-repair-payment-order.repository.ts:638-771 | Finalizing a charged order keeps the invariant |
| RequestSteps.SettleLockedSucceeds | apps/api/src/credit/prisma-credit-command.repository.ts:1798-1957 | A valid settlement of an open request is refused exactly when its key was used |
| Database.Store.DebitBalance | apps/api/src/credit/prisma-credit-command.repository.ts:1816-1833 | The guarded balance update: what it returns and changes |
| Database.Store.CreditBalance | apps/api/src/credit/prisma-credit-command.repository.ts:1347-1360 | The guarded credit |
| Database.Store.EnsureAccountRows | apps/api/src/credit/prisma-credit-command.repository.ts:194-219 | Account and policy exist afterwards, otherwise unchanged |
| Database.Store.AppendPaymentState | apps/api/src/credit/prisma-credit-command.repository.ts:1748-1796 | A new audit row writes the event once; a duplicate writes nothing |
| CreditRepository.Repository.SettlePaymentRequest | apps/api/src/credit/prisma-credit-command.repository.ts:1182-1318 | In place, equal to the settlement command; a throw leaves the tables as they were |
| CreditRepository.Repository.SettleLocked | apps/api/src/credit/prisma-credit-command.repository.ts:1798-1957 | The row updates of a settlement, equal to its specification |
| CreditRepository.Repository.EvaluateAfterCompletion | apps/api/src/credit/prisma-credit-command.repository.ts:1079-1180 | In place, equal to the evaluation command |
| CreditRepository.Repository.RunCorrection | apps/api/src/credit/prisma-credit-command.repository.ts:1462-1506 | In place, equal to the correction command |
| CreditRepository.Repository.ReverseCreditPayment | apps/api/src/credit/prisma-credit-command.repository.ts:1320-1398 | The row updates of a reversal |
| CreditRepository.Repository.VoidAuthoritativeCost | apps/api/src/credit/prisma-credit-command.repository.ts:1528-1554 | Voids exactly the cost that this request paid |
| CreditRepository.Repository.FinishCorrection | apps/api/src/credit/prisma-credit-command.repository.ts:1556-1626 | The closing rows of a correction |
| CreditRepository.Repository.FinalizeTopup | apps/api/src/credit/prisma-credit-command.repository.ts:755-950 | In place, equal to booking a top-up, with rollback |
| CreditRepository.Repository.CreateGaraVendorPayout | apps/api/src/credit/prisma-credit-command.repository.ts:351-463 | In place, equal to the manager's payout |
| CreditRepository.Repository.RequestGaraVendorPayout | apps/api/src/credit/prisma-credit-command.repository.ts:465-595 | In place, equal to a vendor's own payout request: debited at once exactly where policy and balance allow, otherwise left waiting |
| CreditRepository.Repository.CreateTopupOrder | apps/api/src/credit/prisma-credit-command.repository.ts:228-349 | In place: a key used again returns its order or is refused, and a refusal leaves no account behind |
| CreditRepository.Repository.SavePolicy | apps/api/src/credit/prisma-credit-command.repository.ts:1049-1077 | In place; a limit outside the safe range is refused |
| CreditRepository.Repository.SettleGaraVendorPayout | apps/api/src/credit/prisma-credit-command.repository.ts:619-690 | In place, equal to settling a waiting payout |
| OrderRepository.Repository.CreateOrder | apps/api/src/credit/prisma-repair-payment-order.repository.ts:397-480 | In place, equal to the creation command |
| OrderRepository.Repository.RetryOrder | apps/api/src/credit/prisma-repair-payment-order.repository.ts:858-959 | In place, equal to the retry command |
| OrderRepository.Repository.CancelOrder | apps/api/src/credit/prisma-repair-payment-order.repository.ts:835-856 | In place, equal to the cancel command |
| OrderRepository.Repository.Claim | apps/api/src/credit/prisma-repair-payment-order.repository.ts:546-636 | In place, equal to the claim |
| OrderRepository.Repository.FinalizeOrder | apps/api/src/credit/prisma-repair-payment-order.repository.ts:638-771 | In place, equal to finalization |
| OrderRepository.Repository.MarkRejected | apps/api/src/credit/prisma-repair-payment-order.repository.ts:773-802 | In place, equal to rejection |
| OrderRepository.Repository.MarkUncertain | apps/api/src/credit/prisma-repair-payment-order.repository.ts:804-833 | In place, equal to marking uncertain |
| OrderRepository.Service.AskToConfirm | apps/api/src/credit/repair-payment-order.service.ts:203-239 | Claims, and asks the provider only if this caller claimed |
| OrderRepository.Service.AskToReconcile | apps/api/src/credit/repair-payment-order.service.ts:274-290 | Looks up exactly orders in flight |
| OrderRepository.Service.Conclude | apps/api/src/credit/repair-payment-order.service.ts:234-336 | The transactions that follow an answer, including the one after a failed finalization |
| CreditWorker.Deliveries.ClaimPending | apps/api/src/domain-events/prisma-domain-event.repository.ts:165-221 | The claim loop, equal to claiming all candidates |
| CreditWorker.Deliveries.MarkDelivered | apps/api/src/domain-events/prisma-domain-event.repository.ts:223-240 | Equal to the fenced mark |
| CreditWorker.Deliveries.Reschedule | apps/api/src/domain-events/prisma-domain-event.repository.ts:242-259 | Equal to the fenced give-back |
| CreditWorker.Worker.Drain | apps/api/src/roomlog/completion-credit-delivery.worker.ts:106-142 | A whole drain equals claiming and then handling every claimed delivery in turn, and is a run of commands of the machine |
| CreditWorker.DrainEffect | apps/api/src/roomlog/completion-credit-delivery.worker.ts:106-142 | After a drain every delivery it took is done or waits for its retry with one more attempt, and no other has changed |
| CreditWorker.ProcessedEffect | apps/api/src/roomlog/completion-credit-delivery.worker.ts:115-138 | Handling a held delivery marks it if its evaluation went through and gives it back until the retry time if it threw |
| CreditWorker.ProcessedIsRun | apps/api/src/roomlog/completion-credit-delivery.worker.ts:115-138 | Handling one delivery is a run of one or two commands |
| WorkflowRepository.Repository.AssignVendor | apps/api/src/roomlog/prisma-vendor-workflow.repository.ts:550-659 | Row by row in place, equal to the transaction of the machine, the tables untouched on a throw. An open repair of another vendor is cancelled if still unanswered and refuses otherwise; the same vendor again changes nothing |
| WorkflowRepository.Repository.SaveEstimateDraft | apps/api/src/roomlog/prisma-vendor-workflow.repository.ts:1160-1236 | Row by row in place, equal to the transaction of the machine, the tables untouched on a throw. Refused for a closed repair, a foreign vendor or an existing payment request |
| WorkflowRepository.Repository.SubmitEstimate | apps/api/src/roomlog/prisma-vendor-workflow.repository.ts:1238-1353 | Row by row in place, equal to the transaction of the machine, the tables untouched on a throw. A resubmission replays, a decline cancels the repair unless work is scheduled |
| WorkflowRepository.Repository.WithdrawEstimate | apps/api/src/roomlog/prisma-vendor-workflow.repository.ts:1355-1385 | Row by row in place, equal to the transaction of the machine, the tables untouched on a throw. Only an unreviewed draft or submission leaves, and the repair falls back |
| WorkflowRepository.Repository.ReviewEstimate | apps/api/src/roomlog/prisma-vendor-workflow.repository.ts:1387-1530 | Row by row in place, equal to the transaction of the machine, the tables untouched on a throw. The same review again changes nothing, a different one is refused |
| WorkflowRepository.Repository.ReviewTenantEstimate | apps/api/src/roomlog/prisma-vendor-workflow.repository.ts:933-1078 | Row by row in place, equal to the transaction of the machine, the tables untouched on a throw. Only the tenant who bears the repair; the same review again changes nothing, a different one is refused |
| WorkflowRepository.Repository.ConfirmEstimateVisit | apps/api/src/roomlog/prisma-vendor-workflow.repository.ts:1532-1593 | Row by row in place, equal to the transaction of the machine, the tables untouched on a throw. Without a check for a closed repair, as in the source |
| WorkflowRepository.Repository.ScheduleApprovedJob | apps/api/src/roomlog/prisma-vendor-workflow.repository.ts:1595-1636 | Row by row in place, equal to the transaction of the machine, the tables untouched on a throw. Refused while a submission or revision is open; the same date again changes nothing |
| WorkflowRepository.Repository.StartJob | apps/api/src/roomlog/prisma-vendor-workflow.repository.ts:1638-1691 | Row by row in place, equal to the transaction of the machine, the tables untouched on a throw. Refused without an approved fixed estimate or with one pending; a started job keeps its time |
| WorkflowRepository.Repository.SubmitCompletion | apps/api/src/roomlog/prisma-vendor-workflow.repository.ts:1808-2095 | Row by row in place, equal to the transaction of the machine, the tables untouched on a throw. Replays by submission key, and opens or relinks the manager's payment request |
| WorkflowRepository.Repository.DecideTenantCompletion | apps/api/src/roomlog/prisma-vendor-workflow.repository.ts:2097-2279 | Row by row in place, equal to the transaction of the machine, the tables untouched on a throw. An approval opens the tenant's payment request of the amount the tenant approved; a rejection resumes work |
| WorkflowRepository.Repository.DecideCompletion | apps/api/src/roomlog/prisma-vendor-workflow.repository.ts:2281-2421 | Row by row in place, equal to the transaction of the machine, the tables untouched on a throw. An approval with a request enqueues exactly one credit evaluation; a rejection resumes work |
| WorkflowRepository.Repository.RequestTenantDirectPayment | apps/api/src/roomlog/prisma-vendor-workflow.repository.ts:2423-2547 | Row by row in place, equal to the transaction of the machine, the tables untouched on a throw. Refused while a Toss order is open or the key is taken; the same request again changes nothing |
| WorkflowRepository.Repository.ConfirmVendorDirectPayment | apps/api/src/roomlog/prisma-vendor-workflow.repository.ts:2549-2646 | Row by row in place, equal to the transaction of the machine, the tables untouched on a throw. Confirms the last started attempt of the repair's tenant, once |
| WorkflowRepository.Repository.RequestVendor | apps/api/src/roomlog/prisma-tenant-vendor-connection.repository.ts:145-251 | Row by row in place, equal to the transaction of the machine, the tables untouched on a throw. The key replays its own repair; any other open repair of the ticket refuses |
| WorkflowRepository.Repository.DraftRows | apps/api/src/roomlog/prisma-vendor-workflow.repository.ts:1177-1236 | Rewrites the open draft or adds the next version, equal to its specification |
| TopupService.RejectionIsSafe | apps/api/src/credit/credit.service.ts:278-317 | Exactly when giving a top-up up is safe with an honest provider: not on a refused lookup nor on a report about another payment |
| TopupService.BookingIsJustified | apps/api/src/credit/credit.service.ts:225-276 | A top-up is booked only if this very payment was charged |
| TopupService.Service.ClaimConfirmation | apps/api/src/credit/prisma-credit-command.repository.ts:692-753 | In place, equal to claiming a top-up |
| TopupService.Service.Conclude | apps/api/src/credit/credit.service.ts:225-343 | In place, the transactions that follow an answer |
| AgentGate.ExecutedAtMostOnce | apps/api/src/agent-tools/agent-tool-gate.service.ts:117-151 | Over any interleaving the executor runs at most once per action |
| AgentGate.NeverAfterCancellation | apps/api/src/agent-tools/prisma-agent-tool-action.repository.ts:245-261 | A cancelled or expired action was never run and never will be |
| AgentGate.RunsAreConfirmed | apps/api/src/agent-tools/prisma-agent-tool-action.repository.ts:169-201 | A run starts only from a pending, unexpired action at its owner's request, or for a new immediate action |
| AgentGate.OnePreparedAction | apps/api/src/agent-tools/prisma-agent-tool-action.repository.ts:97-154 | A principal has at most one pending or executing prepared action, the one holding the active key |
| AgentGate.RunKeeps | apps/api/src/agent-tools/prisma-agent-tool-action.repository.ts:97-261 | Every run keeps the action invariant; finished actions stay finished |
| AgentGate.ConfirmEffect | apps/api/src/agent-tools/agent-tool-gate.service.ts:117-218 | What a confirmation does to an open, a lapsed and any other action; only its owner's counts |
| AgentGate.PrepareEffect | apps/api/src/agent-tools/prisma-agent-tool-action.repository.ts:97-154 | Which lapsed actions preparing expires, and exactly when it adds a pending action |
| AgentGate.LookEffect | apps/api/src/agent-tools/prisma-agent-tool-action.repository.ts:156-168 | Looking expires the active action if its time is over and reports it otherwise |
| AgentGate.WithdrawEffect | apps/api/src/agent-tools/prisma-agent-tool-action.repository.ts:245-261 | Exactly a pending action of one's own is cancelled |
| AgentGate.ReturnEffect | apps/api/src/agent-tools/prisma-agent-tool-action.repository.ts:203-243 | What an executor returns is recorded once, on the action it ran for |
| AgentGate.ImmediateEffect | apps/api/src/agent-tools/prisma-agent-tool-action.repository.ts:72-96 | An immediate call starts once |
| AgentRepository.Repository.CreatePending | apps/api/src/agent-tools/prisma-agent-tool-action.repository.ts:97-154 | In place, equal to its specification |
| AgentRepository.Repository.BeginImmediate | apps/api/src/agent-tools/prisma-agent-tool-action.repository.ts:72-95 | In place, equal to its specification |
| AgentRepository.Repository.Claim | apps/api/src/agent-tools/prisma-agent-tool-action.repository.ts:169-201 | In place, equal to its specification |
| AgentRepository.Repository.Finish | apps/api/src/agent-tools/prisma-agent-tool-action.repository.ts:203-243 | In place, equal to its specification |
| AgentRepository.Repository.Cancel | apps/api/src/agent-tools/prisma-agent-tool-action.repository.ts:245-261 | In place, equal to its specification |
| SchedulerProofs.SerialUse | apps/api/src/reconstruction/reconstruction-orchestrator.service.ts:194-250 | At most one asset is GPU_STARTING or RUNNING at any time |
| SchedulerProofs.AttemptsAreExact | apps/api/src/reconstruction/reconstruction-orchestrator.service.ts:263-333 | Whatever the clock does, an asset is dispatched more often than its attempts allow if and only if a lookup was lost after they were used up and it was dispatched again, and by exactly the number of such losses |
| SchedulerProofs.ActiveTimeIsBounded | apps/api/src/reconstruction/reconstruction-orchestrator.service.ts:252-333 | While polls keep their interval an asset is active for at most as many cycles of both timeouts as it may be dispatched |
| SchedulerProofs.AttemptsCountDispatches | apps/api/src/reconstruction/reconstruction-orchestrator.service.ts:263-281 | Over any run the attempts of an asset are the number of its dispatches |
| SchedulerProofs.LostLookupOverspends | apps/api/src/reconstruction/reconstruction-orchestrator.service.ts:301-309 | For any settings and any n some run dispatches one asset n times by losing its lookups |
| SchedulerProofs.StopNeedsTwoIdlePolls | apps/api/src/reconstruction/reconstruction-orchestrator.service.ts:335-355 | In every run, however its polls are spaced, a stop is requested only after two idle polls with no work seen between |
| SchedulerProofs.IdlePollsMean | apps/api/src/reconstruction/reconstruction-orchestrator.service.ts:335-355 | What the idle count means in terms of what earlier polls saw |
| SchedulerEffects.StartingEffect | apps/api/src/reconstruction/reconstruction-orchestrator.service.ts:252-281 | One poll of a starting asset: given up, dispatched or left waiting |
| SchedulerEffects.RunningEffect | apps/api/src/reconstruction/reconstruction-orchestrator.service.ts:283-376 | One poll of a running asset, for every answer about its command |
| SchedulerEffects.WaitingEffect | apps/api/src/reconstruction/reconstruction-orchestrator.service.ts:205-249 | One poll with a waiting asset and nothing active: who starts, and when the instance is asked again |
| SchedulerEffects.IdleEffect | apps/api/src/reconstruction/reconstruction-orchestrator.service.ts:335-355 | One poll with nothing to do: the second in a row stops the instance |
| Orchestrator.Service.Tick | apps/api/src/reconstruction/reconstruction-orchestrator.service.ts:194-250 | In place, equal to its specification |
| Orchestrator.Service.Promote | apps/api/src/reconstruction/reconstruction-orchestrator.service.ts:222-249 | In place, equal to its specification |
| Orchestrator.Service.HandleStarting | apps/api/src/reconstruction/reconstruction-orchestrator.service.ts:252-281 | In place, equal to its specification |
| Orchestrator.Service.HandleRunning | apps/api/src/reconstruction/reconstruction-orchestrator.service.ts:283-333 | In place, equal to its specification |
| Orchestrator.Service.MaybeIdleStop | apps/api/src/reconstruction/reconstruction-orchestrator.service.ts:335-355 | In place, equal to its specification |
| Orchestrator.Service.FailJob | apps/api/src/reconstruction/reconstruction-orchestrator.service.ts:371-376 | In place, equal to its specification |
| Orchestrator.Service.Requeue | apps/api/src/reconstruction/reconstruction-orchestrator.service.ts:366-369 | In place, equal to its specification |
| Calendar.PayableIsClampedMonthEarlier | packages/types/src/payment.ts:530-540 | The payable date is the due day in the preceding month, cut to that month's length |
| Calendar.PayableIsAMonthBefore | packages/types/src/payment.ts:530-540 | It is a valid date 28 to 31 days before the due date |
| Calendar.PayableIsMonotone | packages/types/src/payment.ts:530-540 | A later due date never opens earlier |
| Calendar.PayableYearHasFourDigits | packages/types/src/payment.ts:530-540 | Exactly when its year still has four digits |
| Calendar.InclusiveDaysAdd | packages/types/src/payment.ts:557-569 | Day counts of adjacent ranges add up; a range is non-empty exactly when in order; one day counts as one |
| Calendar.PresetIsShort | packages/types/src/payment.ts:546-555 | Every preset range starts on the first of the month that lies preset - 1 months back, ends today and has at most 184 days |
| Calendar.YearsInDays | packages/types/src/payment.ts:557-569 | Day numbers count the Gregorian leap years, in the closed form of ECMA-262 |
| Calendar.MonthsInDays | packages/types/src/payment.ts:557-569 | The days before each month, as ECMA-262 tabulates them |
| Calendar.DateOfIsInverse | packages/types/src/payment.ts:533-536 | Reading a day number back as a date is the inverse of numbering dates |
| Calendar.DayNumberIsMonotone | packages/types/src/payment.ts:557-569 | Day numbers are ordered as dates are |
| Csv.SplitCsvLine | apps/api/src/furniture-catalog/furniture-catalog.service.ts:171-203 | The loop computes the cells of its specification |
| Csv.RoundTrip | apps/api/src/furniture-catalog/furniture-catalog.service.ts:171-203 | Any fields without outer white space, written by section 2, rules 5 to 7 of RFC 4180, are split back into exactly those fields |
| Csv.WrittenIsTrimmed | apps/api/src/furniture-catalog/furniture-catalog.service.ts:171-203 | Any fields at all, so written, come back without their outer white space, quoted or not |
| Csv.TrimMeans | apps/api/src/furniture-catalog/furniture-catalog.service.ts:171-203 | Trimming removes exactly the outer white space |
| Csv.CellsBetweenSeparators | apps/api/src/furniture-catalog/furniture-catalog.service.ts:171-203 | Any line, well-formed or not, has one cell more than commas outside quotes |
| Csv.ScanQuoted | apps/api/src/furniture-catalog/furniture-catalog.service.ts:180-184 | A quoted field with doubled quotes is read back as its value |

## Left out

- Attachments, messages, notification texts, addresses, categories and other copied text: they decide nothing here.
- Ticket and complaint status synchronisation, and which ticket statuses accept a vendor: a command says whether the ticket is assignable.
- Accounts, roles, rooms, vendor links and registrations: fixed, or a command says whether an actor or vendor is eligible or active.
- The contents of domain events and the notification dispatcher, the second consumer of the same lease protocol: an event is its key, and only credit evaluations have deliveries.
- Checks of the identifiers inside a delivered event, which the enqueuing transaction has just written.
- Serialization retries and unique-race recovery around transactions: each transaction is one atomic step.
- Return-path checks, checkout signatures, token and role checks of the services, public views and listings.
- Legacy vendor jobs and migrated estimates: every estimate starts as a draft here.
- The optional filter of top-up calls by Gara vendor registration, archiving a registration, and the account number snapshot of a payout.
- Times of creation and update, account versions and failure reasons stored on rows.
- Time zones and time-of-day in the billing calendar; dates before the year 101, where Date.UTC reads two-digit years differently.
- The line splitting and header mapping of the CSV import around the line splitter.
- Agent tool policies, argument checks and adapters: the gate runs an abstract executor; an action left EXECUTING after a crash stays so.
- GPU calls, callbacks' authorization and owner notifications of the scheduler: their outcomes are part of a poll.
- Progress of a tenant-borne repair whose vendor submits a new estimate while a report is undecided: the code makes no promise there.
- TopupService.Service: finding the stored order before a lookup is left to the caller.
