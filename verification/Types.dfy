/** A value that may be absent: a nullable column, or a transaction that may throw. */
module Options {
  datatype Option<+T> = None | Some(value: T)
}

/** The rows of the repair money path, shared by every component.

    A row that belongs to exactly one repair through an immutable foreign key (estimates,
    completion reports, the payment request and, below it, its attempts and Toss orders) is
    kept inside that repair. A row's id is its position in its table, so a new row always
    gets a fresh id. Unique columns that span repairs are kept as indexes in module World.
 */
module Types {
  import opened Options

  const MAX_DATABASE_INT: int := 2_147_483_647
  const MAX_SAFE_CREDIT_BALANCE: int := 9_007_199_254_740_991

  /** Idempotency keys are strings. The two shapes the server itself derives are named, and a
      client may send any key, including one of those shapes. */
  datatype Key = Client(text: string) | AutoSettlement(request: nat, decision: nat) | TopupPayout(order: nat)

  datatype Party = Manager | Tenant

  // ---- estimates

  datatype CostBearer = LandlordPays | TenantPays | Undecided

  datatype RepairStatus =
    | Requested
    | EstimateSubmitted
    | EstimateApproved
    | Scheduled
    | InProgress
    | CompletionReported
    | Completed
    | Cancelled

  datatype EstimateStatus =
    | Draft
    | Submitted
    | VisitScheduled
    | VendorDeclined
    | RevisionRequested
    | Approved
    | Rejected
    | Withdrawn
    | Superseded

  datatype Line = Line(quantity: int, unitAmount: int)

  datatype Content = Fixed(lines: seq<Line>, total: int) | Visit(at: int) | Decline

  datatype Estimate = Estimate(
    version: nat,
    status: EstimateStatus,
    content: Content,
    reviewedBy: Option<Party>,
    note: Option<string>)

  // ---- completion

  datatype Decision = Decision(source: Party, approved: bool, note: Option<string>, at: int)

  datatype Report = Report(completedAt: int, decision: Option<Decision>)

  // ---- payment

  datatype PayStatus =
    | WaitingCompletion
    | PendingApproval
    | InsufficientCredit
    | AutoPaid
    | ManualCreditPaid
    | DirectPaid
    | TossPaid
    | PaymentCancelled
    | Reversed
    | DirectPaymentVoided

  datatype Mode = AutoCredit | ManualCredit | Direct | Toss

  datatype AttemptStatus = Started | Succeeded | NoCredit

  datatype Attempt = Attempt(key: Key, mode: Mode, status: AttemptStatus, payload: AttemptPayload)

  /** What the payload hash of an attempt covers. */
  datatype AttemptPayload =
    | SettlePayload(request: nat, mode: Mode, actor: nat, decision: nat, evidence: Option<Evidence>)
    | TenantDirectPayload(request: nat, tenant: nat, amount: int)

  datatype Evidence = Evidence(paidAt: int, reference: string)

  datatype PaymentReference =
    | ByRepair(repair: nat)
    | ByReference(text: string)
    | ByAttempt(attempt: nat)
    | ByOrder(repair: nat, order: nat)

  datatype CostStatus = Confirmed | Void

  datatype Cost = Cost(status: CostStatus, amount: int, reference: PaymentReference)

  /** Dedupe keys of the payment audit trail; a status entry also writes one domain event. */
  datatype AuditKey = OfStatus(status: PayStatus) | TenantDirectPending | TenantDirectPaid

  datatype OrderStatus = Ready | Confirming | ReconciliationRequired | OrderApproved | Failed | OrderCancelled

  datatype Approval = Approval(means: string, at: int)

  datatype Order = Order(
    status: OrderStatus,
    amount: int,
    creation: CreationPayload,
    retryOf: Option<nat>,
    openOrderKey: Option<nat>,
    paymentKey: Option<string>,
    approval: Option<Approval>)

  /** What the creation payload of an order covers besides the request, payer and amount. */
  datatype CreationPayload = CreationPayload(key: Key, returnPath: string, initiator: string)

  datatype Request = Request(
    payer: Party,
    amount: int,
    estimate: nat,
    report: nat,
    decision: Option<nat>,
    status: PayStatus,
    lastMode: Option<Mode>,
    cost: Option<Cost>,
    debit: Option<nat>,
    directReference: Option<PaymentReference>,
    attempts: seq<Attempt>,
    orders: seq<Order>,
    audits: set<AuditKey>,
    events: seq<AuditKey>)

  // ---- the repair

  datatype Repair = Repair(
    ticket: nat,
    vendor: nat,
    manager: nat,
    tenant: nat,
    tenantInitiated: bool,
    status: RepairStatus,
    costBearer: Option<CostBearer>,
    scheduledAt: Option<int>,
    startedAt: Option<int>,
    estimates: seq<Estimate>,
    reports: seq<Report>,
    request: Option<Request>)
}
