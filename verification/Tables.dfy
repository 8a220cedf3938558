/** Rows and tables of the settlement store.  Amounts are integer cents; an id stands for
    a random primary key, so an insert whose id is already present is a duplicate key. */
module Tables {

  datatype Id = Id(n: int)

  /** The empty user column. */
  const NOBODY := Id(0)

  datatype Error = Invalid | Conflict | NotFound | Forbidden | Blocked

  /** The result of one transaction: the committed state, or an error and a rollback. */
  datatype Outcome<+T> = Done(value: T) | Refused(error: Error)

  datatype Option<+T> = None | Some(value: T)

  // ---------- receivables

  datatype Collection = Unpaid | PartiallySettled | Settled

  datatype InvoiceMark = NotInvoiced | PartiallyInvoiced | FullyInvoiced

  datatype Receivable = Receivable(
    plan: Id, snapshot: Id, customer: Id, currency: Id, due: int,
    original: int, open: int, received: int, writeOff: int, invoiced: int,
    collection: Collection, mark: InvoiceMark)

  type Ledger = map<Id, Receivable>

  // ---------- receipts, allocations, differences, credit facts

  datatype ReceiptStatus = Available | PartiallyAllocated | FullyAllocated

  datatype Receipt = Receipt(customer: Id, currency: Id, amount: int, unallocated: int, status: ReceiptStatus)

  datatype AllocationStatus = Confirmed | PartiallyReversed | Reversed

  /** The reversal rows of an allocation are kept with it: reversal id to reversed amount. */
  datatype Allocation = Allocation(
    receipt: Id, receivable: Id, amount: int, confirmedBy: Id, status: AllocationStatus, reversals: map<Id, int>)

  datatype DifferenceKind = Overpayment | Shortpayment | UnknownDifference

  datatype DifferenceStatus = Held | ReviewPending | Approved | RefundPending | RefundConfirmed

  datatype Resolution = Undecided | ToRefund | CarryForward | Matched

  datatype Difference = Difference(
    receipt: Id, kind: DifferenceKind, amount: int, status: DifferenceStatus, resolution: Resolution,
    requestedBy: Id, resolvedBy: Id, approvedBy: Id, version: int)

  datatype CreditStatus = CreditPending | CreditRetryWait | CreditProcessing | CreditDelivered | CreditCancelled

  /** A row of the credit feed: a period was settled, or an earlier settled fact is undone. */
  datatype Credit =
    | Completed(receivable: Id, allocation: Id, created: nat, status: CreditStatus)
    | Compensation(receivable: Id, allocation: Id, created: nat, status: CreditStatus, original: Id)

  datatype CashTables = CashTables(
    receipts: map<Id, Receipt>,
    allocations: map<Id, Allocation>,
    differences: map<Id, Difference>,
    credits: map<Id, Credit>)

  // ---------- invoice requests, issue attempts, invoices, red flushes

  /** The face of an invoice: header totals and one (net, tax, gross) triple per line. */
  datatype Line = Line(net: int, tax: int, gross: int)

  datatype Bill = Bill(net: int, tax: int, gross: int, lines: seq<Line>)

  datatype RequestStatus =
    | Submitted | SpecialReview | IssuePending | IssueUnknown | IssueFailed | Issued | Rejected | Cancelled

  datatype ReservationStatus = Reserved | Invoiced | Released

  /** One line of `invoice_request_allocation`; its red-flush reversal rows are kept with it,
      keyed by red-flush request as their unique key demands. */
  datatype Reservation = Reservation(
    reserved: int, invoiced: int, released: int, status: ReservationStatus, reversals: map<Id, int>)

  /** Reservations are unique per (request, receivable), so a request maps each receivable
      it draws on to its one reservation. */
  datatype Request = Request(
    snapshot: Id, status: RequestStatus, version: int, applicant: Id, special: bool, bill: Bill,
    lines: map<Id, Reservation>)

  datatype Channel = Manual | TaxAdapter

  datatype AttemptStatus = AttemptPending | AttemptAccepted | AttemptUnknown | AttemptIssued | AttemptFailed | AttemptAbandoned

  datatype Attempt = Attempt(
    request: Id, number: int, channel: Channel, provider: Id, status: AttemptStatus,
    accepted: bool, sequence: nat, reported: bool, command: Option<Id>)

  datatype InvoiceStatus = InvoiceIssued | InvoiceRedFlushed

  datatype Invoice = Invoice(request: Id, status: InvoiceStatus, bill: Bill, redOf: Option<Id>)

  datatype RedStatus = RedSubmitted | RedRejected | RedPending | RedUnknown | RedFailed | RedFlushed

  /** The relation row of a red flush is unique per red-flush request, so it is kept with it:
      `relation` is the red invoice it links to. */
  datatype RedRequest = RedRequest(
    invoice: Id, status: RedStatus, version: int, requestedBy: Id, reviewedBy: Id, relation: Option<Id>)

  datatype RedAttempt = RedAttempt(
    red: Id, invoice: Id, provider: Id, status: AttemptStatus, accepted: bool, sequence: nat, command: Option<Id>)

  datatype CallbackKind = ReportIssued | ReportFailed | ReportUnknown

  /** `red` is the red-flush request a red-flush report names, if it names one. */
  datatype Callback = Callback(
    event: Id, redFlush: bool, kind: CallbackKind, attempt: Id, red: Option<Id>, provider: Id, externalRequest: Id,
    sequence: nat, failureCode: bool, bill: Bill)

  datatype Verdict = Applied | IgnoredStale | IgnoredTerminal | ProviderConflict

  datatype InboxRow = InboxRow(callback: Callback, verdict: Verdict)

  datatype CommandStatus = CommandPending | CommandProcessing | CommandRetryWait | CommandDeadLetter | CommandDelivered

  datatype Command = Command(redFlush: bool, attempt: Id, status: CommandStatus)

  datatype InvoiceTables = InvoiceTables(
    requests: map<Id, Request>,
    attempts: map<Id, Attempt>,
    invoices: map<Id, Invoice>,
    redRequests: map<Id, RedRequest>,
    redAttempts: map<Id, RedAttempt>,
    inbox: map<Id, InboxRow>,
    commands: map<Id, Command>)

  // ---------- contract stream, snapshots, plans, revision holds

  datatype SnapshotStatus = Effective | Superseded | Voided

  /** A snapshot of a contract version, or a baseline registered locally, which names no contract and
      whose version is that of its document. */
  datatype Snapshot = Snapshot(contract: Option<Id>, version: int, amount: int, customer: Id, currency: Id, status: SnapshotStatus)

  datatype PlanStatus = PendingConfirmation | PlanConfirmed | PlanCancelled

  datatype Plan = Plan(
    snapshot: Id, installment: int, due: int, amount: int, manual: bool, status: PlanStatus, version: int)

  datatype Term = Term(installment: int, due: int, amount: int)

  datatype HoldReason = PlanDifference | TermTotalMismatch

  datatype Hold = Hold(contract: Id, event: Id, snapshot: Option<Id>, reason: HoldReason, installments: set<int>)

  datatype ContractTables = ContractTables(
    streams: map<Id, int>,
    snapshots: map<Id, Snapshot>,
    plans: map<Id, Plan>,
    holds: map<Id, Hold>,
    events: set<Id>,
    dunned: set<Id>)

  /** The whole store.  Every transaction maps one value of this type to the next. */
  datatype Books = Books(ar: Ledger, cash: CashTables, inv: InvoiceTables, con: ContractTables)

  /** The transaction committed what its specification says, or failed and rolled back. */
  predicate Commits(before: Books, after: Books, spec: Outcome<Books>, err: Option<Error>) {
    match spec
    case Done(n) => after == n && err == None
    case Refused(x) => after == before && err == Some(x)
  }

  /** The tables as the transactions update them in place. */
  class Database {
    var ar: Ledger
    var cash: CashTables
    var inv: InvoiceTables
    var con: ContractTables

    function State(): Books
      reads this
    {
      Books(ar, cash, inv, con)
    }
  }
}
