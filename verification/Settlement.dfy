/** The whole store under every transaction: commands, runs and the invariant of all runs. */
module Settlement {
  import opened Tables
  import opened Totals
  import opened Cash
  import opened Invoicing
  import opened InvoicingProofs
  import opened Contracts
  import opened ContractProofs

  datatype CashCmd =
    | CreateReceiptCmd(receipt: Id, customer: Id, currency: Id, amount: int)
    | ConfirmAllocationCmd(allocation: AllocationInput)
    | ReverseAllocationCmd(reversal: ReversalInput)
    | CreateDifferenceCmd(difference: DifferenceInput)
    | ResolveDifferenceCmd(id: Id, version: int, resolution: Resolution, user: Id)
    | ApproveDifferenceCmd(id: Id, version: int, user: Id)
    | ConfirmRefundCmd(id: Id, version: int)
    | DeliverCreditCmd(event: Id, status: CreditStatus)

  datatype InvoiceCmd =
    | CreateRequestCmd(input: RequestInput)
    | ApproveCmd(request: Id, version: int, user: Id, attempt: AttemptInput)
    | RejectCmd(request: Id, version: int, user: Id)
    | ReviewSpecialCmd(request: Id, version: int, user: Id, approve: bool, attempt: AttemptInput)
    | CancelCmd(request: Id, version: int, user: Id)
    | RecoverCmd(request: Id, version: int, user: Id, provider: Id)
    | RegisterManualCmd(request: Id, invoice: Id)
    | CallbackCmd(callback: Callback, invoice: Id)
    | MoveCommandCmd(command: Id, to: CommandStatus)
    | RetryOutboxCmd(command: Id)
    | RetryDeadLetterCmd(command: Id)
    | RequestRedFlushCmd(red: Id, invoice: Id, user: Id)
    | ReviewRedFlushCmd(red: Id, version: int, user: Id, approve: bool, attempt: AttemptInput)

  datatype ContractCmd =
    | IngestCmd(event: ContractEvent)
    | CreatePlanCmd(manual: ManualInput)
    | ConfirmPlanCmd(plan: PlanInput, receivable: Id)
    | AdjustPlanCmd(plan: PlanInput)
    | DunCmd(id: Id)
    | CreateNativeCmd(native: NativeInput)
    | VoidNativeCmd(baseline: Id, version: int)

  datatype Cmd = OfCash(cash: CashCmd) | OfInvoices(inv: InvoiceCmd) | OfContracts(con: ContractCmd)

  ghost function CashTransaction(b: Books, c: CashCmd): Outcome<Books> {
    match c
    case CreateReceiptCmd(p, customer, currency, amount) => CreateReceipt(b, p, customer, currency, amount)
    case ConfirmAllocationCmd(i) => ConfirmAllocation(b, i)
    case ReverseAllocationCmd(i) => ReverseAllocation(b, i)
    case CreateDifferenceCmd(i) => CreateDifference(b, i)
    case ResolveDifferenceCmd(id, version, resolution, user) => ResolveDifference(b, id, version, resolution, user)
    case ApproveDifferenceCmd(id, version, user) => ApproveDifference(b, id, version, user)
    case ConfirmRefundCmd(id, version) => ConfirmRefund(b, id, version)
    case DeliverCreditCmd(e, status) => DeliverCredit(b, e, status)
  }

  ghost function InvoiceTransaction(b: Books, c: InvoiceCmd): Outcome<Books> {
    match c
    case CreateRequestCmd(i) => CreateRequest(b, i)
    case ApproveCmd(q, version, user, i) => ApproveRequest(b, q, version, user, i)
    case RejectCmd(q, version, user) => RejectRequest(b, q, version, user)
    case ReviewSpecialCmd(q, version, user, approve, i) => ReviewSpecial(b, q, version, user, approve, i)
    case CancelCmd(q, version, user) => CancelRequest(b, q, version, user)
    case RecoverCmd(q, version, user, provider) => RecoverRequest(b, q, version, user, provider)
    case RegisterManualCmd(q, id) => RegisterManual(b, q, id)
    case CallbackCmd(e, id) => ApplyCallback(b, e, id)
    case MoveCommandCmd(k, to) => MoveCommand(b, k, to)
    case RetryOutboxCmd(k) => RetryOutbox(b, k)
    case RetryDeadLetterCmd(k) => RetryDeadLetter(b, k)
    case RequestRedFlushCmd(id, invoice, user) => RequestRedFlush(b, id, invoice, user)
    case ReviewRedFlushCmd(id, version, user, approve, i) => ReviewRedFlush(b, id, version, user, approve, i)
  }

  ghost function ContractTransaction(b: Books, c: ContractCmd): Outcome<Books> {
    match c
    case IngestCmd(e) => Ingest(b, e)
    case CreatePlanCmd(i) => CreateManualPlan(b, i)
    case ConfirmPlanCmd(i, r) => ConfirmPlan(b, i, r)
    case AdjustPlanCmd(i) => AdjustPlan(b, i)
    case DunCmd(p) => Dun(b, p)
    case CreateNativeCmd(i) => CreateNative(b, i)
    case VoidNativeCmd(s, version) => VoidNative(b, s, version)
  }

  ghost function Transaction(b: Books, c: Cmd): Outcome<Books> {
    match c
    case OfCash(x) => CashTransaction(b, x)
    case OfInvoices(x) => InvoiceTransaction(b, x)
    case OfContracts(x) => ContractTransaction(b, x)
  }

  /** A refused transaction rolls back. */
  ghost function Step(b: Books, c: Cmd): Books {
    var r := Transaction(b, c);
    if r.Done? then r.value else b
  }

  /** A run: the states before and after each command, starting from an empty store. */
  datatype Run = Run(states: seq<Books>, cmds: seq<Cmd>)

  ghost predicate Follows(run: Run, k: nat)
    requires k < |run.cmds| && |run.states| == |run.cmds| + 1
  {
    run.states[k + 1] == Step(run.states[k], run.cmds[k])
  }

  ghost predicate IsRun(run: Run) {
    && |run.states| == |run.cmds| + 1 && run.states[0] == NOTHING
    && forall k {:trigger Follows(run, k)} :: 0 <= k < |run.cmds| ==> Follows(run, k)
  }

  const NOTHING := Books(
    map[], CashTables(map[], map[], map[], map[]), InvoiceTables(map[], map[], map[], map[], map[], map[], map[]),
    ContractTables(map[], map[], map[], map[], {}, {}))

  ghost predicate Inv(b: Books) {
    CashInv(b.cash, b.ar) && InvoiceInv(b.inv, b.ar) && ContractInv(b.con, b.ar)
  }

  // ---------- what one component leaves to the others

  predicate SameMoney(x: Receivable, y: Receivable) {
    x.original == y.original && x.open == y.open && x.received == y.received && x.writeOff == y.writeOff && x.collection == y.collection
  }

  lemma LedgerKeepsCash(c: CashTables, ar: Ledger, n: Ledger)
    requires CashInv(c, ar) && n.Keys == ar.Keys && forall r :: r in ar ==> SameMoney(ar[r], n[r])
    ensures CashInv(c, n)
  {
    forall a | a in c.allocations ensures AllocationSound(c, n, a) { assert AllocationSound(c, ar, a); }
    forall r | r in n ensures ReceivableBalanced(c, n, r) { assert ReceivableBalanced(c, ar, r); }
  }

  lemma LedgerKeepsInvoices(t: InvoiceTables, ar: Ledger, n: Ledger)
    requires InvoiceInv(t, ar)
    requires forall q, r :: q in t.requests && r in t.requests[q].lines ==> r in n
    requires forall r :: r in n ==>
      if r in ar then n[r].invoiced == ar[r].invoiced && ar[r].invoiced + ReservedTotal(t.requests, r) <= n[r].original
      else n[r].invoiced == 0 && 0 <= n[r].original
    ensures InvoiceInv(t, n)
  {
    forall q | q in t.requests ensures RequestSound(t, n, q) { assert RequestSound(t, ar, q); }
    forall r | r in n ensures CapacitySound(t.requests, n, r) {
      if r in ar {
        assert CapacitySound(t.requests, ar, r);
      } else {
        NothingDrawn(t, ar, r);
      }
    }
  }

  /** No request draws on a receivable that does not exist. */
  lemma NothingDrawn(t: InvoiceTables, ar: Ledger, r: Id)
    requires InvoiceInv(t, ar) && r !in ar
    ensures InvoicedTotal(t.requests, r) == 0 && ReservedTotal(t.requests, r) == 0
  {
    forall q | q in t.requests ensures r !in t.requests[q].lines { assert RequestSound(t, ar, q); }
    UndrawnIsZero(t.requests, r);
  }

  lemma UndrawnIsZero(requests: map<Id, Request>, r: Id)
    requires forall q :: q in requests ==> r !in requests[q].lines
    ensures InvoicedTotal(requests, r) == 0 && ReservedTotal(requests, r) == 0
  {
    ZeroTotal(map q | q in requests :: OutstandingOn(requests[q], r));
    ZeroTotal(map q | q in requests :: StandingOn(requests[q], r));
  }

  lemma {:induction false} ZeroTotal(m: map<Id, int>)
    requires forall k :: k in m ==> m[k] == 0
    ensures Total(m) == 0
    decreases |m|
  {
    if m.Keys == {} {
      assert m == map[];
      TotalEmpty<Id>();
    } else {
      var k :| k in m.Keys;
      TotalPick(m, k);
      ZeroTotal(m - {k});
    }
  }

  /** Contract steps resize, add or drop receivables on which no money has moved. */
  lemma ContractLedgerKeepsCash(c: CashTables, ar: Ledger, n: Ledger)
    requires CashInv(c, ar)
    requires forall a :: a in c.allocations ==> c.allocations[a].receivable in n
    requires forall r :: r in n ==>
      && n[r].original == n[r].open + n[r].received + n[r].writeOff
      && 0 <= n[r].open && 0 <= n[r].writeOff
      && n[r].collection == CollectionOf(n[r].open, n[r].received)
      && (if r in ar then n[r].received == ar[r].received else n[r].received == 0)
    ensures CashInv(c, n)
  {
    forall a | a in c.allocations ensures AllocationSound(c, n, a) { assert AllocationSound(c, ar, a); }
    forall r | r in n ensures ReceivableBalanced(c, n, r) {
      if r in ar {
        assert ReceivableBalanced(c, ar, r);
      } else {
        NothingPaid(c, ar, r);
      }
    }
  }

  lemma NothingPaid(c: CashTables, ar: Ledger, r: Id)
    requires CashInv(c, ar) && r !in ar
    ensures NetOf(c.allocations, OfReceivable(r)) == 0
  {
    forall a | a in c.allocations ensures c.allocations[a].receivable != r { assert AllocationSound(c, ar, a); }
    NetOfNone(c.allocations, r);
  }

  lemma NetOfNone(allocations: map<Id, Allocation>, r: Id)
    requires forall a :: a in allocations ==> allocations[a].receivable != r
    ensures NetOf(allocations, OfReceivable(r)) == 0
  {
    ZeroTotal(map a | a in allocations && Touches(allocations[a], OfReceivable(r)) :: NetPart(allocations[a]));
  }

  // ---------- cash steps

  predicate CashFrame(b: Books, n: Books) {
    && n.inv == b.inv && n.con == b.con && n.ar.Keys == b.ar.Keys
    && forall r :: r in b.ar ==> SameTerms(b.ar[r], n.ar[r]) && n.ar[r].invoiced == b.ar[r].invoiced
  }

  lemma CashStepFrame(b: Books, c: CashCmd)
    requires CashTransaction(b, c).Done?
    ensures CashFrame(b, CashTransaction(b, c).value)
  {
  }

  lemma CashStepBalances(b: Books, c: CashCmd)
    requires CashInv(b.cash, b.ar) && CashTransaction(b, c).Done?
    ensures var n := CashTransaction(b, c).value; CashInv(n.cash, n.ar)
  {
    match c
    case CreateReceiptCmd(p, customer, currency, amount) => CreateReceiptKeeps(b, p, customer, currency, amount);
    case ConfirmAllocationCmd(i) => ConfirmAllocationKeeps(b, i);
    case ReverseAllocationCmd(i) => ReverseAllocationKeeps(b, i);
    case CreateDifferenceCmd(i) => CreateDifferenceKeeps(b, i);
    case ResolveDifferenceCmd(id, version, resolution, user) => ResolveDifferenceKeeps(b, id, version, resolution, user);
    case ApproveDifferenceCmd(id, version, user) => ApproveDifferenceKeeps(b, id, version, user);
    case ConfirmRefundCmd(id, version) => ConfirmRefundKeeps(b, id, version);
    case DeliverCreditCmd(e, status) => DeliverCreditKeeps(b, e, status);
  }

  lemma CashStepKeeps(b: Books, c: CashCmd)
    requires Inv(b) && CashTransaction(b, c).Done?
    ensures Inv(CashTransaction(b, c).value)
  {
    var n := CashTransaction(b, c).value;
    CashStepFrame(b, c);
    CashStepBalances(b, c);
    forall r | r in n.ar ensures b.ar[r].invoiced + ReservedTotal(b.inv.requests, r) <= n.ar[r].original {
      assert CapacitySound(b.inv.requests, b.ar, r);
    }
    forall q, r | q in b.inv.requests && r in b.inv.requests[q].lines ensures r in n.ar { assert RequestSound(b.inv, b.ar, q); }
    LedgerKeepsInvoices(b.inv, b.ar, n.ar);
    LedgerKeepsContracts(b.con, b.ar, n.ar);
  }

  // ---------- invoice steps

  predicate InvoiceFrame(b: Books, n: Books) {
    && n.cash == b.cash && n.con == b.con && n.ar.Keys == b.ar.Keys
    && forall r :: r in b.ar ==> SameTerms(b.ar[r], n.ar[r]) && SameMoney(b.ar[r], n.ar[r])
  }

  lemma ManualFrame(b: Books, q: Id, id: Id)
    requires RegisterManual(b, q, id).Done?
    ensures NoNewRequest(b, RegisterManual(b, q, id).value)
  {
  }

  /** Neither balances nor inbox change, and no request is added. */
  predicate RequestsOnly(b: Books, n: Books) {
    && n.cash == b.cash && n.con == b.con && n.ar == b.ar && n.inv.inbox == b.inv.inbox
    && n.inv.requests.Keys == b.inv.requests.Keys
  }

  predicate NoNewRequest(b: Books, n: Books) {
    InvoiceFrame(b, n) && n.inv.inbox == b.inv.inbox && n.inv.requests.Keys == b.inv.requests.Keys
  }

  lemma ReviewFrame(b: Books, c: InvoiceCmd)
    requires InvoiceTransaction(b, c).Done? && (c.ApproveCmd? || c.ReviewSpecialCmd? || c.RejectCmd? || c.CancelCmd? || c.RecoverCmd?)
    ensures RequestsOnly(b, InvoiceTransaction(b, c).value)
  {
  }

  lemma RedReviewFrame(b: Books, id: Id, version: int, user: Id, approve: bool, i: AttemptInput)
    requires ReviewRedFlush(b, id, version, user, approve, i).Done?
    ensures RequestsOnly(b, ReviewRedFlush(b, id, version, user, approve, i).value)
  {
  }

  lemma MoveFrame(b: Books, c: Id, to: CommandStatus)
    requires MoveCommand(b, c, to).Done?
    ensures RequestsOnly(b, MoveCommand(b, c, to).value)
  {
    hide MayMove, Accept, AcceptRed;
  }

  lemma RetryFrame(b: Books, c: Id)
    ensures RetryOutbox(b, c).Done? ==> RequestsOnly(b, RetryOutbox(b, c).value)
    ensures RetryDeadLetter(b, c).Done? ==> RequestsOnly(b, RetryDeadLetter(b, c).value)
  {
    hide RetryableIssue, RetryableRed;
  }

  lemma RedRequestFrame(b: Books, id: Id, invoice: Id, user: Id)
    requires RequestRedFlush(b, id, invoice, user).Done?
    ensures RequestsOnly(b, RequestRedFlush(b, id, invoice, user).value)
  {
  }

  lemma OtherFrame(b: Books, c: InvoiceCmd)
    requires InvoiceTransaction(b, c).Done? && !c.CallbackCmd? && !c.RegisterManualCmd? && !c.CreateRequestCmd?
    requires !(c.ApproveCmd? || c.ReviewSpecialCmd? || c.RejectCmd? || c.CancelCmd? || c.RecoverCmd?)
    ensures RequestsOnly(b, InvoiceTransaction(b, c).value)
  {
    hide MoveCommand, RetryOutbox, RetryDeadLetter, RequestRedFlush, ReviewRedFlush, RequestsOnly;
    match c
    case MoveCommandCmd(k, to) => MoveFrame(b, k, to);
    case RetryOutboxCmd(k) => RetryFrame(b, k);
    case RetryDeadLetterCmd(k) => RetryFrame(b, k);
    case RequestRedFlushCmd(id, invoice, user) => RedRequestFrame(b, id, invoice, user);
    case ReviewRedFlushCmd(id, version, user, approve, i) => RedReviewFrame(b, id, version, user, approve, i);
  }

  lemma IssueInvoiceFrame(b: Books, a: Id, sequence: nat, id: Id)
    requires a in b.inv.attempts && b.inv.attempts[a].request in b.inv.requests
    ensures NoNewRequest(b, IssueInvoice(b, a, sequence, id))
  {
  }

  lemma IssueFrame(b: Books, e: Callback, id: Id)
    requires ApplyIssueCallback(b, e, id).Done?
    ensures NoNewRequest(b, ApplyIssueCallback(b, e, id).value.books)
  {
    ReportFrame(b, e.attempt, e.sequence, AttemptUnknown, IssueUnknown);
    ReportFrame(b, e.attempt, e.sequence, AttemptFailed, IssueFailed);
    IssueInvoiceFrame(b, e.attempt, e.sequence, id);
    assert NoNewRequest(b, RaiseSequence(b, e.attempt, e.sequence)) && NoNewRequest(b, b);
  }

  lemma ReportFrame(b: Books, a: Id, sequence: nat, attempt: AttemptStatus, request: RequestStatus)
    requires a in b.inv.attempts && b.inv.attempts[a].request in b.inv.requests
    ensures NoNewRequest(b, ReportOn(b, a, sequence, attempt, request))
  {
  }

  lemma FlushInvoiceFrame(b: Books, a: Id, named: Id, sequence: nat, id: Id)
    requires a in b.inv.redAttempts && named in b.inv.redRequests
    requires b.inv.redAttempts[a].invoice in b.inv.invoices
    requires b.inv.invoices[b.inv.redAttempts[a].invoice].request in b.inv.requests
    ensures NoNewRequest(b, FlushInvoice(b, a, named, sequence, id))
  {
  }

  lemma RedFrame(b: Books, e: Callback, id: Id)
    requires ApplyRedCallback(b, e, id).Done?
    ensures NoNewRequest(b, ApplyRedCallback(b, e, id).value.books)
  {
    var named := NamedRed(b.inv, e);
    RedReportFrame(b, e.attempt, named, e.sequence, AttemptUnknown, RedUnknown);
    RedReportFrame(b, e.attempt, named, e.sequence, AttemptFailed, RedFailed);
    if named in b.inv.redRequests { FlushInvoiceFrame(b, e.attempt, named, e.sequence, id); }
    assert NoNewRequest(b, b);
  }

  lemma RedReportFrame(b: Books, a: Id, named: Id, sequence: nat, attempt: AttemptStatus, status: RedStatus)
    requires a in b.inv.redAttempts
    ensures NoNewRequest(b, RedReportOn(b, a, named, sequence, attempt, status))
  {
  }

  /** Only a callback files an inbox row, under its own event id. */
  predicate FiledBy(t: InvoiceTables, n: InvoiceTables, c: InvoiceCmd) {
    || n.inbox == t.inbox
    || (c.CallbackCmd? && c.callback.event !in t.inbox
        && exists v :: n.inbox == t.inbox[c.callback.event := InboxRow(c.callback, v)])
  }

  lemma InvoiceStepFrame(b: Books, c: InvoiceCmd)
    requires InvoiceTransaction(b, c).Done?
    ensures InvoiceFrame(b, InvoiceTransaction(b, c).value) && FiledBy(b.inv, InvoiceTransaction(b, c).value.inv, c)
    ensures !c.CreateRequestCmd? ==> InvoiceTransaction(b, c).value.inv.requests.Keys == b.inv.requests.Keys
  {
    match c
    case CallbackCmd(e, id) =>
      if e.event !in b.inv.inbox {
        var h := if e.redFlush then ApplyRedCallback(b, e, id).value else ApplyIssueCallback(b, e, id).value;
        if e.redFlush { RedFrame(b, e, id); } else { IssueFrame(b, e, id); }
        assert ApplyCallback(b, e, id).value.inv.inbox == b.inv.inbox[e.event := InboxRow(e, h.verdict)];
      }
    case RegisterManualCmd(q, id) => ManualFrame(b, q, id);
    case CreateRequestCmd(i) =>
    case _ =>
      if c.ApproveCmd? || c.ReviewSpecialCmd? || c.RejectCmd? || c.CancelCmd? || c.RecoverCmd? { ReviewFrame(b, c); } else { OtherFrame(b, c); }
  }

  lemma InvoiceStepSound(b: Books, c: InvoiceCmd)
    requires InvoiceInv(b.inv, b.ar) && InvoiceTransaction(b, c).Done?
    ensures var n := InvoiceTransaction(b, c).value; InvoiceInv(n.inv, n.ar)
  {
    match c
    case CreateRequestCmd(i) => CreateRequestKeeps(b, i);
    case ApproveCmd(q, version, user, i) => ApproveRequestKeeps(b, q, version, user, i);
    case RejectCmd(q, version, user) => RejectRequestKeeps(b, q, version, user);
    case ReviewSpecialCmd(q, version, user, approve, i) => ReviewSpecialKeeps(b, q, version, user, approve, i);
    case CancelCmd(q, version, user) => CancelRequestKeeps(b, q, version, user);
    case RecoverCmd(q, version, user, provider) => RecoverRequestKeeps(b, q, version, user, provider);
    case RegisterManualCmd(q, id) => RegisterManualKeeps(b, q, id);
    case CallbackCmd(e, id) => ApplyCallbackKeeps(b, e, id);
    case MoveCommandCmd(k, to) => MoveCommandKeeps(b, k, to);
    case RetryOutboxCmd(k) => RetryKeeps(b, k);
    case RetryDeadLetterCmd(k) => RetryKeeps(b, k);
    case RequestRedFlushCmd(id, invoice, user) => RequestRedFlushKeeps(b, id, invoice, user);
    case ReviewRedFlushCmd(id, version, user, approve, i) => ReviewRedFlushKeeps(b, id, version, user, approve, i);
  }

  lemma InvoiceStepKeeps(b: Books, c: InvoiceCmd)
    requires Inv(b) && InvoiceTransaction(b, c).Done?
    ensures Inv(InvoiceTransaction(b, c).value)
  {
    var n := InvoiceTransaction(b, c).value;
    InvoiceStepSound(b, c);
    InvoiceStepFrame(b, c);
    LedgerKeepsCash(b.cash, b.ar, n.ar);
    LedgerKeepsContracts(b.con, b.ar, n.ar);
  }

  // ---------- contract steps

  /** The ledger after a contract step: rows keep what was received and invoiced, new rows
      carry nothing, and a row that still has a reference is not dropped. */
  ghost predicate ContractFrame(b: Books, n: Books) {
    && n.cash == b.cash && n.inv == b.inv
    && (forall a :: a in b.cash.allocations ==> b.cash.allocations[a].receivable in n.ar)
    && (forall q, r :: q in b.inv.requests && r in b.inv.requests[q].lines ==> r in n.ar)
    && (forall r :: r in n.ar ==> ResizedSoundly(b, n.ar[r], r))
  }

  ghost predicate ResizedSoundly(b: Books, row: Receivable, r: Id) {
    && row.original == row.open + row.received + row.writeOff && 0 <= row.open && 0 <= row.writeOff
    && row.collection == CollectionOf(row.open, row.received)
    && (if r in b.ar then row.received == b.ar[r].received && row.invoiced == b.ar[r].invoiced
                          && b.ar[r].invoiced + ReservedTotal(b.inv.requests, r) <= row.original
        else row.received == 0 && row.invoiced == 0)
  }

  lemma ContractFrameKeeps(b: Books, n: Books)
    requires CashInv(b.cash, b.ar) && InvoiceInv(b.inv, b.ar) && ContractFrame(b, n)
    ensures CashInv(n.cash, n.ar) && InvoiceInv(n.inv, n.ar)
  {
    assert forall r :: r in n.ar ==> ResizedSoundly(b, n.ar[r], r);
    ContractLedgerKeepsCash(b.cash, b.ar, n.ar);
    LedgerKeepsInvoices(b.inv, b.ar, n.ar);
  }

  lemma UntouchedSoundly(b: Books, r: Id)
    requires Inv(b) && r in b.ar
    ensures ResizedSoundly(b, b.ar[r], r)
  {
    assert ReceivableBalanced(b.cash, b.ar, r) && CapacitySound(b.inv.requests, b.ar, r);
  }

  lemma ReferencesExist(b: Books)
    requires Inv(b)
    ensures forall a :: a in b.cash.allocations ==> b.cash.allocations[a].receivable in b.ar
    ensures forall q, r :: q in b.inv.requests && r in b.inv.requests[q].lines ==> r in b.ar
  {
    forall a | a in b.cash.allocations ensures b.cash.allocations[a].receivable in b.ar { assert AllocationSound(b.cash, b.ar, a); }
    forall q, r | q in b.inv.requests && r in b.inv.requests[q].lines ensures r in b.ar { assert RequestSound(b.inv, b.ar, q); }
  }

  lemma AdjustFrame(b: Books, i: PlanInput)
    requires Inv(b) && AdjustPlan(b, i).Done?
    ensures ContractFrame(b, AdjustPlan(b, i).value)
  {
    hide RequireCoverage;
    var n := AdjustPlan(b, i).value;
    ReferencesExist(b);
    forall r | r in n.ar ensures ResizedSoundly(b, n.ar[r], r) { UntouchedSoundly(b, r); }
  }

  lemma PlanStepFrame(b: Books, c: ContractCmd)
    requires Inv(b) && ContractTransaction(b, c).Done? && !c.IngestCmd?
    ensures ContractFrame(b, ContractTransaction(b, c).value)
  {
    hide AdjustPlan, RequireCoverage, InsertTerms;
    if c.AdjustPlanCmd? {
      AdjustFrame(b, c.plan);
    } else {
      var n := ContractTransaction(b, c).value;
      ReferencesExist(b);
      forall r | r in n.ar ensures ResizedSoundly(b, n.ar[r], r) {
        if r in b.ar { UntouchedSoundly(b, r); }
      }
    }
  }

  /** A receivable that an allocation or a reservation refers to survives the merge. */
  lemma ReferencesSurvive(b: Books, prior: Id, e: ContractEvent)
    requires Inv(b) && !DeletionBlocked(b, prior, e.terms)
    ensures forall a :: a in b.cash.allocations ==> b.cash.allocations[a].receivable in MovedLedger(b, prior, e)
    ensures forall q, r :: q in b.inv.requests && r in b.inv.requests[q].lines ==> r in MovedLedger(b, prior, e)
  {
    ReferencesExist(b);
    forall a | a in b.cash.allocations ensures b.cash.allocations[a].receivable in MovedLedger(b, prior, e) {
      assert PaidBy(b, a, b.cash.allocations[a].receivable);
    }
    forall q, r | q in b.inv.requests && r in b.inv.requests[q].lines ensures r in MovedLedger(b, prior, e) {
      assert OwedOn(b.ar, r, b.ar[r].plan) && DrawnBy(b, q, r);
    }
  }

  lemma MergeFrame(b: Books, prior: Id, e: ContractEvent)
    requires Inv(b) && prior in b.con.snapshots && NormalTerms(e.terms) && Merge(b, prior, e).Done?
    ensures ContractFrame(b, Merge(b, prior, e).value)
  {
    var n := Merge(b, prior, e).value;
    assert n.ar == MovedLedger(b, prior, e) && n.cash == b.cash && n.inv == b.inv;
    ReferencesSurvive(b, prior, e);
    forall r | r in n.ar ensures ResizedSoundly(b, n.ar[r], r) { MovedSoundly(b, prior, e, r); }
  }

  /** A receivable is resized only when nothing was received, written off, invoiced or reserved. */
  lemma MovedSoundly(b: Books, prior: Id, e: ContractEvent, r: Id)
    requires Inv(b) && NormalTerms(e.terms) && r in MovedLedger(b, prior, e)
    ensures ResizedSoundly(b, MovedLedger(b, prior, e)[r], r)
  {
    UntouchedSoundly(b, r);
    assert OwedOn(b.ar, r, b.ar[r].plan);
  }

  lemma IngestFrame(b: Books, e: ContractEvent)
    requires Inv(b) && Ingest(b, e).Done?
    ensures ContractFrame(b, Ingest(b, e).value)
  {
    if e.event !in b.con.events && e.contract in b.con.streams && SumTerms(e.terms) == e.amount {
      var prior := CurrentOf(b.con, e.contract).value;
      MergeFrame(b, prior, e);
    } else {
      ReferencesExist(b);
      forall r | r in b.ar ensures ResizedSoundly(b, b.ar[r], r) { UntouchedSoundly(b, r); }
    }
  }

  lemma ContractStepKeeps(b: Books, c: ContractCmd)
    requires Inv(b) && ContractTransaction(b, c).Done?
    ensures Inv(ContractTransaction(b, c).value)
  {
    if c.IngestCmd? { IngestFrame(b, c.event); } else { PlanStepFrame(b, c); }
    ContractFrameKeeps(b, ContractTransaction(b, c).value);
    match c
    case IngestCmd(e) => IngestKeeps(b, e);
    case CreatePlanCmd(i) => CreateManualPlanKeeps(b, i);
    case ConfirmPlanCmd(i, r) => ConfirmPlanKeeps(b, i, r);
    case AdjustPlanCmd(i) => AdjustPlanKeeps(b, i);
    case DunCmd(p) => DunKeeps(b, p);
    case CreateNativeCmd(i) => CreateNativeKeeps(b, i);
    case VoidNativeCmd(s, version) => VoidNativeKeeps(b, s, version);
  }

  // ---------- every run

  lemma StepKeeps(b: Books, c: Cmd)
    requires Inv(b)
    ensures Inv(Step(b, c))
  {
    if Transaction(b, c).Done? {
      match c
      case OfCash(x) => CashStepKeeps(b, x);
      case OfInvoices(x) => InvoiceStepKeeps(b, x);
      case OfContracts(x) => ContractStepKeeps(b, x);
    }
  }

  /** Every state of every run, refused transactions included, satisfies all three invariants. */
  lemma {:induction false} RunSound(run: Run, k: nat)
    requires IsRun(run) && k < |run.states|
    ensures Inv(run.states[k])
  {
    hide Transaction;
    if k == 0 {
      NothingIsSound();
    } else {
      RunSound(run, k - 1);
      assert Follows(run, k - 1);
      StepKeeps(run.states[k - 1], run.cmds[k - 1]);
    }
  }

  lemma NothingIsSound()
    ensures Inv(NOTHING)
  {
  }

  /** Every list of commands has a run. */
  lemma {:induction false} RunExists(cmds: seq<Cmd>)
    ensures exists run :: IsRun(run) && run.cmds == cmds
  {
    if cmds == [] {
      assert IsRun(Run([NOTHING], []));
    } else {
      var most := |cmds| - 1;
      RunExists(cmds[..most]);
      var before :| IsRun(before) && before.cmds == cmds[..most];
      var run := Run(before.states + [Step(before.states[most], cmds[most])], cmds);
      forall k | 0 <= k < |cmds| ensures Follows(run, k) {
        if k < most { assert Follows(before, k); }
      }
      assert IsRun(run);
    }
  }

  // ---------- reachable states

  ghost predicate EndsIn(run: Run, b: Books) {
    IsRun(run) && run.states[|run.cmds|] == b
  }

  ghost predicate Reachable(b: Books) {
    exists run :: EndsIn(run, b)
  }

  lemma NothingReachable()
    ensures Reachable(NOTHING)
  {
    hide Transaction;
    assert EndsIn(Run([NOTHING], []), NOTHING);
  }

  lemma StepReachable(b: Books, c: Cmd)
    requires Reachable(b)
    ensures Reachable(Step(b, c))
  {
    hide Transaction;
    var before :| EndsIn(before, b);
    var run := Run(before.states + [Step(b, c)], before.cmds + [c]);
    forall k | 0 <= k < |run.cmds| ensures Follows(run, k) {
      if k < |before.cmds| { assert Follows(before, k); }
    }
    assert EndsIn(run, Step(b, c));
  }

  lemma ReachableSound(b: Books)
    requires Reachable(b)
    ensures Inv(b)
  {
    hide Transaction, Inv;
    var run :| EndsIn(run, b);
    RunSound(run, |run.cmds|);
  }

  lemma CashReaches(b: Books, c: CashCmd, n: Books)
    requires Reachable(b) && CashTransaction(b, c) == Done(n)
    ensures Reachable(n)
  {
    StepReachable(b, OfCash(c));
  }

  lemma InvoiceReaches(b: Books, c: InvoiceCmd, n: Books)
    requires Reachable(b) && InvoiceTransaction(b, c) == Done(n)
    ensures Reachable(n)
  {
    StepReachable(b, OfInvoices(c));
  }

  lemma ContractReaches(b: Books, c: ContractCmd, n: Books)
    requires Reachable(b) && ContractTransaction(b, c) == Done(n)
    ensures Reachable(n)
  {
    StepReachable(b, OfContracts(c));
  }
}
