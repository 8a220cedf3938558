/** What no later transaction takes back: terminal states, sequences, versions, inbox rows.
    From this follow replay safety of callbacks and the finality of a cancellation. */
module Histories {
  import opened Tables
  import opened Billing
  import opened Cash
  import opened Invoicing
  import opened InvoicingProofs
  import opened Contracts
  import opened ContractProofs
  import opened Settlement

  // ---------- the order in which rows may move

  predicate AttemptLater(x: Attempt, y: Attempt) {
    && y.request == x.request && y.number == x.number && y.channel == x.channel && y.provider == x.provider
    && x.sequence <= y.sequence && y.command == x.command && (x.accepted ==> y.accepted)
    && (!Live(x.status) ==> y.status == x.status || (x.status == AttemptFailed && y.status == AttemptAbandoned))
  }

  predicate RedAttemptLater(x: RedAttempt, y: RedAttempt) {
    && y.red == x.red && y.invoice == x.invoice && y.provider == x.provider && x.sequence <= y.sequence
    && (!Live(x.status) ==> y.status == x.status)
  }

  predicate RequestLater(x: Request, y: Request) {
    && y.snapshot == x.snapshot && y.bill == x.bill && y.lines.Keys == x.lines.Keys
    && (x.status in {Cancelled, Rejected} ==> y == x)
    && (x.status == Issued ==> y.status == Issued)
  }

  predicate RedRequestLater(x: RedRequest, y: RedRequest) {
    y.invoice == x.invoice && (x.relation.Some? ==> y.relation == x.relation)
  }

  predicate InvoiceLater(x: Invoice, y: Invoice) {
    y == x || y == x.(status := InvoiceRedFlushed)
  }

  predicate AttemptMoves(t: InvoiceTables, n: InvoiceTables, a: Id) {
    a in t.attempts ==> a in n.attempts && AttemptLater(t.attempts[a], n.attempts[a])
  }

  predicate RequestMoves(t: InvoiceTables, n: InvoiceTables, q: Id) {
    q in t.requests ==> q in n.requests && RequestLater(t.requests[q], n.requests[q])
  }

  predicate RedAttemptMoves(t: InvoiceTables, n: InvoiceTables, x: Id) {
    x in t.redAttempts ==> x in n.redAttempts && RedAttemptLater(t.redAttempts[x], n.redAttempts[x])
  }

  predicate RedRequestMoves(t: InvoiceTables, n: InvoiceTables, x: Id) {
    x in t.redRequests ==> x in n.redRequests && RedRequestLater(t.redRequests[x], n.redRequests[x])
  }

  predicate InvoiceMoves(t: InvoiceTables, n: InvoiceTables, i: Id) {
    i in t.invoices ==> i in n.invoices && InvoiceLater(t.invoices[i], n.invoices[i])
  }

  predicate InboxStays(t: InvoiceTables, n: InvoiceTables, e: Id) {
    e in t.inbox ==> e in n.inbox && n.inbox[e] == t.inbox[e]
  }

  predicate StreamMoves(con: ContractTables, n: ContractTables, c: Id) {
    c in con.streams ==> c in n.streams && con.streams[c] <= n.streams[c]
  }

  /** A snapshot keeps what it was made for; a superseded or voided one never changes. */
  predicate SnapshotMoves(con: ContractTables, n: ContractTables, s: Id) {
    s in con.snapshots ==>
      && s in n.snapshots
      && n.snapshots[s].contract == con.snapshots[s].contract && n.snapshots[s].amount == con.snapshots[s].amount
      && n.snapshots[s].customer == con.snapshots[s].customer && n.snapshots[s].currency == con.snapshots[s].currency
      && (con.snapshots[s].status != Effective ==> n.snapshots[s] == con.snapshots[s])
  }

  ghost predicate TablesLater(t: InvoiceTables, n: InvoiceTables) {
    && (forall a {:trigger AttemptMoves(t, n, a)} :: AttemptMoves(t, n, a))
    && (forall q {:trigger RequestMoves(t, n, q)} :: RequestMoves(t, n, q))
    && (forall x {:trigger RedAttemptMoves(t, n, x)} :: RedAttemptMoves(t, n, x))
    && (forall x {:trigger RedRequestMoves(t, n, x)} :: RedRequestMoves(t, n, x))
    && (forall i {:trigger InvoiceMoves(t, n, i)} :: InvoiceMoves(t, n, i))
    && (forall e {:trigger InboxStays(t, n, e)} :: InboxStays(t, n, e))
  }

  ghost predicate StreamsLater(con: ContractTables, n: ContractTables) {
    && (forall c {:trigger StreamMoves(con, n, c)} :: StreamMoves(con, n, c))
    && (forall s {:trigger SnapshotMoves(con, n, s)} :: SnapshotMoves(con, n, s))
    && con.events <= n.events
  }

  ghost predicate Later(b: Books, n: Books) {
    TablesLater(b.inv, n.inv) && StreamsLater(b.con, n.con)
  }

  // ---------- every step moves forward

  lemma CreateAttemptLater(b: Books, q: Id, i: AttemptInput)
    requires q in b.inv.requests && b.inv.requests[q].status in {Submitted, SpecialReview} && CreateAttempt(b, q, i).Done?
    ensures TablesLater(b.inv, CreateAttempt(b, q, i).value.inv)
  {
  }

  lemma RequestOnlyLater(t: InvoiceTables, n: InvoiceTables, q: Id)
    requires q in n.requests && n == t.(requests := t.requests[q := n.requests[q]])
    requires q in t.requests ==>
      && t.requests[q].status !in {Cancelled, Rejected, Issued} && n.requests[q].snapshot == t.requests[q].snapshot
      && n.requests[q].bill == t.requests[q].bill && n.requests[q].lines.Keys == t.requests[q].lines.Keys
    ensures TablesLater(t, n)
  {
  }

  lemma ReviewStepLater(b: Books, c: InvoiceCmd)
    requires InvoiceTransaction(b, c).Done?
    requires c.ApproveCmd? || c.RejectCmd? || c.ReviewSpecialCmd? || c.RecoverCmd? || c.CreateRequestCmd?
    ensures TablesLater(b.inv, InvoiceTransaction(b, c).value.inv)
  {
    match c
    case CreateRequestCmd(i) => RequestOnlyLater(b.inv, CreateRequest(b, i).value.inv, i.id);
    case ApproveCmd(q, version, user, i) =>
      if b.inv.requests[q].special {
        RequestOnlyLater(b.inv, ApproveRequest(b, q, version, user, i).value.inv, q);
      } else {
        CreateAttemptLater(b, q, i);
      }
    case RejectCmd(q, version, user) => RequestOnlyLater(b.inv, RejectRequest(b, q, version, user).value.inv, q);
    case ReviewSpecialCmd(q, version, user, approve, i) =>
      if approve {
        CreateAttemptLater(b, q, i);
      } else {
        RequestOnlyLater(b.inv, ReviewSpecial(b, q, version, user, approve, i).value.inv, q);
      }
    case RecoverCmd(q, version, user, provider) =>
      RequestOnlyLater(b.inv, RecoverRequest(b, q, version, user, provider).value.inv, q);
  }

  lemma CancelLater(b: Books, q: Id, version: int, user: Id)
    requires CancelRequest(b, q, version, user).Done?
    ensures TablesLater(b.inv, CancelRequest(b, q, version, user).value.inv)
  {
    hide HasConflict, LastAttempt;
    var t, n := b.inv, CancelRequest(b, q, version, user).value.inv;
    var m := t.(requests := n.requests);
    RequestOnlyLater(t, m, q);
    forall x ensures RequestMoves(t, n, x) { assert RequestMoves(t, m, x); }
  }

  lemma ManualLater(b: Books, q: Id, id: Id)
    requires RegisterManual(b, q, id).Done?
    ensures TablesLater(b.inv, RegisterManual(b, q, id).value.inv)
  {
  }

  lemma AttemptsOnlyLater(t: InvoiceTables, n: InvoiceTables)
    requires n == t.(commands := n.commands, attempts := n.attempts)
    requires forall a {:trigger AttemptMoves(t, n, a)} :: AttemptMoves(t, n, a)
    ensures TablesLater(t, n)
  {
  }

  lemma RedOnlyLater(t: InvoiceTables, n: InvoiceTables)
    requires n == t.(commands := n.commands, redRequests := n.redRequests, redAttempts := n.redAttempts)
    requires forall x {:trigger RedAttemptMoves(t, n, x)} :: RedAttemptMoves(t, n, x)
    requires forall x {:trigger RedRequestMoves(t, n, x)} :: RedRequestMoves(t, n, x)
    ensures TablesLater(t, n)
  {
  }

  lemma MoveCommandLater(b: Books, c: Id, status: CommandStatus)
    requires MoveCommand(b, c, status).Done?
    ensures TablesLater(b.inv, MoveCommand(b, c, status).value.inv)
  {
    hide MayMove;
    var t, n := b.inv, MoveCommand(b, c, status).value.inv;
    if t.commands[c].redFlush || status != CommandDelivered {
      RedOnlyLater(t, n);
    } else {
      AttemptsOnlyLater(t, n);
    }
  }

  lemma RetryLater(b: Books, c: Id)
    ensures RetryOutbox(b, c).Done? ==> TablesLater(b.inv, RetryOutbox(b, c).value.inv)
    ensures RetryDeadLetter(b, c).Done? ==> TablesLater(b.inv, RetryDeadLetter(b, c).value.inv)
  {
    hide RetryableIssue, RetryableRed, TablesLater;
    if RetryOutbox(b, c).Done? { RedOnlyLater(b.inv, RetryOutbox(b, c).value.inv); }
    if RetryDeadLetter(b, c).Done? { RedOnlyLater(b.inv, RetryDeadLetter(b, c).value.inv); }
  }

  lemma RedAskedLater(b: Books, id: Id, invoice: Id, user: Id)
    requires RequestRedFlush(b, id, invoice, user).Done?
    ensures TablesLater(b.inv, RequestRedFlush(b, id, invoice, user).value.inv)
  {
    hide TablesLater;
    RedOnlyLater(b.inv, RequestRedFlush(b, id, invoice, user).value.inv);
  }

  lemma RedReviewedLater(b: Books, id: Id, version: int, user: Id, approve: bool, i: AttemptInput)
    requires ReviewRedFlush(b, id, version, user, approve, i).Done?
    ensures TablesLater(b.inv, ReviewRedFlush(b, id, version, user, approve, i).value.inv)
  {
    hide TablesLater;
    RedOnlyLater(b.inv, ReviewRedFlush(b, id, version, user, approve, i).value.inv);
  }

  lemma RedReviewLater(b: Books, c: InvoiceCmd)
    requires InvoiceTransaction(b, c).Done?
    requires c.RetryOutboxCmd? || c.RetryDeadLetterCmd? || c.RequestRedFlushCmd? || c.ReviewRedFlushCmd?
    ensures TablesLater(b.inv, InvoiceTransaction(b, c).value.inv)
  {
    hide RetryOutbox, RetryDeadLetter, RequestRedFlush, ReviewRedFlush, TablesLater;
    match c
    case RetryOutboxCmd(k) => RetryLater(b, k);
    case RetryDeadLetterCmd(k) => RetryLater(b, k);
    case RequestRedFlushCmd(id, invoice, user) => RedAskedLater(b, id, invoice, user);
    case ReviewRedFlushCmd(id, version, user, approve, i) => RedReviewedLater(b, id, version, user, approve, i);
  }

  lemma IssueInvoiceLater(b: Books, a: Id, sequence: nat, id: Id)
    requires PendingIfLive(b.inv, a) && Live(b.inv.attempts[a].status) && b.inv.attempts[a].sequence < sequence && id !in b.inv.invoices
    ensures TablesLater(b.inv, IssueInvoice(b, a, sequence, id).inv)
  {
  }

  lemma ReportOnLater(b: Books, a: Id, sequence: nat, attempt: AttemptStatus, request: RequestStatus)
    requires PendingIfLive(b.inv, a) && Live(b.inv.attempts[a].status) && b.inv.attempts[a].sequence < sequence
    requires request in {IssueUnknown, IssueFailed}
    ensures TablesLater(b.inv, ReportOn(b, a, sequence, attempt, request).inv)
  {
  }

  lemma RaiseLater(b: Books, a: Id, sequence: nat)
    requires a in b.inv.attempts && b.inv.attempts[a].sequence < sequence
    ensures TablesLater(b.inv, RaiseSequence(b, a, sequence).inv)
  {
  }

  lemma IssueCallbackLater(b: Books, e: Callback, id: Id)
    requires PendingIfLive(b.inv, e.attempt) && ApplyIssueCallback(b, e, id).Done?
    ensures var n := ApplyIssueCallback(b, e, id).value.books.inv; TablesLater(b.inv, n) && n.inbox == b.inv.inbox
  {
    hide ApplyIssueCallback, TablesLater;
    var a := e.attempt;
    IssueCallbackResult(b, e, id);
    LaterReflexive(b);
    if Live(b.inv.attempts[a].status) && b.inv.attempts[a].sequence < e.sequence {
      match e.kind
      case ReportUnknown => ReportOnLater(b, a, e.sequence, AttemptUnknown, IssueUnknown);
      case ReportFailed => ReportOnLater(b, a, e.sequence, AttemptFailed, IssueFailed);
      case ReportIssued => IssueInvoiceLater(b, a, e.sequence, id);
    } else if b.inv.attempts[a].sequence < e.sequence {
      RaiseLater(b, a, e.sequence);
    }
  }

  lemma FlushLater(b: Books, a: Id, named: Id, sequence: nat, id: Id)
    requires a in b.inv.redAttempts && Live(b.inv.redAttempts[a].status)
    requires named in b.inv.redRequests && b.inv.redRequests[named].relation.None?
    requires b.inv.redAttempts[a].invoice in b.inv.invoices
    requires b.inv.invoices[b.inv.redAttempts[a].invoice].request in b.inv.requests
    requires b.inv.requests[b.inv.invoices[b.inv.redAttempts[a].invoice].request].status == Issued
    requires b.inv.redAttempts[a].sequence <= sequence && id !in b.inv.invoices
    ensures var n := FlushInvoice(b, a, named, sequence, id).inv; TablesLater(b.inv, n) && n.inbox == b.inv.inbox
  {
  }

  lemma RedCallbackLater(b: Books, e: Callback, id: Id)
    requires ApplyRedCallback(b, e, id).Done?
    requires b.inv.requests[b.inv.invoices[b.inv.redAttempts[e.attempt].invoice].request].status == Issued
    ensures var n := ApplyRedCallback(b, e, id).value.books.inv; TablesLater(b.inv, n) && n.inbox == b.inv.inbox
  {
    var t, n := b.inv, ApplyRedCallback(b, e, id).value.books;
    if n != b {
      if e.kind == ReportIssued {
        FlushLater(b, e.attempt, NamedRed(t, e), e.sequence, id);
      } else {
        RedOnlyLater(t, n.inv);
      }
    }
  }

  lemma CallbackLater(b: Books, e: Callback, id: Id)
    requires InvoiceInv(b.inv, b.ar) && ApplyCallback(b, e, id).Done?
    ensures TablesLater(b.inv, ApplyCallback(b, e, id).value.inv)
  {
    var n := ApplyCallback(b, e, id).value.inv;
    if e.event !in b.inv.inbox {
      if e.redFlush {
        assert RedAttemptSound(b.inv, e.attempt) && InvoiceSound(b.inv, b.inv.redAttempts[e.attempt].invoice);
        RedCallbackLater(b, e, id);
      } else {
        assert AttemptSound(b.inv, e.attempt);
        IssueCallbackLater(b, e, id);
      }
      var h := if e.redFlush then ApplyRedCallback(b, e, id).value else ApplyIssueCallback(b, e, id).value;
      InboxOnlyLater(b.inv, h.books.inv, n, e.event);
    }
  }

  lemma InboxOnlyLater(t: InvoiceTables, m: InvoiceTables, n: InvoiceTables, e: Id)
    requires TablesLater(t, m) && e !in t.inbox && m.inbox == t.inbox && e in n.inbox && n == m.(inbox := t.inbox[e := n.inbox[e]])
    ensures TablesLater(t, n)
  {
    forall a ensures AttemptMoves(t, n, a) { assert AttemptMoves(t, m, a); }
    forall q ensures RequestMoves(t, n, q) { assert RequestMoves(t, m, q); }
    forall a ensures RedAttemptMoves(t, n, a) { assert RedAttemptMoves(t, m, a); }
    forall a ensures RedRequestMoves(t, n, a) { assert RedRequestMoves(t, m, a); }
    forall i ensures InvoiceMoves(t, n, i) { assert InvoiceMoves(t, m, i); }
  }

  lemma InvoiceStepLater(b: Books, c: InvoiceCmd)
    requires InvoiceInv(b.inv, b.ar) && InvoiceTransaction(b, c).Done?
    ensures TablesLater(b.inv, InvoiceTransaction(b, c).value.inv)
  {
    match c
    case CallbackCmd(e, id) => CallbackLater(b, e, id);
    case CancelCmd(q, version, user) => CancelLater(b, q, version, user);
    case RegisterManualCmd(q, id) => ManualLater(b, q, id);
    case MoveCommandCmd(k, to) => MoveCommandLater(b, k, to);
    case _ =>
      if c.RetryOutboxCmd? || c.RetryDeadLetterCmd? || c.RequestRedFlushCmd? || c.ReviewRedFlushCmd? {
        RedReviewLater(b, c);
      } else {
        ReviewStepLater(b, c);
      }
  }

  lemma FirstVersionLater(b: Books, e: ContractEvent)
    requires FirstVersion(b, e).Done? && e.contract !in b.con.streams
    ensures var n := FirstVersion(b, e).value; n.inv == b.inv && n.cash == b.cash && StreamsLater(b.con, n.con)
  {
    hide InsertTerms, SumTerms;
  }

  lemma MergeLater(b: Books, prior: Id, e: ContractEvent)
    requires CurrentFor(b.con, prior, e.contract) && b.con.streams[e.contract] < e.version && Merge(b, prior, e).Done?
    ensures var n := Merge(b, prior, e).value; n.inv == b.inv && n.cash == b.cash && StreamsLater(b.con, n.con)
  {
    hide InsertTerms, MovedPlans, MovedLedger, NewTerms, DeletionBlocked, Disputes, RegisterHold;
  }

  lemma OnlyHoldsLater(con: ContractTables, n: ContractTables)
    requires n == con.(holds := n.holds, events := n.events) && con.events <= n.events
    ensures StreamsLater(con, n)
  {
  }

  lemma IngestLater(b: Books, e: ContractEvent)
    requires Ingest(b, e).Done?
    ensures var n := Ingest(b, e).value; n.inv == b.inv && n.cash == b.cash && StreamsLater(b.con, n.con)
  {
    hide Merge, FirstVersion, StreamsLater, RegisterHold, NormalTerms, SumTerms;
    LaterReflexive(b);
    if e.event !in b.con.events {
      if e.contract !in b.con.streams {
        FirstVersionLater(b, e);
      } else if SumTerms(e.terms) == e.amount {
        MergeLater(b, CurrentOf(b.con, e.contract).value, e);
      } else {
        OnlyHoldsLater(b.con, Ingest(b, e).value.con);
      }
    }
  }

  lemma ContractStepLater(b: Books, c: ContractCmd)
    requires ContractTransaction(b, c).Done?
    ensures var n := ContractTransaction(b, c).value; n.inv == b.inv && n.cash == b.cash && StreamsLater(b.con, n.con)
  {
    hide Ingest, RequireCoverage, InsertTerms;
    if c.IngestCmd? { IngestLater(b, c.event); }
  }

  lemma StepLater(b: Books, c: Cmd)
    requires Inv(b)
    ensures Later(b, Step(b, c))
  {
    hide CashTransaction, InvoiceTransaction, ContractTransaction, TablesLater, StreamsLater;
    LaterReflexive(b);
    if Transaction(b, c).Done? {
      match c
      case OfCash(x) => CashStepFrame(b, x);
      case OfInvoices(x) => InvoiceStepFrame(b, x); InvoiceStepLater(b, x);
      case OfContracts(x) => ContractStepLater(b, x);
    }
  }

  lemma LaterTransitive(b: Books, m: Books, n: Books)
    requires Later(b, m) && Later(m, n)
    ensures Later(b, n)
  {
    var x, y, z := b.inv, m.inv, n.inv;
    forall a ensures AttemptMoves(x, z, a) { assert AttemptMoves(x, y, a) && AttemptMoves(y, z, a); }
    forall q ensures RequestMoves(x, z, q) { assert RequestMoves(x, y, q) && RequestMoves(y, z, q); }
    forall a ensures RedAttemptMoves(x, z, a) { assert RedAttemptMoves(x, y, a) && RedAttemptMoves(y, z, a); }
    forall a ensures RedRequestMoves(x, z, a) { assert RedRequestMoves(x, y, a) && RedRequestMoves(y, z, a); }
    forall i ensures InvoiceMoves(x, z, i) { assert InvoiceMoves(x, y, i) && InvoiceMoves(y, z, i); }
    forall e ensures InboxStays(x, z, e) { assert InboxStays(x, y, e) && InboxStays(y, z, e); }
    forall c ensures StreamMoves(b.con, n.con, c) { assert StreamMoves(b.con, m.con, c) && StreamMoves(m.con, n.con, c); }
    forall s ensures SnapshotMoves(b.con, n.con, s) { assert SnapshotMoves(b.con, m.con, s) && SnapshotMoves(m.con, n.con, s); }
  }

  lemma LaterReflexive(b: Books)
    ensures Later(b, b)
  {
  }

  /** In every run attempt sequences and contract versions only rise, attempts that ended keep their
      status, except that a cancellation abandons a failed one, and terminal requests, inbox rows and
      superseded or voided snapshots stay. */
  lemma {:induction false} RunLater(run: Run, j: nat, k: nat)
    requires IsRun(run) && j <= k < |run.states|
    ensures Later(run.states[j], run.states[k])
    decreases k
  {
    hide Transaction, Inv;
    if j == k {
      LaterReflexive(run.states[j]);
    } else {
      RunLater(run, j, k - 1);
      RunSound(run, k - 1);
      assert Follows(run, k - 1);
      StepLater(run.states[k - 1], run.cmds[k - 1]);
      LaterTransitive(run.states[j], run.states[k - 1], run.states[k]);
    }
  }
}
