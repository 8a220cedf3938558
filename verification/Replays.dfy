/** Provider reports may be repeated and come late: what a report that was filed once can still do,
    and what a red-flush report that names another request can do. */
module Replays {
  import opened Tables
  import opened Billing
  import opened Invoicing
  import opened InvoicingProofs
  import opened Settlement
  import opened Histories

  // ---------- what is known of a filed report

  /** The report carries the identity of its attempt. */
  predicate Addressed(t: InvoiceTables, e: Callback) {
    && 0 < e.sequence && e.externalRequest == e.attempt
    && (if e.redFlush then e.attempt in t.redAttempts && e.provider == t.redAttempts[e.attempt].provider
        else e.attempt in t.attempts && t.attempts[e.attempt].channel == TaxAdapter && e.provider == t.attempts[e.attempt].provider)
  }

  /** A report that can no longer move its attempt. */
  predicate Inert(t: InvoiceTables, e: Callback) {
    if e.redFlush then
      && e.attempt in t.redAttempts && t.redAttempts[e.attempt].invoice in t.invoices
      && var x := t.redAttempts[e.attempt];
      && (e.sequence <= x.sequence || !Live(x.status) || t.invoices[x.invoice].status == InvoiceRedFlushed)
    else
      e.attempt in t.attempts && (e.sequence <= t.attempts[e.attempt].sequence || !Live(t.attempts[e.attempt].status))
  }

  predicate RowSound(t: InvoiceTables, k: Id)
    requires k in t.inbox
  {
    Addressed(t, t.inbox[k].callback) && (!t.inbox[k].callback.redFlush ==> Inert(t, t.inbox[k].callback))
  }

  ghost predicate InboxSound(t: InvoiceTables) {
    forall k {:trigger RowSound(t, k)} :: k in t.inbox ==> RowSound(t, k)
  }

  lemma AddressedStays(t: InvoiceTables, n: InvoiceTables, e: Callback)
    requires TablesLater(t, n) && Addressed(t, e)
    ensures Addressed(n, e)
  {
    assert AttemptMoves(t, n, e.attempt) && RedAttemptMoves(t, n, e.attempt);
  }

  lemma InertStays(t: InvoiceTables, n: InvoiceTables, e: Callback)
    requires TablesLater(t, n) && Inert(t, e)
    ensures Inert(n, e)
  {
    if e.redFlush {
      assert RedAttemptMoves(t, n, e.attempt) && InvoiceMoves(t, n, t.redAttempts[e.attempt].invoice);
    } else {
      assert AttemptMoves(t, n, e.attempt);
    }
  }

  lemma ReportedIsInert(b: Books, e: Callback, id: Id)
    requires !e.redFlush && PendingIfLive(b.inv, e.attempt)
    ensures Inert(Reported(b, e, id).inv, e)
  {
    hide IssueLines, FinalizeAll, MoveRequest;
    match e.kind
    case ReportUnknown => assert ReportOn(b, e.attempt, e.sequence, AttemptUnknown, IssueUnknown).inv.attempts[e.attempt].sequence == e.sequence;
    case ReportFailed => assert ReportOn(b, e.attempt, e.sequence, AttemptFailed, IssueFailed).inv.attempts[e.attempt].sequence == e.sequence;
    case ReportIssued => assert IssueInvoice(b, e.attempt, e.sequence, id).inv.attempts[e.attempt].sequence == e.sequence;
  }

  lemma HandledIssueIsInert(b: Books, e: Callback, id: Id)
    requires !e.redFlush && PendingIfLive(b.inv, e.attempt) && ApplyIssueCallback(b, e, id).Done?
    ensures Inert(ApplyIssueCallback(b, e, id).value.books.inv, e)
  {
    hide ApplyIssueCallback, Reported;
    IssueCallbackResult(b, e, id);
    ReportedIsInert(b, e, id);
  }

  /** An accepted report was addressed to its attempt. */
  lemma HandledIsAddressed(b: Books, e: Callback, id: Id)
    requires ApplyCallback(b, e, id).Done? && e.event !in b.inv.inbox
    ensures Addressed(b.inv, e)
  {
  }

  lemma HandledIsSound(b: Books, e: Callback, id: Id)
    requires InvoiceInv(b.inv, b.ar) && ApplyCallback(b, e, id).Done? && e.event !in b.inv.inbox
    ensures var n := ApplyCallback(b, e, id).value.inv; Addressed(n, e) && (!e.redFlush ==> Inert(n, e))
  {
    HandledIsAddressed(b, e, id);
    CallbackLater(b, e, id);
    AddressedStays(b.inv, ApplyCallback(b, e, id).value.inv, e);
    if !e.redFlush {
      assert AttemptSound(b.inv, e.attempt);
      HandledIssueIsInert(b, e, id);
    }
  }

  lemma InvoiceStepKeepsInbox(b: Books, c: InvoiceCmd)
    requires InvoiceInv(b.inv, b.ar) && InboxSound(b.inv) && InvoiceTransaction(b, c).Done?
    ensures InboxSound(InvoiceTransaction(b, c).value.inv)
  {
    var t, n := b.inv, InvoiceTransaction(b, c).value.inv;
    InvoiceStepLater(b, c);
    InvoiceStepFrame(b, c);
    forall k | k in n.inbox ensures RowSound(n, k) {
      if k in t.inbox {
        assert InboxStays(t, n, k) && RowSound(t, k);
        AddressedStays(t, n, t.inbox[k].callback);
        if !t.inbox[k].callback.redFlush { InertStays(t, n, t.inbox[k].callback); }
      } else {
        HandledIsSound(b, c.callback, c.invoice);
      }
    }
  }

  lemma StepKeepsInbox(b: Books, c: Cmd)
    requires Inv(b) && InboxSound(b.inv)
    ensures InboxSound(Step(b, c).inv)
  {
    if Transaction(b, c).Done? {
      match c
      case OfCash(x) => CashStepFrame(b, x);
      case OfInvoices(x) => InvoiceStepKeepsInbox(b, x);
      case OfContracts(x) => ContractStepLater(b, x);
    }
  }

  /** In every run, every filed report carries the identity of its attempt, and no filed issue
      report can move its attempt again. */
  lemma {:induction false} InboxAlwaysSound(run: Run, k: nat)
    requires IsRun(run) && k < |run.states|
    ensures InboxSound(run.states[k].inv)
  {
    hide Transaction, Inv;
    if k > 0 {
      InboxAlwaysSound(run, k - 1);
      RunSound(run, k - 1);
      assert Follows(run, k - 1);
      StepKeepsInbox(run.states[k - 1], run.cmds[k - 1]);
    }
  }

  // ---------- issue reports

  /** The one thing a repeated issue report can still change: the sequence of an abandoned attempt. */
  predicate RaisesSequence(t: InvoiceTables, e: Callback) {
    && e.event !in t.inbox && e.kind != ReportFailed
    && e.attempt in t.attempts && t.attempts[e.attempt].sequence < e.sequence
    && t.attempts[e.attempt].status == AttemptAbandoned
    && t.attempts[e.attempt].request in t.requests
    && t.requests[t.attempts[e.attempt].request].status !in {Issued, IssueFailed}
  }

  /** Nothing differs but the inbox and the attempts. */
  predicate OnlyAttempts(b: Books, n: Books) {
    n == b.(inv := b.inv.(inbox := n.inv.inbox, attempts := n.inv.attempts))
  }

  predicate OnlyFiled(b: Books, n: Books) {
    n == b.(inv := b.inv.(inbox := n.inv.inbox))
  }

  lemma InertIssueResult(b: Books, e: Callback, id: Id)
    requires !e.redFlush && e.event !in b.inv.inbox && Inert(b.inv, e) && Addressed(b.inv, e) && PendingIfLive(b.inv, e.attempt)
    ensures ApplyIssueCallback(b, e, id).Done?
    ensures ApplyIssueCallback(b, e, id).value.books == if RaisesSequence(b.inv, e) then RaiseSequence(b, e.attempt, e.sequence) else b
  {
  }

  lemma InertIssueExactly(b: Books, e: Callback, id: Id)
    requires InvoiceInv(b.inv, b.ar) && !e.redFlush && Inert(b.inv, e) && Addressed(b.inv, e)
    ensures var r := ApplyCallback(b, e, id); var n := if r.Done? then r.value else b;
      OnlyAttempts(b, n) && (n.inv.attempts != b.inv.attempts <==> RaisesSequence(b.inv, e))
  {
    if e.event !in b.inv.inbox {
      assert AttemptSound(b.inv, e.attempt);
      InertIssueResult(b, e, id);
      if RaisesSequence(b.inv, e) {
        assert RaiseSequence(b, e.attempt, e.sequence).inv.attempts[e.attempt].sequence != b.inv.attempts[e.attempt].sequence;
      }
    }
  }

  lemma CallbackStep(b: Books, e: Callback, id: Id)
    ensures Step(b, OfInvoices(CallbackCmd(e, id))) == if ApplyCallback(b, e, id).Done? then ApplyCallback(b, e, id).value else b
  {
  }

  /** Redelivery of an issue report that was filed before, under its own or a new event id and at any
      later point of any run: requests, invoices, red flushes and balances stay, and the attempts stay
      if and only if the report does not raise the sequence of an abandoned one. */
  lemma RedeliveredIssueReport(run: Run, k: nat, known: Id, event: Id, id: Id)
    requires IsRun(run) && k < |run.states| && known in run.states[k].inv.inbox && !run.states[k].inv.inbox[known].callback.redFlush
    ensures var b := run.states[k]; var e := b.inv.inbox[known].callback.(event := event);
      var n := Step(b, OfInvoices(CallbackCmd(e, id)));
      OnlyAttempts(b, n) && (n.inv.attempts != b.inv.attempts <==> RaisesSequence(b.inv, e))
  {
    hide Transaction;
    var b := run.states[k];
    var e := b.inv.inbox[known].callback.(event := event);
    InboxAlwaysSound(run, k);
    RunSound(run, k);
    assert RowSound(b.inv, known);
    InertIssueExactly(b, e, id);
    CallbackStep(b, e, id);
  }

  // ---------- red-flush reports

  predicate TerminalRed(s: RedStatus) {
    s in {RedFlushed, RedFailed, RedRejected}
  }

  /** The report names its own red-flush request, or none. */
  predicate NamesOwn(t: InvoiceTables, e: Callback) {
    e.redFlush && e.attempt in t.redAttempts ==> e.red.None? || e.red.value == t.redAttempts[e.attempt].red
  }

  /** Exactly one red-flush request row changes, and it is this one. */
  predicate WritesOnly(t: InvoiceTables, n: InvoiceTables, f: Id) {
    f in t.redRequests && f in n.redRequests && n.redRequests == t.redRequests[f := n.redRequests[f]]
    && n.redRequests[f] != t.redRequests[f]
  }

  /** What an applied red-flush report makes of the books. */
  lemma AppliedRedResult(b: Books, e: Callback, id: Id)
    requires ApplyRedCallback(b, e, id).Done? && ApplyRedCallback(b, e, id).value.verdict == Applied
    ensures var named, n := NamedRed(b.inv, e), ApplyRedCallback(b, e, id).value.books;
      match e.kind
      case ReportUnknown => n == RedReportOn(b, e.attempt, named, e.sequence, AttemptUnknown, RedUnknown)
      case ReportFailed => n == RedReportOn(b, e.attempt, named, e.sequence, AttemptFailed, RedFailed)
      case ReportIssued => named in b.inv.redRequests && id !in b.inv.invoices && n == FlushInvoice(b, e.attempt, named, e.sequence, id)
  {
  }

  lemma AppliedRedRows(b: Books, e: Callback, id: Id)
    requires ApplyRedCallback(b, e, id).Done? && ApplyRedCallback(b, e, id).value.verdict == Applied
    ensures var t, n := b.inv, ApplyRedCallback(b, e, id).value.books.inv; var named := NamedRed(t, e);
      && t.redAttempts[e.attempt].red in t.redRequests && !TerminalRed(t.redRequests[t.redAttempts[e.attempt].red].status)
      && (named !in t.redRequests ==> n.redRequests == t.redRequests)
      && (named in t.redRequests ==> WritesOnly(t, n, named))
  {
    var t, n, named := b.inv, ApplyRedCallback(b, e, id).value.books, NamedRed(b.inv, e);
    AppliedRedResult(b, e, id);
    if named in t.redRequests { assert n.inv.redRequests[named].version != t.redRequests[named].version; }
  }

  lemma RedRowsKept(b: Books, e: Callback, id: Id)
    requires ApplyRedCallback(b, e, id).Done?
    ensures ApplyRedCallback(b, e, id).value.books.inv.redRequests.Keys == b.inv.redRequests.Keys
  {
    if ApplyRedCallback(b, e, id).value.books != b { AppliedRedRows(b, e, id); }
  }

  /** An applied report writes the request of its attempt, and no other, if and only if it names that
      one or none: the code does not compare the two. */
  lemma ReportWritesOwnIff(b: Books, e: Callback, id: Id)
    requires e.redFlush && ApplyRedCallback(b, e, id).Done? && ApplyRedCallback(b, e, id).value.verdict == Applied
    ensures WritesOnly(b.inv, ApplyRedCallback(b, e, id).value.books.inv, b.inv.redAttempts[e.attempt].red) <==> NamesOwn(b.inv, e)
  {
    AppliedRedRows(b, e, id);
  }

  /** An applied report leaves every finished red-flush request alone if and only if the one it names
      is not finished. */
  lemma ReportKeepsTerminalIff(b: Books, e: Callback, id: Id)
    requires e.redFlush && ApplyRedCallback(b, e, id).Done? && ApplyRedCallback(b, e, id).value.verdict == Applied
    ensures var t, n := b.inv, ApplyRedCallback(b, e, id).value.books.inv; var named := NamedRed(t, e);
      (forall f :: f in t.redRequests && TerminalRed(t.redRequests[f].status) ==> f in n.redRequests && n.redRequests[f] == t.redRequests[f])
      <==> !(named in t.redRequests && TerminalRed(t.redRequests[named].status))
  {
    AppliedRedRows(b, e, id);
  }

  // ---------- runs whose reports name their own request

  /** While reports name their own request, a finished request has a finished attempt or original. */
  predicate RedAgrees(t: InvoiceTables, f: Id)
    requires f in t.redRequests
  {
    var row := t.redRequests[f];
    && (row.status == RedFlushed ==> row.invoice in t.invoices && t.invoices[row.invoice].status == InvoiceRedFlushed)
    && (row.status == RedFailed ==> forall x :: x in t.redAttempts && t.redAttempts[x].red == f ==> !Live(t.redAttempts[x].status))
  }

  predicate RedRowInert(t: InvoiceTables, k: Id)
    requires k in t.inbox
  {
    t.inbox[k].callback.redFlush ==> Inert(t, t.inbox[k].callback)
  }

  ghost predicate RedSound(t: InvoiceTables) {
    && (forall f {:trigger RedAgrees(t, f)} :: f in t.redRequests ==> RedAgrees(t, f))
    && (forall k {:trigger RedRowInert(t, k)} :: k in t.inbox ==> RedRowInert(t, k))
  }

  /** A request whose row and attempts are not touched. */
  lemma UntouchedAgrees(t: InvoiceTables, n: InvoiceTables, f: Id)
    requires TablesLater(t, n) && f in t.redRequests && RedAgrees(t, f) && f in n.redRequests && n.redRequests[f] == t.redRequests[f]
    requires forall x :: x in n.redAttempts && n.redAttempts[x].red == f ==> x in t.redAttempts
    ensures RedAgrees(n, f)
  {
    assert InvoiceMoves(t, n, t.redRequests[f].invoice);
    forall x | x in n.redAttempts && n.redAttempts[x].red == f ensures RedAttemptMoves(t, n, x) {}
  }

  lemma OwnReportAgrees(b: Books, e: Callback, id: Id, f: Id)
    requires InvoiceInv(b.inv, b.ar) && e.redFlush && NamesOwn(b.inv, e) && f in b.inv.redRequests && RedAgrees(b.inv, f)
    requires ApplyRedCallback(b, e, id).Done?
    ensures var n := ApplyRedCallback(b, e, id).value.books.inv; f in n.redRequests && RedAgrees(n, f)
  {
    var t, n := b.inv, ApplyRedCallback(b, e, id).value.books;
    assert RedAttemptSound(t, e.attempt) && InvoiceSound(t, t.redAttempts[e.attempt].invoice);
    RedCallbackLater(b, e, id);
    if n != b {
      AppliedRedRows(b, e, id);
      if f == t.redAttempts[e.attempt].red {
        OwnRowAgrees(b, e, id);
      } else {
        UntouchedAgrees(t, n.inv, f);
      }
    }
  }

  lemma OwnRowAgrees(b: Books, e: Callback, id: Id)
    requires e.redFlush && NamesOwn(b.inv, e) && ApplyRedCallback(b, e, id).Done? && ApplyRedCallback(b, e, id).value.verdict == Applied
    requires RedAttemptSound(b.inv, e.attempt)
    ensures var n := ApplyRedCallback(b, e, id).value.books.inv; var f := b.inv.redAttempts[e.attempt].red;
      f in n.redRequests && RedAgrees(n, f)
  {
    var n, f := ApplyRedCallback(b, e, id).value.books, b.inv.redAttempts[e.attempt].red;
    AppliedRedResult(b, e, id);
    match e.kind
    case ReportUnknown => assert n.inv.redRequests[f].status == RedUnknown;
    case ReportFailed => assert n.inv.redAttempts[e.attempt].status == AttemptFailed;
    case ReportIssued => assert n.inv.invoices[n.inv.redRequests[f].invoice].status == InvoiceRedFlushed;
  }

  /** While finished requests agree with their attempts, every handled red-flush report is inert. */
  lemma HandledRedIsInert(b: Books, e: Callback, id: Id)
    requires e.redFlush && ApplyRedCallback(b, e, id).Done? && RedAttemptSound(b.inv, e.attempt)
    requires RedAgrees(b.inv, b.inv.redAttempts[e.attempt].red)
    ensures Inert(ApplyRedCallback(b, e, id).value.books.inv, e)
  {
    var x, n := b.inv.redAttempts[e.attempt], ApplyRedCallback(b, e, id).value.books;
    if n != b {
      AppliedRedResult(b, e, id);
      assert n.inv.redAttempts[e.attempt].sequence == e.sequence;
    }
  }

  lemma CallbackKeepsRed(b: Books, e: Callback, id: Id)
    requires InvoiceInv(b.inv, b.ar) && RedSound(b.inv) && NamesOwn(b.inv, e) && ApplyCallback(b, e, id).Done?
    ensures RedSound(ApplyCallback(b, e, id).value.inv)
  {
    var t, n := b.inv, ApplyCallback(b, e, id).value.inv;
    if e.event !in t.inbox {
      CallbackLater(b, e, id);
      InvoiceStepFrame(b, CallbackCmd(e, id));
      if e.redFlush {
        assert RedAttemptSound(t, e.attempt) && RedAgrees(t, t.redAttempts[e.attempt].red);
        HandledRedIsInert(b, e, id);
        RedRowsKept(b, e, id);
        forall f | f in n.redRequests ensures RedAgrees(n, f) {
          assert RedAgrees(t, f);
          OwnReportAgrees(b, e, id, f);
        }
      } else {
        assert AttemptSound(t, e.attempt);
        IssueLeavesRed(b, e, id);
        forall f | f in n.redRequests ensures RedAgrees(n, f) {
          assert RedAgrees(t, f);
          UntouchedAgrees(t, n, f);
        }
      }
      forall k | k in n.inbox ensures RedRowInert(n, k) {
        if k in t.inbox {
          assert InboxStays(t, n, k) && RedRowInert(t, k);
          if t.inbox[k].callback.redFlush { InertStays(t, n, t.inbox[k].callback); }
        }
      }
    }
  }

  lemma IssueLeavesRed(b: Books, e: Callback, id: Id)
    requires PendingIfLive(b.inv, e.attempt) && ApplyIssueCallback(b, e, id).Done?
    ensures var n := ApplyIssueCallback(b, e, id).value.books.inv; n.redRequests == b.inv.redRequests && n.redAttempts == b.inv.redAttempts
  {
    hide ApplyIssueCallback, Reported;
    IssueCallbackResult(b, e, id);
    ReportedLeavesRed(b, e, id);
  }

  lemma ReportedLeavesRed(b: Books, e: Callback, id: Id)
    requires PendingIfLive(b.inv, e.attempt)
    ensures var n := Reported(b, e, id).inv; n.redRequests == b.inv.redRequests && n.redAttempts == b.inv.redAttempts
  {
    hide ReportOn, IssueInvoice;
    ReportLeavesRed(b, e.attempt, e.sequence, AttemptUnknown, IssueUnknown);
    ReportLeavesRed(b, e.attempt, e.sequence, AttemptFailed, IssueFailed);
    IssuingLeavesRed(b, e.attempt, e.sequence, id);
  }

  lemma ReportLeavesRed(b: Books, a: Id, sequence: nat, attempt: AttemptStatus, request: RequestStatus)
    requires PendingIfLive(b.inv, a)
    ensures SameRed(b.inv, ReportOn(b, a, sequence, attempt, request).inv)
  {
    hide MoveRequest;
  }

  lemma IssuingLeavesRed(b: Books, a: Id, sequence: nat, id: Id)
    requires PendingIfLive(b.inv, a)
    ensures SameRed(b.inv, IssueInvoice(b, a, sequence, id).inv)
  {
    hide IssueLines, FinalizeAll;
  }

  /** Red tables after a step that is not a report: at most one row is added or reviewed. */
  ghost predicate RedFrame(t: InvoiceTables, n: InvoiceTables) {
    forall f {:trigger RedRowKept(t, n, f)} :: f in n.redRequests ==> RedRowKept(t, n, f)
  }

  predicate RedRowKept(t: InvoiceTables, n: InvoiceTables, f: Id)
    requires f in n.redRequests
  {
    || n.redRequests[f].status in {RedSubmitted, RedPending, RedRejected}
    || (f in t.redRequests && n.redRequests[f] == t.redRequests[f]
        && forall x :: x in n.redAttempts && n.redAttempts[x].red == f ==> x in t.redAttempts)
  }

  predicate SameRed(t: InvoiceTables, n: InvoiceTables) {
    n.redRequests == t.redRequests && n.redAttempts == t.redAttempts
  }

  lemma CreateAttemptLeavesRed(b: Books, q: Id, i: AttemptInput)
    requires q in b.inv.requests && CreateAttempt(b, q, i).Done?
    ensures SameRed(b.inv, CreateAttempt(b, q, i).value.inv)
  {
  }

  lemma ApprovalLeavesRed(b: Books, c: InvoiceCmd)
    requires InvoiceTransaction(b, c).Done? && (c.ApproveCmd? || c.ReviewSpecialCmd? || c.RejectCmd?)
    ensures SameRed(b.inv, InvoiceTransaction(b, c).value.inv)
  {
    hide CreateAttempt;
    if !c.RejectCmd? && c.request in b.inv.requests && CreateAttempt(b, c.request, c.attempt).Done? {
      CreateAttemptLeavesRed(b, c.request, c.attempt);
    }
  }

  lemma EndingLeavesRed(b: Books, c: InvoiceCmd)
    requires InvoiceTransaction(b, c).Done? && (c.CancelCmd? || c.RecoverCmd? || c.RegisterManualCmd?)
    ensures SameRed(b.inv, InvoiceTransaction(b, c).value.inv)
  {
    if c.CancelCmd? { CancelLeavesRed(b, c.request, c.version, c.user); }
  }

  lemma CancelLeavesRed(b: Books, q: Id, version: int, user: Id)
    requires CancelRequest(b, q, version, user).Done?
    ensures SameRed(b.inv, CancelRequest(b, q, version, user).value.inv)
  {
  }

  lemma OtherStepsFrame(b: Books, c: InvoiceCmd)
    requires InvoiceTransaction(b, c).Done? && !c.CallbackCmd? && !c.ReviewRedFlushCmd? && !c.RequestRedFlushCmd? && !c.MoveCommandCmd?
    ensures SameRed(b.inv, InvoiceTransaction(b, c).value.inv)
  {
    match c
    case CreateRequestCmd(_) =>
    case RetryOutboxCmd(_) =>
    case RetryDeadLetterCmd(_) =>
    case _ => if c.ApproveCmd? || c.ReviewSpecialCmd? || c.RejectCmd? { ApprovalLeavesRed(b, c); } else { EndingLeavesRed(b, c); }
  }

  lemma MoveCommandFrame(b: Books, c: Id, to: CommandStatus)
    requires MoveCommand(b, c, to).Done?
    ensures var n := MoveCommand(b, c, to).value.inv; n.redRequests == b.inv.redRequests && n.redAttempts.Keys == b.inv.redAttempts.Keys
  {
    hide MayMove, Accept;
  }

  lemma ReviewFrameRed(b: Books, id: Id, version: int, user: Id, approve: bool, i: AttemptInput)
    requires ReviewRedFlush(b, id, version, user, approve, i).Done?
    ensures RedFrame(b.inv, ReviewRedFlush(b, id, version, user, approve, i).value.inv)
  {
  }

  lemma InvoiceStepRedFrame(b: Books, c: InvoiceCmd)
    requires InvoiceTransaction(b, c).Done? && !c.CallbackCmd?
    ensures RedFrame(b.inv, InvoiceTransaction(b, c).value.inv)
  {
    match c
    case ReviewRedFlushCmd(id, version, user, approve, i) => ReviewFrameRed(b, id, version, user, approve, i);
    case RequestRedFlushCmd(id, invoice, user) =>
    case MoveCommandCmd(k, to) => MoveCommandFrame(b, k, to);
    case _ => OtherStepsFrame(b, c);
  }

  lemma OtherStepKeepsRed(b: Books, c: InvoiceCmd)
    requires InvoiceInv(b.inv, b.ar) && RedSound(b.inv) && InvoiceTransaction(b, c).Done? && !c.CallbackCmd?
    ensures RedSound(InvoiceTransaction(b, c).value.inv)
  {
    var t, n := b.inv, InvoiceTransaction(b, c).value.inv;
    InvoiceStepLater(b, c);
    InvoiceStepFrame(b, c);
    InvoiceStepRedFrame(b, c);
    forall f | f in n.redRequests ensures RedAgrees(n, f) {
      assert RedRowKept(t, n, f);
      if n.redRequests[f].status !in {RedSubmitted, RedPending, RedRejected} {
        assert RedAgrees(t, f);
        UntouchedAgrees(t, n, f);
      }
    }
    forall k | k in n.inbox ensures RedRowInert(n, k) {
      assert InboxStays(t, n, k) && RedRowInert(t, k);
      if t.inbox[k].callback.redFlush { InertStays(t, n, t.inbox[k].callback); }
    }
  }

  /** Only red-flush reports are restricted. */
  predicate OwnCmd(b: Books, c: Cmd) {
    c.OfInvoices? && c.inv.CallbackCmd? ==> NamesOwn(b.inv, c.inv.callback)
  }

  lemma StepKeepsRed(b: Books, c: Cmd)
    requires Inv(b) && RedSound(b.inv) && OwnCmd(b, c)
    ensures RedSound(Step(b, c).inv)
  {
    if Transaction(b, c).Done? {
      match c
      case OfCash(x) => CashStepFrame(b, x);
      case OfInvoices(x) => if x.CallbackCmd? { CallbackKeepsRed(b, x.callback, x.invoice); } else { OtherStepKeepsRed(b, x); }
      case OfContracts(x) => ContractStepLater(b, x);
    }
  }

  ghost predicate OwnAt(run: Run, j: nat)
    requires IsRun(run) && j < |run.cmds|
  {
    OwnCmd(run.states[j], run.cmds[j])
  }

  /** From the i-th to the k-th state every red-flush report names its own request or none. */
  ghost predicate OwnBetween(run: Run, i: nat, k: nat)
    requires IsRun(run) && k < |run.states|
  {
    forall j {:trigger OwnAt(run, j)} :: i <= j < k ==> OwnAt(run, j)
  }

  lemma {:induction false} RedAlwaysSound(run: Run, k: nat)
    requires IsRun(run) && k < |run.states| && OwnBetween(run, 0, k)
    ensures RedSound(run.states[k].inv)
  {
    hide Transaction, Inv;
    if k > 0 {
      assert OwnAt(run, k - 1);
      RedAlwaysSound(run, k - 1);
      RunSound(run, k - 1);
      assert Follows(run, k - 1);
      StepKeepsRed(run.states[k - 1], run.cmds[k - 1]);
    }
  }

  /** In runs whose red-flush reports name their own request, a finished red flush stays as it is. */
  lemma {:induction false} FinishedRedStays(run: Run, i: nat, k: nat, f: Id)
    requires IsRun(run) && i <= k < |run.states| && OwnBetween(run, i, k)
    requires f in run.states[i].inv.redRequests && TerminalRed(run.states[i].inv.redRequests[f].status)
    ensures f in run.states[k].inv.redRequests && run.states[k].inv.redRequests[f] == run.states[i].inv.redRequests[f]
    decreases k
  {
    hide Transaction, Inv;
    if i < k {
      assert OwnAt(run, k - 1);
      FinishedRedStays(run, i, k - 1, f);
      RunSound(run, k - 1);
      assert Follows(run, k - 1);
      StepKeepsFinished(run.states[k - 1], run.cmds[k - 1], f);
    }
  }

  lemma StepKeepsFinished(b: Books, c: Cmd, f: Id)
    requires Inv(b) && OwnCmd(b, c) && f in b.inv.redRequests && TerminalRed(b.inv.redRequests[f].status)
    ensures f in Step(b, c).inv.redRequests && Step(b, c).inv.redRequests[f] == b.inv.redRequests[f]
  {
    if Transaction(b, c).Done? {
      match c
      case OfCash(x) => CashStepFrame(b, x);
      case OfInvoices(x) => if x.CallbackCmd? { CallbackKeepsFinished(b, x.callback, x.invoice, f); } else { InvoiceStepKeepsFinished(b, x, f); }
      case OfContracts(x) => ContractStepLater(b, x);
    }
  }

  lemma CallbackKeepsFinished(b: Books, e: Callback, id: Id, f: Id)
    requires InvoiceInv(b.inv, b.ar) && NamesOwn(b.inv, e) && f in b.inv.redRequests && TerminalRed(b.inv.redRequests[f].status)
    requires ApplyCallback(b, e, id).Done?
    ensures var n := ApplyCallback(b, e, id).value.inv; f in n.redRequests && n.redRequests[f] == b.inv.redRequests[f]
  {
    if e.event !in b.inv.inbox {
      if e.redFlush {
        if ApplyRedCallback(b, e, id).value.books != b { AppliedRedRows(b, e, id); }
      } else {
        assert AttemptSound(b.inv, e.attempt);
        IssueLeavesRed(b, e, id);
      }
    }
  }

  lemma InvoiceStepKeepsFinished(b: Books, c: InvoiceCmd, f: Id)
    requires InvoiceTransaction(b, c).Done? && !c.CallbackCmd? && f in b.inv.redRequests && TerminalRed(b.inv.redRequests[f].status)
    ensures var n := InvoiceTransaction(b, c).value.inv; f in n.redRequests && n.redRequests[f] == b.inv.redRequests[f]
  {
    hide CreateRequest, ApproveRequest, RejectRequest, ReviewSpecial, CancelRequest, RecoverRequest, RegisterManual,
      MoveCommand, RetryOutbox, RetryDeadLetter, RequestRedFlush, ReviewRedFlush;
    match c
    case ReviewRedFlushCmd(id, version, user, approve, i) => ReviewKeepsFinished(b, id, version, user, approve, i, f);
    case RequestRedFlushCmd(id, invoice, user) => AskingKeepsFinished(b, id, invoice, user, f);
    case MoveCommandCmd(k, to) => MoveCommandFrame(b, k, to);
    case _ => OtherStepsFrame(b, c);
  }

  lemma ReviewKeepsFinished(b: Books, id: Id, version: int, user: Id, approve: bool, i: AttemptInput, f: Id)
    requires ReviewRedFlush(b, id, version, user, approve, i).Done? && f in b.inv.redRequests && TerminalRed(b.inv.redRequests[f].status)
    ensures var n := ReviewRedFlush(b, id, version, user, approve, i).value.inv; f in n.redRequests && n.redRequests[f] == b.inv.redRequests[f]
  {
  }

  lemma AskingKeepsFinished(b: Books, id: Id, invoice: Id, user: Id, f: Id)
    requires RequestRedFlush(b, id, invoice, user).Done? && f in b.inv.redRequests
    ensures var n := RequestRedFlush(b, id, invoice, user).value.inv; f in n.redRequests && n.redRequests[f] == b.inv.redRequests[f]
  {
  }

  // ---------- redelivered red-flush reports

  /** The guards a red-flush report has to pass to be applied. */
  predicate RedAccepts(b: Books, e: Callback, id: Id) {
    var t := b.inv;
    && e.event !in t.inbox && e.attempt in t.redAttempts
    && var x := t.redAttempts[e.attempt];
    && x.red in t.redRequests && x.invoice in t.invoices && t.invoices[x.invoice].request in t.requests
    && x.sequence < e.sequence && Live(x.status)
    && t.redRequests[x.red].status in {RedPending, RedUnknown} && t.invoices[x.invoice].status == InvoiceIssued
    && var o := t.invoices[x.invoice]; var q := t.requests[o.request];
    && match e.kind
       case ReportUnknown => true
       case ReportFailed => e.failureCode
       case ReportIssued =>
         && HeaderOf(e.bill, o.bill, false) && e.bill.lines == q.bill.lines && id !in t.invoices
         && AllPresent(b.ar, q.lines) && MayFlush(t, NamedRed(t, e), q.lines)
  }

  lemma AddressedRedResult(b: Books, e: Callback, id: Id)
    requires InvoiceInv(b.inv, b.ar) && e.redFlush && Addressed(b.inv, e) && e.event !in b.inv.inbox
    ensures RedAccepts(b, e, id) <==> ApplyRedCallback(b, e, id).Done? && ApplyRedCallback(b, e, id).value.verdict == Applied
    ensures !RedAccepts(b, e, id) && ApplyRedCallback(b, e, id).Done? ==> ApplyRedCallback(b, e, id).value.books == b
  {
    assert RedAttemptSound(b.inv, e.attempt) && InvoiceSound(b.inv, b.inv.redAttempts[e.attempt].invoice);
  }

  lemma AddressedRedExactly(b: Books, e: Callback, id: Id)
    requires InvoiceInv(b.inv, b.ar) && e.redFlush && Addressed(b.inv, e)
    ensures var r := ApplyCallback(b, e, id); var n := if r.Done? then r.value else b;
      OnlyFiled(b, n) <==> !RedAccepts(b, e, id)
  {
    if e.event !in b.inv.inbox {
      AddressedRedResult(b, e, id);
      if RedAccepts(b, e, id) {
        AppliedRedResult(b, e, id);
        assert ApplyRedCallback(b, e, id).value.books.inv.redAttempts[e.attempt].sequence == e.sequence;
      }
    }
  }

  lemma InertIsNotAccepted(b: Books, e: Callback, id: Id)
    requires e.redFlush && Inert(b.inv, e)
    ensures !RedAccepts(b, e, id)
  {
  }

  /** Redelivery of a red-flush report that was filed before, at any later point of any run: it is at
      most filed again, if and only if it does not pass the guards of its attempt; and it cannot pass
      them in a run whose reports named their own request. */
  lemma RedeliveredRedReport(run: Run, k: nat, known: Id, event: Id, id: Id)
    requires IsRun(run) && k < |run.states| && known in run.states[k].inv.inbox && run.states[k].inv.inbox[known].callback.redFlush
    ensures var b := run.states[k]; var e := b.inv.inbox[known].callback.(event := event);
      && (OnlyFiled(b, Step(b, OfInvoices(CallbackCmd(e, id)))) <==> !RedAccepts(b, e, id))
      && (OwnBetween(run, 0, k) ==> !RedAccepts(b, e, id))
  {
    hide Transaction;
    var b := run.states[k];
    var e := b.inv.inbox[known].callback.(event := event);
    InboxAlwaysSound(run, k);
    RunSound(run, k);
    assert RowSound(b.inv, known);
    AddressedRedExactly(b, e, id);
    CallbackStep(b, e, id);
    if OwnBetween(run, 0, k) {
      RedAlwaysSound(run, k);
      assert RedRowInert(b.inv, known);
      InertIsNotAccepted(b, e, id);
    }
  }

  /** Any report at or below the sequence of its attempt is at most filed. */
  lemma StaleReportIsHarmless(b: Books, e: Callback, id: Id)
    requires Inv(b)
    requires if e.redFlush then e.attempt in b.inv.redAttempts && e.sequence <= b.inv.redAttempts[e.attempt].sequence
             else e.attempt in b.inv.attempts && e.sequence <= b.inv.attempts[e.attempt].sequence
    ensures OnlyFiled(b, Step(b, OfInvoices(CallbackCmd(e, id))))
  {
    hide Transaction;
    CallbackStep(b, e, id);
    if ApplyCallback(b, e, id).Done? && e.event !in b.inv.inbox {
      HandledIsAddressed(b, e, id);
      if e.redFlush {
        AddressedRedExactly(b, e, id);
      } else {
        InertIssueExactly(b, e, id);
        assert !RaisesSequence(b.inv, e);
      }
    }
  }
}
