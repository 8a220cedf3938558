/** Which face an issued invoice has: the reported bill with its lines when the tax channel issued it,
    the header alone when it was registered on paper. */
module InvoiceFaces {
  import opened Tables
  import opened Billing
  import opened Invoicing
  import opened InvoicingProofs
  import opened Settlement
  import opened Histories

  predicate IssuedFor(t: InvoiceTables, a: Id, q: Id) {
    a in t.attempts && t.attempts[a].request == q && t.attempts[a].status == AttemptIssued
  }

  function FaceBy(c: Channel, bill: Bill): Bill {
    match c
    case TaxAdapter => bill
    case Manual => HeaderOnly(bill)
  }

  /** The issued attempt of a request decides the face of its blue invoice. */
  ghost predicate FaceSound(t: InvoiceTables, i: Id) {
    i in t.invoices && t.invoices[i].redOf == None ==>
      && t.invoices[i].request in t.requests
      && (exists a :: IssuedFor(t, a, t.invoices[i].request))
      && forall a :: IssuedFor(t, a, t.invoices[i].request) ==>
           t.invoices[i].bill == FaceBy(t.attempts[a].channel, t.requests[t.invoices[i].request].bill)
  }

  predicate EndSound(t: InvoiceTables, a: Id) {
    a in t.attempts && t.attempts[a].status == AttemptIssued ==>
      t.attempts[a].request in t.requests && t.requests[t.attempts[a].request].status == Issued
  }

  ghost predicate Faces(t: InvoiceTables) {
    && (forall i {:trigger FaceSound(t, i)} :: FaceSound(t, i))
    && (forall a {:trigger EndSound(t, a)} :: EndSound(t, a))
  }

  // ---------- steps that issue nothing

  predicate NoNewIssue(t: InvoiceTables, n: InvoiceTables) {
    && (forall a :: a in n.attempts && n.attempts[a].status == AttemptIssued ==> a in t.attempts && t.attempts[a].status == AttemptIssued)
    && (forall i :: i in n.invoices && n.invoices[i].redOf == None ==> i in t.invoices)
  }

  lemma IssuedStays(t: InvoiceTables, n: InvoiceTables, a: Id, q: Id)
    requires TablesLater(t, n) && NoNewIssue(t, n)
    ensures IssuedFor(n, a, q) <==> IssuedFor(t, a, q)
    ensures IssuedFor(t, a, q) ==> n.attempts[a].channel == t.attempts[a].channel
  {
    assert AttemptMoves(t, n, a);
  }

  lemma QuietKeepsFaces(t: InvoiceTables, n: InvoiceTables)
    requires Faces(t) && TablesLater(t, n) && NoNewIssue(t, n)
    ensures Faces(n)
  {
    forall a ensures EndSound(n, a) {
      if a in n.attempts && n.attempts[a].status == AttemptIssued {
        assert EndSound(t, a) && AttemptMoves(t, n, a) && RequestMoves(t, n, t.attempts[a].request);
      }
    }
    forall i ensures FaceSound(n, i) {
      if i in n.invoices && n.invoices[i].redOf == None {
        assert InvoiceMoves(t, n, i) && FaceSound(t, i);
        var q := t.invoices[i].request;
        assert RequestMoves(t, n, q);
        forall a ensures (IssuedFor(n, a, q) <==> IssuedFor(t, a, q)) && (IssuedFor(t, a, q) ==> n.attempts[a].channel == t.attempts[a].channel) {
          IssuedStays(t, n, a, q);
        }
        var a :| IssuedFor(t, a, q);
        assert IssuedFor(n, a, q);
      }
    }
  }

  lemma AttemptIsQuiet(b: Books, q: Id, i: AttemptInput)
    requires q in b.inv.requests && CreateAttempt(b, q, i).Done?
    ensures NoNewIssue(b.inv, CreateAttempt(b, q, i).value.inv)
  {
  }

  lemma ReviewIsQuiet(b: Books, c: InvoiceCmd)
    requires InvoiceTransaction(b, c).Done? && (c.CreateRequestCmd? || c.ApproveCmd? || c.ReviewSpecialCmd? || c.RejectCmd? || c.RecoverCmd?)
    ensures NoNewIssue(b.inv, InvoiceTransaction(b, c).value.inv)
  {
    hide CreateAttempt, FirstRefusal, WellFormed, HasConflict;
    if (c.ApproveCmd? || c.ReviewSpecialCmd?) && c.request in b.inv.requests && CreateAttempt(b, c.request, c.attempt).Done? {
      AttemptIsQuiet(b, c.request, c.attempt);
    }
  }

  lemma CancelIsQuiet(b: Books, q: Id, version: int, user: Id)
    requires CancelRequest(b, q, version, user).Done?
    ensures NoNewIssue(b.inv, CancelRequest(b, q, version, user).value.inv)
  {
    hide HasConflict, LastAttempt;
  }

  lemma CommandIsQuiet(b: Books, c: InvoiceCmd)
    requires InvoiceTransaction(b, c).Done? && (c.MoveCommandCmd? || c.RetryOutboxCmd? || c.RetryDeadLetterCmd? || c.RequestRedFlushCmd?)
    ensures NoNewIssue(b.inv, InvoiceTransaction(b, c).value.inv)
  {
    hide MoveCommand, RetryableIssue, RetryableRed;
    if c.MoveCommandCmd? { MoveIsQuiet(b, c.command, c.to); }
  }

  lemma MoveIsQuiet(b: Books, c: Id, to: CommandStatus)
    requires MoveCommand(b, c, to).Done?
    ensures NoNewIssue(b.inv, MoveCommand(b, c, to).value.inv)
  {
    hide MayMove, AcceptRed;
  }

  lemma RedReviewIsQuiet(b: Books, id: Id, version: int, user: Id, approve: bool, i: AttemptInput)
    requires ReviewRedFlush(b, id, version, user, approve, i).Done?
    ensures NoNewIssue(b.inv, ReviewRedFlush(b, id, version, user, approve, i).value.inv)
  {
  }

  lemma RedReportIsQuiet(b: Books, e: Callback, id: Id)
    requires ApplyRedCallback(b, e, id).Done?
    ensures NoNewIssue(b.inv, ApplyRedCallback(b, e, id).value.books.inv)
  {
  }

  lemma OtherIssueIsQuiet(b: Books, e: Callback, id: Id)
    requires PendingIfLive(b.inv, e.attempt) && ApplyIssueCallback(b, e, id).Done? && !Issuing(b, e)
    ensures NoNewIssue(b.inv, ApplyIssueCallback(b, e, id).value.books.inv)
  {
    hide ApplyIssueCallback, ReportOn, IssueInvoice;
    IssueCallbackResult(b, e, id);
    ReportIsQuiet(b, e.attempt, e.sequence, AttemptUnknown, IssueUnknown);
    ReportIsQuiet(b, e.attempt, e.sequence, AttemptFailed, IssueFailed);
  }

  lemma ReportIsQuiet(b: Books, a: Id, sequence: nat, attempt: AttemptStatus, request: RequestStatus)
    requires a in b.inv.attempts && b.inv.attempts[a].request in b.inv.requests && attempt != AttemptIssued
    ensures NoNewIssue(b.inv, ReportOn(b, a, sequence, attempt, request).inv)
  {
    hide MoveRequest;
  }

  // ---------- the two steps that issue

  /** A fresh issued report on a live attempt. */
  predicate Issuing(b: Books, e: Callback) {
    e.attempt in b.inv.attempts && Live(b.inv.attempts[e.attempt].status) && b.inv.attempts[e.attempt].sequence < e.sequence && e.kind == ReportIssued
  }

  /** The request is issued: one new blue invoice, and its attempts that are issued now all have one channel. */
  ghost predicate IssuesBy(t: InvoiceTables, n: InvoiceTables, q: Id, id: Id, c: Channel) {
    && q in t.requests && q in n.requests && t.requests[q].status != Issued && n.requests[q].status == Issued && n.requests[q].bill == t.requests[q].bill
    && id !in t.invoices && n.invoices == t.invoices[id := Invoice(q, InvoiceIssued, FaceBy(c, t.requests[q].bill), None)]
    && (forall a :: a in n.attempts && n.attempts[a].status == AttemptIssued && n.attempts[a].request != q ==>
          a in t.attempts && t.attempts[a].status == AttemptIssued)
    && (exists a :: IssuedFor(n, a, q))
    && (forall a :: IssuedFor(n, a, q) ==> n.attempts[a].channel == c)
  }

  lemma IssueKeepsFaces(t: InvoiceTables, n: InvoiceTables, ar: Ledger, q: Id, id: Id, c: Channel)
    requires InvoiceInv(t, ar) && Faces(t) && TablesLater(t, n) && IssuesBy(t, n, q, id, c)
    ensures Faces(n)
  {
    forall a ensures EndSound(n, a) {
      if a in n.attempts && n.attempts[a].status == AttemptIssued && n.attempts[a].request != q {
        assert EndSound(t, a) && AttemptMoves(t, n, a) && RequestMoves(t, n, t.attempts[a].request);
      }
    }
    forall i ensures FaceSound(n, i) {
      if i in n.invoices && n.invoices[i].redOf == None && i != id { OldFaceStays(t, n, ar, q, id, c, i); }
    }
  }

  lemma OldFaceStays(t: InvoiceTables, n: InvoiceTables, ar: Ledger, q: Id, id: Id, c: Channel, i: Id)
    requires InvoiceInv(t, ar) && Faces(t) && TablesLater(t, n) && IssuesBy(t, n, q, id, c)
    requires i in t.invoices && t.invoices[i].redOf == None
    ensures FaceSound(n, i)
  {
    assert InvoiceSound(t, i) && FaceSound(t, i) && InvoiceMoves(t, n, i);
    var p := t.invoices[i].request;
    assert RequestMoves(t, n, p);
    forall a ensures (IssuedFor(n, a, p) <==> IssuedFor(t, a, p)) && (IssuedFor(t, a, p) ==> n.attempts[a].channel == t.attempts[a].channel) {
      assert AttemptMoves(t, n, a);
    }
    var a :| IssuedFor(t, a, p);
    assert IssuedFor(n, a, p);
  }

  lemma ManualIssues(b: Books, q: Id, id: Id)
    requires InvoiceInv(b.inv, b.ar) && Faces(b.inv) && RegisterManual(b, q, id).Done?
    ensures IssuesBy(b.inv, RegisterManual(b, q, id).value.inv, q, id, Manual)
  {
    var t, n := b.inv, RegisterManual(b, q, id).value.inv;
    var m :| m in t.attempts && ManualPendingFor(t, m, q);
    assert IssuedFor(n, m, q);
    forall a | IssuedFor(n, a, q) ensures n.attempts[a].channel == Manual { assert EndSound(t, a); }
  }

  lemma ReportIssues(b: Books, e: Callback, id: Id)
    requires InvoiceInv(b.inv, b.ar) && Faces(b.inv) && ApplyIssueCallback(b, e, id).Done? && Issuing(b, e)
    ensures IssuesBy(b.inv, ApplyIssueCallback(b, e, id).value.books.inv, b.inv.attempts[e.attempt].request, id, TaxAdapter)
    ensures ApplyIssueCallback(b, e, id).value.books.inv.invoices[id].bill == e.bill
  {
    var t, n, q := b.inv, ApplyIssueCallback(b, e, id).value.books.inv, b.inv.attempts[e.attempt].request;
    assert AttemptSound(t, e.attempt);
    assert n == IssueInvoice(b, e.attempt, e.sequence, id).inv;
    assert IssuedFor(n, e.attempt, q);
    forall a | IssuedFor(n, a, q) ensures n.attempts[a].channel == TaxAdapter { assert EndSound(t, a); }
  }

  // ---------- every run

  lemma CallbackKeepsFaces(b: Books, e: Callback, id: Id)
    requires InvoiceInv(b.inv, b.ar) && Faces(b.inv) && ApplyCallback(b, e, id).Done? && TablesLater(b.inv, ApplyCallback(b, e, id).value.inv)
    ensures Faces(ApplyCallback(b, e, id).value.inv)
  {
    hide ApplyIssueCallback, ApplyRedCallback;
    var t, n := b.inv, ApplyCallback(b, e, id).value.inv;
    if e.event !in t.inbox {
      if e.redFlush {
        RedReportIsQuiet(b, e, id);
        QuietKeepsFaces(t, n);
      } else {
        IssuedAttemptKnown(b, e, id);
        assert AttemptSound(t, e.attempt);
        if Issuing(b, e) {
          ReportIssues(b, e, id);
          SameIssue(t, ApplyIssueCallback(b, e, id).value.books.inv, n, t.attempts[e.attempt].request, id);
          IssueKeepsFaces(t, n, b.ar, t.attempts[e.attempt].request, id, TaxAdapter);
        } else {
          OtherIssueIsQuiet(b, e, id);
          QuietKeepsFaces(t, n);
        }
      }
    }
  }

  lemma IssuedAttemptKnown(b: Books, e: Callback, id: Id)
    requires ApplyIssueCallback(b, e, id).Done?
    ensures e.attempt in b.inv.attempts
  {
  }

  lemma SameIssue(t: InvoiceTables, m: InvoiceTables, n: InvoiceTables, q: Id, id: Id)
    requires IssuesBy(t, m, q, id, TaxAdapter) && n == m.(inbox := n.inbox)
    ensures IssuesBy(t, n, q, id, TaxAdapter)
  {
    var a :| IssuedFor(m, a, q);
    assert IssuedFor(n, a, q);
    forall a | IssuedFor(n, a, q) ensures n.attempts[a].channel == TaxAdapter { assert IssuedFor(m, a, q); }
  }

  lemma InvoiceStepKeepsFaces(b: Books, c: InvoiceCmd)
    requires InvoiceInv(b.inv, b.ar) && Faces(b.inv) && InvoiceTransaction(b, c).Done?
    ensures Faces(InvoiceTransaction(b, c).value.inv)
  {
    hide CreateRequest, ApproveRequest, RejectRequest, ReviewSpecial, CancelRequest, RecoverRequest, RegisterManual, ApplyCallback,
      MoveCommand, RetryOutbox, RetryDeadLetter, RequestRedFlush, ReviewRedFlush, TablesLater, Faces, InvoiceInv, NoNewIssue;
    var t, n := b.inv, InvoiceTransaction(b, c).value.inv;
    InvoiceStepLater(b, c);
    match c
    case RegisterManualCmd(q, id) => ManualIssues(b, q, id); IssueKeepsFaces(t, n, b.ar, q, id, Manual);
    case CallbackCmd(e, id) => CallbackKeepsFaces(b, e, id);
    case CancelCmd(q, version, user) => CancelIsQuiet(b, q, version, user); QuietKeepsFaces(t, n);
    case ReviewRedFlushCmd(id, version, user, approve, i) => RedReviewIsQuiet(b, id, version, user, approve, i); QuietKeepsFaces(t, n);
    case _ =>
      if c.MoveCommandCmd? || c.RetryOutboxCmd? || c.RetryDeadLetterCmd? || c.RequestRedFlushCmd? { CommandIsQuiet(b, c); } else { ReviewIsQuiet(b, c); }
      QuietKeepsFaces(t, n);
  }

  lemma StepKeepsFaces(b: Books, c: Cmd)
    requires Inv(b) && Faces(b.inv)
    ensures Faces(Step(b, c).inv)
  {
    hide CashTransaction, InvoiceTransaction, ContractTransaction, Faces;
    if Transaction(b, c).Done? {
      match c
      case OfCash(x) => CashStepFrame(b, x);
      case OfInvoices(x) => InvoiceStepKeepsFaces(b, x);
      case OfContracts(x) => ContractStepLater(b, x);
    }
  }

  lemma {:induction false} FacesAlwaysSound(run: Run, k: nat)
    requires IsRun(run) && k < |run.states|
    ensures Faces(run.states[k].inv)
  {
    hide Transaction, Inv;
    if k > 0 {
      FacesAlwaysSound(run, k - 1);
      RunSound(run, k - 1);
      assert Follows(run, k - 1);
      StepKeepsFaces(run.states[k - 1], run.cmds[k - 1]);
    }
  }

  /** In every run: a blue invoice that the tax channel issued has the bill of its request with all lines
      and passes the detail check; one without lines was registered on paper. */
  lemma ChannelDecidesFace(run: Run, k: nat, i: Id, a: Id)
    requires IsRun(run) && k < |run.states|
    requires var t := run.states[k].inv; i in t.invoices && t.invoices[i].redOf == None && IssuedFor(t, a, t.invoices[i].request)
    ensures var t := run.states[k].inv; var q := t.invoices[i].request;
      && q in t.requests
      && (t.attempts[a].channel == TaxAdapter ==> t.invoices[i].bill == t.requests[q].bill && Verifies(t.invoices[i].bill))
      && (t.attempts[a].channel == Manual <==> t.invoices[i].bill.lines == [])
  {
    hide Transaction;
    RunSound(run, k);
    FacesAlwaysSound(run, k);
    FaceOf(run.states[k], i, a);
  }

  lemma FaceOf(b: Books, i: Id, a: Id)
    requires InvoiceInv(b.inv, b.ar) && Faces(b.inv) && i in b.inv.invoices && b.inv.invoices[i].redOf == None && IssuedFor(b.inv, a, b.inv.invoices[i].request)
    ensures var t := b.inv; var q := t.invoices[i].request;
      && q in t.requests
      && (t.attempts[a].channel == TaxAdapter ==> t.invoices[i].bill == t.requests[q].bill && Verifies(t.invoices[i].bill))
      && (t.attempts[a].channel == Manual <==> t.invoices[i].bill.lines == [])
  {
    hide Verifies;
    var t := b.inv;
    assert FaceSound(t, i);
    assert RequestSound(t, b.ar, t.invoices[i].request);
    BlueVerifies(t.requests[t.invoices[i].request].bill);
  }

  /** Every blue invoice has an issued attempt that decides its face. */
  lemma BlueHasIssuedAttempt(run: Run, k: nat, i: Id)
    requires IsRun(run) && k < |run.states| && i in run.states[k].inv.invoices && run.states[k].inv.invoices[i].redOf == None
    ensures exists a :: IssuedFor(run.states[k].inv, a, run.states[k].inv.invoices[i].request)
  {
    hide Transaction;
    FacesAlwaysSound(run, k);
    assert FaceSound(run.states[k].inv, i);
  }
}
