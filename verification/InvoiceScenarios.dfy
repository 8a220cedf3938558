/** Concrete invoice runs from an empty store: paper invoices, red flushes that name another request,
    a red flush of a red invoice, and a report that comes after a cancellation. */
module InvoiceScenarios {
  import opened Tables
  import opened Totals
  import opened Billing
  import opened Invoicing
  import opened Settlement
  import opened Replays
  import opened Scenarios

  // requests Q, issue attempts A, invoices I, red-flush requests F, their attempts X, commands C, events E
  const Q1 := Id(40)
  const Q2 := Id(41)
  const A1 := Id(42)
  const A2 := Id(43)
  const I1 := Id(44)
  const I2 := Id(45)
  const F1 := Id(50)
  const F2 := Id(51)
  const F3 := Id(52)
  const X1 := Id(53)
  const X2 := Id(54)
  const X3 := Id(55)
  const C1 := Id(56)
  const C2 := Id(57)
  const C3 := Id(58)
  const I3 := Id(46)
  const I4 := Id(47)
  const E1 := Id(60)
  const E2 := Id(61)
  const E3 := Id(62)
  const E4 := Id(63)
  const PROVIDER := Id(8)

  const BILL := Bill(100, 0, 100, [Line(100, 0, 100)])
  const PAPER := HeaderOnly(BILL)

  const HELD := Reservation(100, 0, 0, Reserved, map[])
  const USED := Reservation(100, 100, 0, Invoiced, map[])
  const SUBMITTED := Request(SNAPSHOT, Submitted, 1, ALICE, false, BILL, map[R := HELD])
  const PENDING := SUBMITTED.(status := IssuePending, version := 2)
  const ISSUED := SUBMITTED.(status := Issued, version := 3, lines := map[R := USED])

  function Ask(q: Id): RequestInput {
    RequestInput(q, SNAPSHOT, ALICE, false, BILL, [Draw(R, 100)])
  }

  lemma OneLine(l: Line)
    ensures SumNet([l]) == l.net && SumTax([l]) == l.tax && SumGross([l]) == l.gross
  {
    assert [l][..0] == [];
  }

  lemma OneLineFits(l: Line)
    requires PositiveLine(l)
    ensures WellFormed(Bill(l.net, l.tax, l.gross, [l]))
  {
    hide SumNet, SumTax, SumGross;
    OneLine(l);
  }

  lemma OneDraw(d: Draw)
    ensures SumDraws([d]) == d.amount && NoDuplicates([d])
    ensures LinesOf([d]) == map[d.receivable := Reservation(d.amount, 0, 0, Reserved, map[])]
  {
    assert [d][..0] == [];
    assert LinesOf([]) == map[];
    assert LinesOf([d]) == LinesOf([])[d.receivable := Reservation(d.amount, 0, 0, Reserved, map[])];
  }

  /** One draw is refused exactly when it does not fit on its own. */
  lemma OneRefusal(b: Books, snapshot: Id, d: Draw)
    ensures FirstRefusal(b, snapshot, [d]) == Refusal(b, snapshot, d)
  {
    hide Refusal;
    assert [d][..0] == [];
    assert FirstRefusal(b, snapshot, []) == None;
  }

  /** Nothing is reserved on the receivable. */
  ghost predicate Unreserved(requests: map<Id, Request>) {
    forall q :: q in requests ==> OutstandingOn(requests[q], R) == 0
  }

  lemma HalfFits(b: Books)
    requires R in b.ar && b.ar[R].snapshot == SNAPSHOT && b.ar[R].invoiced <= 100 && b.ar[R].original == 200
    requires Unreserved(b.inv.requests)
    ensures Refusal(b, SNAPSHOT, Draw(R, 100)) == None
  {
    ZeroTotal(map x | x in b.inv.requests :: OutstandingOn(b.inv.requests[x], R));
  }

  /** A request with one line and one draw that fits. */
  lemma RequestOf(b: Books, q: Id, snapshot: Id, user: Id, bill: Bill, d: Draw)
    requires q !in b.inv.requests && snapshot in b.con.snapshots && b.con.snapshots[snapshot].status == Effective
    requires WellFormed(bill) && 0 < d.amount == bill.gross && Refusal(b, snapshot, d) == None
    ensures CreateRequest(b, RequestInput(q, snapshot, user, false, bill, [d])) ==
      Done(b.(inv := b.inv.(requests := b.inv.requests[q :=
        Request(snapshot, Submitted, 1, user, false, bill, map[d.receivable := Reservation(d.amount, 0, 0, Reserved, map[])])])))
  {
    hide WellFormed, SumDraws, LinesOf, FirstRefusal, Refusal, NoDuplicates;
    OneDraw(d);
    OneRefusal(b, snapshot, d);
  }

  /** A request for half of the receivable is accepted while nothing is reserved. */
  lemma Requesting(b: Books, q: Id)
    requires q !in b.inv.requests && R in b.ar && b.ar[R].snapshot == SNAPSHOT && b.ar[R].invoiced <= 100 && b.ar[R].original == 200
    requires SNAPSHOT in b.con.snapshots && b.con.snapshots[SNAPSHOT].status == Effective
    requires Unreserved(b.inv.requests)
    ensures CreateRequest(b, Ask(q)) == Done(b.(inv := b.inv.(requests := b.inv.requests[q := SUBMITTED])))
  {
    hide WellFormed, Refusal, CreateRequest, Unreserved;
    OneLineFits(BILL.lines[0]);
    HalfFits(b);
    RequestOf(b, q, SNAPSHOT, ALICE, BILL, Draw(R, 100));
  }

  function Begun(q: Id, i: AttemptInput): Attempt {
    Attempt(q, 1, i.channel, i.provider, AttemptPending, false, 0, false, if i.channel == TaxAdapter then Some(i.command) else None)
  }

  lemma Approving(b: Books, q: Id, i: AttemptInput)
    requires q in b.inv.requests && b.inv.requests[q] == SUBMITTED && i.id !in b.inv.attempts && i.command !in b.inv.commands
    requires b.inv.inbox == map[] && forall a :: a in b.inv.attempts ==> b.inv.attempts[a].request != q
    ensures ApproveRequest(b, q, 1, BOB, i) == Done(b.(inv := b.inv.(
      requests := b.inv.requests[q := PENDING], attempts := b.inv.attempts[i.id := Begun(q, i)],
      commands := if i.channel == TaxAdapter then b.inv.commands[i.command := Command(false, i.id, CommandPending)] else b.inv.commands)))
  {
    assert forall a :: !IsLast(b.inv.attempts, q, a);
    assert !HasConflict(b.inv, q);
  }

  lemma Registering(b: Books, q: Id, a: Id, id: Id)
    requires q in b.inv.requests && b.inv.requests[q] == PENDING && b.ar.Keys == {R} && id !in b.inv.invoices
    requires a in b.inv.attempts && forall x :: x in b.inv.attempts ==> (ManualPendingFor(b.inv, x, q) <==> x == a)
    ensures RegisterManual(b, q, id) == Done(b.(
      ar := map[R := IncrementInvoiced(b.ar[R], 100)],
      inv := b.inv.(
        invoices := b.inv.invoices[id := Invoice(q, InvoiceIssued, PAPER, None)],
        requests := b.inv.requests[q := ISSUED],
        attempts := b.inv.attempts[a := b.inv.attempts[a].(status := AttemptIssued)])))
  {
    assert ManualPendingFor(b.inv, a, q);
    var n := RegisterManual(b, q, id).value;
    assert IssueLines(b.ar, PENDING.lines) == map[R := IncrementInvoiced(b.ar[R], 100)];
    assert FinalizeAll(PENDING.lines) == map[R := USED];
    assert n.inv.attempts == b.inv.attempts[a := b.inv.attempts[a].(status := AttemptIssued)];
  }

  // ---------- paper invoices

  function ByHand(a: Id): AttemptInput {
    AttemptInput(a, Manual, PROVIDER, NOBODY)
  }

  /** The books after a request for half of the receivable was made, approved and registered on paper. */
  function Papered(b: Books, q: Id, a: Id, id: Id): Books
    requires R in b.ar
  {
    b.(ar := map[R := IncrementInvoiced(b.ar[R], 100)],
       inv := b.inv.(
         invoices := b.inv.invoices[id := Invoice(q, InvoiceIssued, PAPER, None)],
         requests := b.inv.requests[q := ISSUED],
         attempts := b.inv.attempts[a := Begun(q, ByHand(a)).(status := AttemptIssued)]))
  }

  /** The three accepted steps, as values. */
  lemma PaperSteps(b: Books, q: Id, a: Id, id: Id) returns (asked: Books, approved: Books)
    requires b.ar.Keys == {R} && b.ar[R].snapshot == SNAPSHOT && b.ar[R].invoiced <= 100 && b.ar[R].original == 200
    requires SNAPSHOT in b.con.snapshots && b.con.snapshots[SNAPSHOT].status == Effective
    requires Unreserved(b.inv.requests) && b.inv.inbox == map[]
    requires q !in b.inv.requests && a !in b.inv.attempts && id !in b.inv.invoices && NOBODY !in b.inv.commands
    requires forall x :: x in b.inv.attempts ==> b.inv.attempts[x].request != q
    ensures CreateRequest(b, Ask(q)) == Done(asked)
    ensures ApproveRequest(asked, q, 1, BOB, ByHand(a)) == Done(approved)
    ensures RegisterManual(approved, q, id) == Done(Papered(b, q, a, id))
  {
    hide CreateRequest, ApproveRequest, RegisterManual, Unreserved, Papered;
    Requesting(b, q);
    asked := CreateRequest(b, Ask(q)).value;
    Approving(asked, q, ByHand(a));
    approved := Awaiting(b, q, a);
    assert asked.inv.requests[q := PENDING] == approved.inv.requests;
    PaperEnds(b, q, a, id);
  }

  /** The books while the approved request waits for its paper invoice. */
  function Awaiting(b: Books, q: Id, a: Id): Books {
    b.(inv := b.inv.(requests := b.inv.requests[q := PENDING], attempts := b.inv.attempts[a := Begun(q, ByHand(a))]))
  }

  lemma PaperEnds(b: Books, q: Id, a: Id, id: Id)
    requires b.ar.Keys == {R} && a !in b.inv.attempts && id !in b.inv.invoices
    requires forall x :: x in b.inv.attempts ==> b.inv.attempts[x].request != q
    ensures RegisterManual(Awaiting(b, q, a), q, id) == Done(Papered(b, q, a, id))
  {
    hide RegisterManual;
    Registering(Awaiting(b, q, a), q, a, id);
    var done := RegisterManual(Awaiting(b, q, a), q, id).value;
    assert done.inv.requests == Papered(b, q, a, id).inv.requests;
    assert done.inv.attempts == Papered(b, q, a, id).inv.attempts;
  }

  lemma PaperReaches(b: Books, q: Id, a: Id, id: Id, asked: Books, approved: Books, done: Books)
    requires Reachable(b) && CreateRequest(b, Ask(q)) == Done(asked)
    requires ApproveRequest(asked, q, 1, BOB, ByHand(a)) == Done(approved) && RegisterManual(approved, q, id) == Done(done)
    ensures Reachable(done)
  {
    hide Reachable, CreateRequest, ApproveRequest, RegisterManual;
    InvoiceReaches(b, CreateRequestCmd(Ask(q)), asked);
    InvoiceReaches(asked, ApproveCmd(q, 1, BOB, ByHand(a)), approved);
    InvoiceReaches(approved, RegisterManualCmd(q, id), done);
  }

  const PAPER1 := Papered(CONFIRMED, Q1, A1, I1)
  const PAPER2 := Papered(PAPER1, Q2, A2, I2)

  lemma PaperReachable()
    ensures Reachable(PAPER1) && Reachable(PAPER2)
  {
    hide Reachable, CreateRequest, ApproveRequest, RegisterManual;
    ConfirmedReachable();
    var asked, approved := PaperSteps(CONFIRMED, Q1, A1, I1);
    PaperReaches(CONFIRMED, Q1, A1, I1, asked, approved, PAPER1);
    asked, approved := PaperSteps(PAPER1, Q2, A2, I2);
    PaperReaches(PAPER1, Q2, A2, I2, asked, approved, PAPER2);
  }

  /** A registered paper invoice has no lines, so it fails the detail check. */
  lemma PaperInvoiceFailsDetailCheck()
    ensures Reachable(PAPER1) && I1 in PAPER1.inv.invoices && PAPER1.inv.invoices[I1].status == InvoiceIssued
    ensures !Verifies(PAPER1.inv.invoices[I1].bill)
  {
    hide Reachable;
    PaperReachable();
  }

  // ---------- red flushes

  /** The books after a red flush of an invoice was requested and approved. */
  function Opened(b: Books, f: Id, invoice: Id, x: Id, c: Id): Books {
    b.(inv := b.inv.(
      redRequests := b.inv.redRequests[f := RedRequest(invoice, RedPending, 2, ALICE, BOB, None)],
      redAttempts := b.inv.redAttempts[x := RedAttempt(f, invoice, PROVIDER, AttemptPending, false, 0, Some(c))],
      commands := b.inv.commands[c := Command(true, x, CommandPending)]))
  }

  /** An issued invoice that has no red flush yet, and fresh ids. */
  predicate Openable(t: InvoiceTables, f: Id, invoice: Id, x: Id, c: Id) {
    && invoice in t.invoices && t.invoices[invoice].status == InvoiceIssued
    && (forall y :: y in t.redRequests ==> t.redRequests[y].invoice != invoice)
    && f !in t.redRequests && x !in t.redAttempts && c !in t.commands
  }

  lemma OpeningSteps(b: Books, f: Id, invoice: Id, x: Id, c: Id) returns (asked: Books)
    requires Openable(b.inv, f, invoice, x, c)
    ensures RequestRedFlush(b, f, invoice, ALICE) == Done(asked)
    ensures ReviewRedFlush(asked, f, 1, BOB, true, AttemptInput(x, TaxAdapter, PROVIDER, c)) == Done(Opened(b, f, invoice, x, c))
  {
    asked := b.(inv := b.inv.(redRequests := b.inv.redRequests[f := RedRequest(invoice, RedSubmitted, 1, ALICE, NOBODY, None)]));
    assert asked.inv.redRequests[f := RedRequest(invoice, RedPending, 2, ALICE, BOB, None)] == Opened(b, f, invoice, x, c).inv.redRequests;
  }

  lemma Opening(b: Books, f: Id, invoice: Id, x: Id, c: Id)
    requires Reachable(b) && Openable(b.inv, f, invoice, x, c)
    ensures Reachable(Opened(b, f, invoice, x, c))
  {
    hide Reachable, RequestRedFlush, ReviewRedFlush, Opened, Openable;
    var asked := OpeningSteps(b, f, invoice, x, c);
    InvoiceReaches(b, RequestRedFlushCmd(f, invoice, ALICE), asked);
    InvoiceReaches(asked, ReviewRedFlushCmd(f, 1, BOB, true, AttemptInput(x, TaxAdapter, PROVIDER, c)), Opened(b, f, invoice, x, c));
  }

  function Filed(b: Books, e: Callback, verdict: Verdict): Books {
    b.(inv := b.inv.(inbox := b.inv.inbox[e.event := InboxRow(e, verdict)]))
  }

  lemma FiledOpenable(b: Books, e: Callback, f: Id, invoice: Id, x: Id, c: Id)
    requires Openable(b.inv, f, invoice, x, c)
    ensures forall v :: Openable(Filed(b, e, v).inv, f, invoice, x, c)
  {
  }

  function RedReport(event: Id, kind: CallbackKind, x: Id, named: Option<Id>, bill: Bill): Callback {
    Callback(event, true, kind, x, named, PROVIDER, x, 1, false, bill)
  }

  /** The rows an accepted red-flush report leaves behind. */
  lemma FlushRows(b: Books, a: Id, named: Id, id: Id)
    requires a in b.inv.redAttempts && named in b.inv.redRequests && b.inv.redAttempts[a].invoice in b.inv.invoices
    requires b.inv.invoices[b.inv.redAttempts[a].invoice].request in b.inv.requests && id !in b.inv.invoices
    ensures var t, n := b.inv, FlushInvoice(b, a, named, 1, id);
      var original := t.redAttempts[a].invoice; var o := t.invoices[original]; var q := t.requests[o.request];
      && n.inv.invoices == t.invoices[original := o.(status := InvoiceRedFlushed)][id :=
           Invoice(o.request, InvoiceIssued, RedBill(o.bill, q.bill.lines), Some(original))]
      && n.inv.redRequests.Keys == t.redRequests.Keys && (forall f :: f in t.redRequests ==> n.inv.redRequests[f].invoice == t.redRequests[f].invoice)
      && n.inv.redAttempts.Keys == t.redAttempts.Keys && n.inv.commands == t.commands && n.inv.inbox == t.inbox
      && n.ar.Keys == b.ar.Keys && o.request in n.inv.requests && n.inv.requests[o.request] == q.(lines := TakeBackAll(q.lines, named))
  {
  }

  /** The red invoice of an accepted red-flush report may be flushed in turn. */
  lemma RedOpenable(b: Books, a: Id, named: Id, id: Id, f: Id, x: Id, c: Id)
    requires a in b.inv.redAttempts && named in b.inv.redRequests && b.inv.redAttempts[a].invoice in b.inv.invoices
    requires b.inv.invoices[b.inv.redAttempts[a].invoice].request in b.inv.requests && id !in b.inv.invoices
    requires forall y :: y in b.inv.redRequests ==> b.inv.redRequests[y].invoice != id
    requires f !in b.inv.redRequests && x !in b.inv.redAttempts && c !in b.inv.commands
    ensures Openable(FlushInvoice(b, a, named, 1, id).inv, f, id, x, c)
  {
    hide FlushInvoice;
    FlushRows(b, a, named, id);
  }

  /** A red-flush report that passes its guards. */
  lemma Reporting(b: Books, e: Callback, id: Id)
    requires Reachable(b) && e.redFlush && Addressed(b.inv, e) && RedAccepts(b, e, id) && e.kind != ReportFailed
    ensures var n := Filed(if e.kind == ReportIssued then FlushInvoice(b, e.attempt, NamedRed(b.inv, e), e.sequence, id)
                           else RedReportOn(b, e.attempt, NamedRed(b.inv, e), e.sequence, AttemptUnknown, RedUnknown), e, Applied);
      ApplyCallback(b, e, id) == Done(n) && Reachable(n)
  {
    hide Reachable, InvoiceInv, ApplyRedCallback, FlushInvoice, RedReportOn;
    ReachableSound(b);
    AddressedRedResult(b, e, id);
    AppliedRedResult(b, e, id);
    InvoiceReaches(b, CallbackCmd(e, id), ApplyCallback(b, e, id).value);
  }

  /** The issued result of a red flush just opened. */
  lemma OpenedAccepts(b: Books, f: Id, invoice: Id, x: Id, c: Id, event: Id, bill: Bill, id: Id)
    requires Openable(b.inv, f, invoice, x, c) && event !in b.inv.inbox && id !in b.inv.invoices
    requires b.inv.invoices[invoice].request in b.inv.requests && HeaderOf(bill, b.inv.invoices[invoice].bill, false)
    requires var q := b.inv.requests[b.inv.invoices[invoice].request];
      bill.lines == q.bill.lines && forall r :: r in q.lines ==> r in b.ar && !TakenBackTwice(q.lines[r], f)
    ensures var e := RedReport(event, ReportIssued, x, Some(f), bill);
      Addressed(Opened(b, f, invoice, x, c).inv, e) && RedAccepts(Opened(b, f, invoice, x, c), e, id)
  {
    hide TakenBackTwice;
  }

  // ---------- a report that names the request of another invoice

  const BOTH := Opened(Opened(PAPER2, F1, I1, X1, C1), F2, I2, X2, C2)

  lemma BothReachable()
    ensures Reachable(BOTH)
  {
    hide Reachable;
    PaperReachable();
    Opening(PAPER2, F1, I1, X1, C1);
    Opening(Opened(PAPER2, F1, I1, X1, C1), F2, I2, X2, C2);
  }

  const CROSS := RedReport(E1, ReportIssued, X2, Some(F1), BILL)
  const CROSSED := Filed(FlushInvoice(BOTH, X2, F1, 1, I3), CROSS, Applied)

  lemma CrossAccepted()
    ensures Addressed(BOTH.inv, CROSS) && RedAccepts(BOTH, CROSS, I3) && !NamesOwn(BOTH.inv, CROSS)
  {
  }

  /** What the crossed report left behind: the first request is flushed while its invoice stands, and
      the second is pending while its invoice is flushed.  The ledger is right all the same. */
  lemma CrossedRows()
    ensures F1 in CROSSED.inv.redRequests && CROSSED.inv.redRequests[F1] == RedRequest(I1, RedFlushed, 3, ALICE, BOB, Some(I3))
    ensures F2 in CROSSED.inv.redRequests && CROSSED.inv.redRequests[F2].status == RedPending
    ensures I1 in CROSSED.inv.invoices && CROSSED.inv.invoices[I1] == Invoice(Q1, InvoiceIssued, PAPER, None)
    ensures I2 in CROSSED.inv.invoices && CROSSED.inv.invoices[I2].status == InvoiceRedFlushed
    ensures R in CROSSED.ar && CROSSED.ar[R].invoiced == 100
  {
    assert BOTH.inv.requests[Q2] == ISSUED;
  }

  lemma ReportCanFlushAnother()
    ensures Reachable(BOTH) && Reachable(CROSSED) && ApplyCallback(BOTH, CROSS, I3) == Done(CROSSED)
    ensures !NamesOwn(BOTH.inv, CROSS)
  {
    hide Reachable, ApplyCallback, RedAccepts, Addressed, FlushInvoice;
    BothReachable();
    CrossAccepted();
    Reporting(BOTH, CROSS, I3);
  }

  // ---------- the result for the first request comes now, and is ignored

  const LATE := RedReport(E2, ReportUnknown, X1, None, BILL)
  const LATE_IGNORED := Filed(CROSSED, LATE, IgnoredTerminal)

  const FIRST_ATTEMPT := RedAttempt(F1, I1, PROVIDER, AttemptPending, false, 0, Some(C1))

  lemma CrossedAttempt()
    ensures X1 in CROSSED.inv.redAttempts && CROSSED.inv.redAttempts[X1] == FIRST_ATTEMPT
    ensures Q1 in CROSSED.inv.requests && CROSSED.inv.requests[Q1] == ISSUED && CROSSED.inv.inbox.Keys == {E1}
  {
    assert BOTH.inv.redAttempts[X1] == FIRST_ATTEMPT;
  }

  /** Whatever the report on the first attempt says, it comes too late. */
  lemma AnyResultIgnored(kind: CallbackKind, bill: Bill)
    ensures var e := RedReport(E2, kind, X1, None, bill); ApplyCallback(CROSSED, e, I4) == Done(Filed(CROSSED, e, IgnoredTerminal))
  {
    hide FlushInvoice;
    CrossedRows();
    CrossedAttempt();
  }

  const REAL := RedReport(E2, ReportIssued, X1, None, BILL)

  /** The issued result for the request that was marked flushed by mistake is ignored, and so is an
      unknown or failed one. */
  lemma RealResultIsIgnored()
    ensures Reachable(CROSSED) && ApplyCallback(CROSSED, REAL, I4) == Done(Filed(CROSSED, REAL, IgnoredTerminal))
    ensures forall kind :: ApplyCallback(CROSSED, REAL.(kind := kind), I4) == Done(Filed(CROSSED, REAL.(kind := kind), IgnoredTerminal))
  {
    hide Reachable, ApplyCallback, Filed, FlushInvoice;
    ReportCanFlushAnother();
    forall kind ensures ApplyCallback(CROSSED, REAL.(kind := kind), I4) == Done(Filed(CROSSED, REAL.(kind := kind), IgnoredTerminal)) {
      AnyResultIgnored(kind, BILL);
    }
    AnyResultIgnored(ReportIssued, BILL);
  }

  lemma LateReachable()
    ensures Reachable(LATE_IGNORED)
  {
    hide Reachable, ApplyCallback, Filed, FlushInvoice;
    ReportCanFlushAnother();
    AnyResultIgnored(ReportUnknown, BILL);
    InvoiceReaches(CROSSED, CallbackCmd(LATE, I4), LATE_IGNORED);
  }

  // ---------- a report on a third red flush, of the red invoice, names the first again

  const AGAIN := Opened(LATE_IGNORED, F3, I3, X3, C3)

  lemma AgainReachable()
    ensures Reachable(AGAIN)
  {
    hide Reachable, ApplyCallback, FlushInvoice, Filed, Openable, Opened;
    LateReachable();
    RedInvoiceOpenable();
    Opening(LATE_IGNORED, F3, I3, X3, C3);
  }

  lemma RedInvoiceOpenable()
    ensures Openable(LATE_IGNORED.inv, F3, I3, X3, C3)
  {
    hide FlushInvoice, Openable;
    RedOpenable(BOTH, X2, F1, I3, F3, X3, C3);
    FiledOpenable(FlushInvoice(BOTH, X2, F1, 1, I3), CROSS, F3, I3, X3, C3);
    FiledOpenable(CROSSED, LATE, F3, I3, X3, C3);
  }

  const REWRITE := RedReport(E3, ReportUnknown, X3, Some(F1), BILL)
  const REWRITTEN := Filed(RedReportOn(AGAIN, X3, F1, 1, AttemptUnknown, RedUnknown), REWRITE, Applied)

  lemma RewriteAccepted()
    ensures Addressed(AGAIN.inv, REWRITE) && RedAccepts(AGAIN, REWRITE, I4) && !NamesOwn(AGAIN.inv, REWRITE)
  {
  }

  /** A finished red flush, with its red invoice, is set back to unknown. */
  lemma ReportCanRewriteFinished()
    ensures Reachable(AGAIN) && Reachable(REWRITTEN) && ApplyCallback(AGAIN, REWRITE, I4) == Done(REWRITTEN) && !NamesOwn(AGAIN.inv, REWRITE)
  {
    hide Reachable, ApplyCallback, RedAccepts, Addressed, RedReportOn, Opened;
    AgainReachable();
    RewriteAccepted();
    Reporting(AGAIN, REWRITE, I4);
  }

  lemma RewrittenRow()
    ensures F1 in AGAIN.inv.redRequests && AGAIN.inv.redRequests[F1] == RedRequest(I1, RedFlushed, 3, ALICE, BOB, Some(I3))
    ensures F1 in REWRITTEN.inv.redRequests && REWRITTEN.inv.redRequests[F1] == RedRequest(I1, RedUnknown, 4, ALICE, BOB, Some(I3))
    ensures X1 in REWRITTEN.inv.redAttempts && REWRITTEN.inv.redAttempts[X1] == FIRST_ATTEMPT
    ensures REWRITTEN.inv.invoices == CROSSED.inv.invoices && REWRITTEN.inv.requests == CROSSED.inv.requests
  {
    hide FlushInvoice;
    CrossedRows();
    CrossedAttempt();
  }

  lemma RewrittenInbox()
    ensures REWRITTEN.inv.inbox.Keys == {E1, E2, E3} && REWRITTEN.inv.inbox[E2] == InboxRow(LATE, IgnoredTerminal)
  {
    hide FlushInvoice;
    CrossedAttempt();
  }

  /** The report that was ignored is now applied when it is delivered again under a new event id. */
  lemma IgnoredRedReportCanApply()
    ensures E2 in REWRITTEN.inv.inbox && REWRITTEN.inv.inbox[E2] == InboxRow(LATE, IgnoredTerminal)
    ensures RedAccepts(REWRITTEN, LATE.(event := E4), I4)
  {
    hide FlushInvoice, Filed, RedReportOn, Opened;
    RewrittenRow();
    RewrittenInbox();
    CrossedRows();
    CrossedAttempt();
  }

  // ---------- the red flush of a red invoice

  const FIRST := Opened(PAPER1, F1, I1, X1, C1)
  const FLUSH := RedReport(E1, ReportIssued, X1, None, BILL)
  const FLUSHED := Filed(FlushInvoice(FIRST, X1, F1, 1, I3), FLUSH, Applied)
  const SECOND := Opened(FLUSHED, F3, I3, X3, C3)
  const FLUSH_RED := RedReport(E3, ReportIssued, X3, Some(F3), Bill(-100, 0, -100, BILL.lines))
  const RED_OF_RED := Filed(FlushInvoice(SECOND, X3, F3, 1, I4), FLUSH_RED, Applied)

  lemma FlushAccepted()
    ensures Addressed(FIRST.inv, FLUSH) && RedAccepts(FIRST, FLUSH, I3)
  {
  }

  lemma FlushedReachable()
    ensures Reachable(FLUSHED)
  {
    hide Reachable, ApplyCallback, RedAccepts, Addressed, FlushInvoice;
    PaperReachable();
    Opening(PAPER1, F1, I1, X1, C1);
    FlushAccepted();
    Reporting(FIRST, FLUSH, I3);
  }

  lemma FlushedRows()
    ensures R in FLUSHED.ar && FLUSHED.inv.inbox.Keys == {E1} && FLUSHED.inv.invoices.Keys == {I1, I3}
    ensures FLUSHED.inv.invoices[I3] == Invoice(Q1, InvoiceIssued, RedBill(PAPER, BILL.lines), Some(I1))
    ensures Q1 in FLUSHED.inv.requests && FLUSHED.inv.requests[Q1] == ISSUED.(lines := TakeBackAll(ISSUED.lines, F1))
  {
    hide RedBill, FlushInvoice, TakeBackAll;
    FlushRows(FIRST, X1, F1, I3);
  }

  lemma FlushedOpenable()
    ensures Openable(FLUSHED.inv, F3, I3, X3, C3)
  {
    hide FlushInvoice, Openable;
    RedOpenable(FIRST, X1, F1, I3, F3, X3, C3);
    FiledOpenable(FlushInvoice(FIRST, X1, F1, 1, I3), FLUSH, F3, I3, X3, C3);
  }

  lemma OtherReversal()
    ensures !TakenBackTwice(TakeBack(USED, F1), F3) && TakeBackAll(ISSUED.lines, F1) == map[R := TakeBack(USED, F1)]
  {
  }

  lemma RedAcceptedOn(b: Books)
    requires Openable(b.inv, F3, I3, X3, C3) && R in b.ar && b.inv.inbox.Keys == {E1} && b.inv.invoices.Keys == {I1, I3}
    requires b.inv.invoices[I3] == Invoice(Q1, InvoiceIssued, RedBill(PAPER, BILL.lines), Some(I1))
    requires Q1 in b.inv.requests && b.inv.requests[Q1] == ISSUED.(lines := map[R := TakeBack(USED, F1)])
    ensures Addressed(Opened(b, F3, I3, X3, C3).inv, FLUSH_RED) && RedAccepts(Opened(b, F3, I3, X3, C3), FLUSH_RED, I4)
  {
    hide TakeBack, TakenBackTwice, NegateLines, Openable, Opened, Addressed, RedAccepts, TakeBackAll;
    OtherReversal();
    OpenedAccepts(b, F3, I3, X3, C3, E3, FLUSH_RED.bill, I4);
  }

  lemma FlushRedAccepted()
    ensures Addressed(SECOND.inv, FLUSH_RED) && RedAccepts(SECOND, FLUSH_RED, I4)
  {
    hide FlushInvoice, TakeBackAll, TakeBack, Openable, Opened, Filed, Addressed, RedAccepts, RedBill, TakenBackTwice;
    FlushedRows();
    FlushedOpenable();
    OtherReversal();
    RedAcceptedOn(FLUSHED);
  }

  lemma RedOfRedReachable()
    ensures Reachable(SECOND) && Reachable(RED_OF_RED) && ApplyCallback(SECOND, FLUSH_RED, I4) == Done(RED_OF_RED)
  {
    hide Reachable, ApplyCallback, RedAccepts, Addressed, FlushInvoice, Opened, Openable, Filed;
    FlushedReachable();
    FlushedOpenable();
    Opening(FLUSHED, F3, I3, X3, C3);
    FlushRedAccepted();
    Reporting(SECOND, FLUSH_RED, I4);
  }

  lemma RedOfRedRows()
    ensures I3 in RED_OF_RED.inv.invoices && RED_OF_RED.inv.invoices[I3].bill == RedBill(PAPER, BILL.lines)
    ensures I4 in RED_OF_RED.inv.invoices && RED_OF_RED.inv.invoices[I4].redOf == Some(I3)
    ensures RED_OF_RED.inv.invoices[I4].bill == RedBill(RedBill(PAPER, BILL.lines), BILL.lines)
  {
    hide RedBill, FlushInvoice, TakeBackAll;
    FlushedRows();
    FlushRows(SECOND, X3, F3, I4);
  }

  /** The faces of the red of a paper invoice, and of the red of that. */
  lemma RedOfRedFaces(b: Bill)
    requires WellFormed(b)
    ensures var red := RedBill(HeaderOnly(b), b.lines); Verifies(red) && !Verifies(RedBill(red, b.lines))
  {
    hide Verifies, WellFormed;
    RedVerifiesIff(b, HeaderOnly(b), false);
    RedVerifiesIff(b, RedBill(HeaderOnly(b), b.lines), true);
  }

  /** The red flush of a red invoice is accepted, and its result fails the detail check, although the
      red invoice itself passes it. */
  lemma RedOfRedFailsDetailCheck()
    ensures Reachable(RED_OF_RED) && I3 in RED_OF_RED.inv.invoices && I4 in RED_OF_RED.inv.invoices
    ensures RED_OF_RED.inv.invoices[I4].redOf == Some(I3)
    ensures Verifies(RED_OF_RED.inv.invoices[I3].bill) && !Verifies(RED_OF_RED.inv.invoices[I4].bill)
  {
    hide Reachable, ApplyCallback, Verifies, WellFormed, RedBill, FlushInvoice, Filed, Opened;
    RedOfRedReachable();
    RedOfRedRows();
    OneLineFits(BILL.lines[0]);
    RedOfRedFaces(BILL);
  }

  // ---------- a report that was ignored before the request was cancelled

  const BY_TAX := AttemptInput(A1, TaxAdapter, PROVIDER, C1)
  const FAILURE := Callback(E1, false, ReportFailed, A1, None, PROVIDER, A1, 1, true, BILL)
  const UNSURE := Callback(E2, false, ReportUnknown, A1, None, PROVIDER, A1, 2, false, BILL)

  const SENT := Begun(Q1, BY_TAX)
  const FAILED := SENT.(status := AttemptFailed, sequence := 1, reported := true)
  const ABANDONED := FAILED.(status := AttemptAbandoned)

  const FAILED_REQUEST := PENDING.(status := IssueFailed, version := 3)
  const DROPPED := FAILED_REQUEST.(status := Cancelled, version := 4, lines := map[R := Reservation(100, 0, 100, Released, map[])])

  const FIRST_ROW := map[E1 := InboxRow(FAILURE, Applied)]
  const BOTH_ROWS := map[E1 := InboxRow(FAILURE, Applied), E2 := InboxRow(UNSURE, IgnoredTerminal)]

  /** One request with one attempt on the tax channel and its command. */
  function Single(q: Request, a: Attempt, c: CommandStatus, inbox: map<Id, InboxRow>): Books {
    CONFIRMED.(inv := InvoiceTables(map[Q1 := q], map[A1 := a], map[], map[], map[], inbox, map[C1 := Command(false, A1, c)]))
  }

  const IGNORED := Single(FAILED_REQUEST, FAILED, CommandDeadLetter, BOTH_ROWS)
  const CANCELLED := Single(DROPPED, ABANDONED, CommandDeadLetter, BOTH_ROWS)

  lemma Sending() returns (asked: Books)
    ensures CreateRequest(CONFIRMED, Ask(Q1)) == Done(asked)
    ensures ApproveRequest(asked, Q1, 1, BOB, BY_TAX) == Done(Single(PENDING, SENT, CommandPending, map[]))
  {
    hide CreateRequest, ApproveRequest;
    Requesting(CONFIRMED, Q1);
    asked := CreateRequest(CONFIRMED, Ask(Q1)).value;
    Approving(asked, Q1, BY_TAX);
    var n, m := ApproveRequest(asked, Q1, 1, BOB, BY_TAX).value.inv, Single(PENDING, SENT, CommandPending, map[]).inv;
    assert n.requests == m.requests && n.attempts == m.attempts && n.commands == m.commands;
  }

  lemma Moving(q: Request, a: Attempt, from: CommandStatus, to: CommandStatus, inbox: map<Id, InboxRow>)
    requires (from == CommandPending && to == CommandProcessing) || (from == CommandProcessing && to == CommandDeadLetter)
    ensures MoveCommand(Single(q, a, from, inbox), C1, to) == Done(Single(q, a, to, inbox))
  {
    assert MoveCommand(Single(q, a, from, inbox), C1, to).value.inv.commands == Single(q, a, to, inbox).inv.commands;
  }

  lemma FailOne(b: Books)
    requires b.inv.attempts == map[A1 := SENT] && b.inv.requests == map[Q1 := PENDING] && b.inv.inbox == map[]
    ensures ApplyCallback(b, FAILURE, I1) == Done(b.(inv := b.inv.(
      requests := map[Q1 := FAILED_REQUEST], attempts := map[A1 := FAILED], inbox := FIRST_ROW)))
  {
    hide IssueInvoice, RaiseSequence, ApplyRedCallback, ReportOn;
    FailureResult(b);
    assert b.inv.inbox[E1 := InboxRow(FAILURE, Applied)] == FIRST_ROW;
  }

  lemma FailureResult(b: Books)
    requires b.inv.attempts == map[A1 := SENT] && b.inv.requests == map[Q1 := PENDING]
    ensures ReportOn(b, A1, 1, AttemptFailed, IssueFailed) == b.(inv := b.inv.(
      requests := map[Q1 := FAILED_REQUEST], attempts := map[A1 := FAILED]))
  {
    var n := ReportOn(b, A1, 1, AttemptFailed, IssueFailed).inv;
    assert n.requests == map[Q1 := FAILED_REQUEST] && n.attempts == map[A1 := FAILED];
  }

  lemma Failing(c: CommandStatus)
    ensures ApplyCallback(Single(PENDING, SENT, c, map[]), FAILURE, I1) == Done(Single(FAILED_REQUEST, FAILED, c, FIRST_ROW))
  {
    hide ApplyCallback;
    FailOne(Single(PENDING, SENT, c, map[]));
  }

  lemma Ignoring(c: CommandStatus)
    ensures ApplyCallback(Single(FAILED_REQUEST, FAILED, c, FIRST_ROW), UNSURE, I1) == Done(Single(FAILED_REQUEST, FAILED, c, BOTH_ROWS))
  {
    assert ApplyCallback(Single(FAILED_REQUEST, FAILED, c, FIRST_ROW), UNSURE, I1).value.inv.inbox == BOTH_ROWS;
  }

  lemma OnlyOne(attempts: map<Id, Attempt>, a: Id)
    requires attempts.Keys == {a}
    ensures LastAttempt(attempts, attempts[a].request) == Some(a)
  {
    LastOf(attempts, a);
  }

  lemma NoConflict(t: InvoiceTables, q: Id)
    requires forall e :: e in t.inbox ==> t.inbox[e].verdict != ProviderConflict
    ensures !HasConflict(t, q)
  {
  }

  /** The only attempt failed, its command is dead and nothing was issued. */
  lemma CancelOne(b: Books)
    requires Q1 in b.inv.requests && b.inv.requests[Q1] == FAILED_REQUEST && b.inv.attempts.Keys == {A1} && b.inv.attempts[A1] == FAILED
    requires b.inv.invoices == map[] && !HasConflict(b.inv, Q1)
    requires C1 in b.inv.commands && b.inv.commands[C1].status == CommandDeadLetter
    ensures CancelRequest(b, Q1, 3, BOB) == Done(b.(inv := b.inv.(
      requests := b.inv.requests[Q1 := DROPPED], attempts := b.inv.attempts[A1 := ABANDONED])))
  {
    hide HasConflict, LastAttempt;
    OnlyOne(b.inv.attempts, A1);
    assert ReleaseAll(FAILED_REQUEST.lines) == DROPPED.lines;
  }

  lemma Cancelling()
    ensures CancelRequest(IGNORED, Q1, 3, BOB) == Done(CANCELLED)
  {
    hide CancelRequest, HasConflict;
    NoConflict(IGNORED.inv, Q1);
    CancelOne(IGNORED);
    assert IGNORED.inv.requests[Q1 := DROPPED] == CANCELLED.inv.requests;
    assert IGNORED.inv.attempts[A1 := ABANDONED] == CANCELLED.inv.attempts;
  }

  lemma FailureReachable()
    ensures Reachable(Single(PENDING, SENT, CommandDeadLetter, map[]))
  {
    hide Reachable, CreateRequest, ApproveRequest, MoveCommand, Single;
    ConfirmedReachable();
    var asked := Sending();
    InvoiceReaches(CONFIRMED, CreateRequestCmd(Ask(Q1)), asked);
    InvoiceReaches(asked, ApproveCmd(Q1, 1, BOB, BY_TAX), Single(PENDING, SENT, CommandPending, map[]));
    Moving(PENDING, SENT, CommandPending, CommandProcessing, map[]);
    InvoiceReaches(Single(PENDING, SENT, CommandPending, map[]), MoveCommandCmd(C1, CommandProcessing), Single(PENDING, SENT, CommandProcessing, map[]));
    Moving(PENDING, SENT, CommandProcessing, CommandDeadLetter, map[]);
    InvoiceReaches(Single(PENDING, SENT, CommandProcessing, map[]), MoveCommandCmd(C1, CommandDeadLetter), Single(PENDING, SENT, CommandDeadLetter, map[]));
  }

  lemma CancelledReachable()
    ensures Reachable(IGNORED) && Reachable(CANCELLED)
  {
    hide Reachable, ApplyCallback, CancelRequest, Single;
    FailureReachable();
    Failing(CommandDeadLetter);
    var failed := Single(FAILED_REQUEST, FAILED, CommandDeadLetter, FIRST_ROW);
    InvoiceReaches(Single(PENDING, SENT, CommandDeadLetter, map[]), CallbackCmd(FAILURE, I1), failed);
    Ignoring(CommandDeadLetter);
    InvoiceReaches(failed, CallbackCmd(UNSURE, I1), IGNORED);
    Cancelling();
    InvoiceReaches(IGNORED, CancelCmd(Q1, 3, BOB), CANCELLED);
  }

  lemma Raises()
    ensures RaisesSequence(CANCELLED.inv, UNSURE.(event := E3))
  {
  }

  lemma Raising(b: Books)
    requires b.inv.attempts == map[A1 := ABANDONED] && Q1 in b.inv.requests && b.inv.requests[Q1].status == Cancelled && E3 !in b.inv.inbox
    ensures var n := ApplyCallback(b, UNSURE.(event := E3), I1);
      n.Done? && n.value.inv.attempts == map[A1 := ABANDONED.(sequence := 2)]
  {
    hide IssueInvoice, ReportOn, ApplyRedCallback;
    var n := ApplyCallback(b, UNSURE.(event := E3), I1);
    assert n.value.inv.attempts == map[A1 := ABANDONED.(sequence := 2)];
  }

  /** A report is ignored, the request is cancelled, and the same report under a new event id then
      raises the sequence of the abandoned attempt. */
  lemma RedeliveryCanRaiseSequence()
    ensures Reachable(CANCELLED) && E2 in CANCELLED.inv.inbox && CANCELLED.inv.inbox[E2] == InboxRow(UNSURE, IgnoredTerminal)
    ensures RaisesSequence(CANCELLED.inv, UNSURE.(event := E3))
    ensures var n := ApplyCallback(CANCELLED, UNSURE.(event := E3), I1);
      n.Done? && n.value.inv.attempts == map[A1 := ABANDONED.(sequence := 2)]
  {
    hide Reachable, ApplyCallback, RaisesSequence;
    CancelledReachable();
    Raises();
    Raising(CANCELLED);
  }
}
