/** What each accepted invoice transaction leaves in the rows, and when it is accepted, said in terms of
    the rows before and of its input. */
module InvoiceOutcomes {
  import opened Tables
  import opened Totals
  import opened Billing
  import opened Invoicing
  import opened InvoicingProofs
  import opened Settlement
  import opened InvoiceFaces

  // ---------- requests

  /** What is still free of a receivable: its amount without what stands invoiced and what is reserved. */
  ghost function Free(ar: Ledger, requests: map<Id, Request>, r: Id): int {
    (if r in ar then ar[r].original else 0) - InvoicedTotal(requests, r) - ReservedTotal(requests, r)
  }

  /** Each draw names a receivable of the snapshot, once, and asks for no more than is free on it. */
  ghost predicate DrawsFit(b: Books, i: RequestInput) {
    && NoDuplicates(i.draws)
    && forall k :: 0 <= k < |i.draws| ==>
         && i.draws[k].receivable in b.ar && b.ar[i.draws[k].receivable].snapshot == i.snapshot
         && 0 < i.draws[k].amount <= Free(b.ar, b.inv.requests, i.draws[k].receivable)
  }

  lemma NothingOverdrawn(b: Books, r: Id)
    requires InvoiceInv(b.inv, b.ar)
    ensures !Overdrawn(b.inv.requests, r)
  {
    forall q | q in b.inv.requests ensures 0 <= OutstandingOn(b.inv.requests[q], r) {
      assert RequestSound(b.inv, b.ar, q);
      if r in b.inv.requests[q].lines { assert LineSound(b.inv.redRequests, b.inv.requests[q], r); }
    }
  }

  lemma RefusalIff(b: Books, snapshot: Id, d: Draw)
    requires InvoiceInv(b.inv, b.ar)
    ensures Refusal(b, snapshot, d) == None <==>
      d.receivable in b.ar && b.ar[d.receivable].snapshot == snapshot && d.amount <= Free(b.ar, b.inv.requests, d.receivable)
  {
    NothingOverdrawn(b, d.receivable);
    if d.receivable in b.ar { assert CapacitySound(b.inv.requests, b.ar, d.receivable); }
  }

  lemma {:induction false} FirstRefusalIff(b: Books, snapshot: Id, draws: seq<Draw>)
    ensures FirstRefusal(b, snapshot, draws) == None <==> forall k :: 0 <= k < |draws| ==> Refusal(b, snapshot, draws[k]) == None
  {
    hide Refusal;
    if draws != [] {
      var last := |draws| - 1;
      FirstRefusalIff(b, snapshot, draws[..last]);
      if FirstRefusal(b, snapshot, draws) == None {
        forall k | 0 <= k < |draws| ensures Refusal(b, snapshot, draws[k]) == None { assert k < last ==> draws[..last][k] == draws[k]; }
      }
    }
  }

  /** A request is accepted if and only if its bill is well formed, its draws add up to the gross amount,
      the snapshot is effective, the id is unused and every draw fits. */
  lemma RequestAcceptedIff(b: Books, i: RequestInput)
    requires InvoiceInv(b.inv, b.ar)
    ensures CreateRequest(b, i).Done? <==>
      && i.draws != [] && WellFormed(i.bill) && SumDraws(i.draws) == i.bill.gross
      && i.snapshot in b.con.snapshots && b.con.snapshots[i.snapshot].status == Effective
      && i.id !in b.inv.requests && DrawsFit(b, i)
  {
    hide WellFormed, Refusal, FirstRefusal;
    FirstRefusalIff(b, i.snapshot, i.draws);
    forall k | 0 <= k < |i.draws|
      ensures Refusal(b, i.snapshot, i.draws[k]) == None <==>
        i.draws[k].receivable in b.ar && b.ar[i.draws[k].receivable].snapshot == i.snapshot && i.draws[k].amount <= Free(b.ar, b.inv.requests, i.draws[k].receivable)
    {
      RefusalIff(b, i.snapshot, i.draws[k]);
    }
  }

  /** The reservation of one draw. */
  predicate HoldsDraw(q: Request, d: Draw) {
    d.receivable in q.lines && q.lines[d.receivable].reserved == d.amount && q.lines[d.receivable].status == Reserved
  }

  /** An accepted request is submitted with its bill and one reservation per draw, of the drawn amount;
      what was free on each receivable falls by exactly that. */
  lemma RequestReserves(b: Books, i: RequestInput)
    requires InvoiceInv(b.inv, b.ar) && CreateRequest(b, i).Done?
    ensures var n := CreateRequest(b, i).value;
      && n == b.(inv := b.inv.(requests := n.inv.requests)) && i.id in n.inv.requests && n.inv.requests == b.inv.requests[i.id := n.inv.requests[i.id]]
      && var q := n.inv.requests[i.id];
      && q.status == Submitted && q.version == 1 && q.applicant == i.user && q.special == i.special && q.bill == i.bill && q.snapshot == i.snapshot
      && (forall r :: r in q.lines <==> exists k :: 0 <= k < |i.draws| && i.draws[k].receivable == r)
      && (forall k :: 0 <= k < |i.draws| ==> HoldsDraw(q, i.draws[k]))
    ensures var n := CreateRequest(b, i).value;
      forall k :: 0 <= k < |i.draws| ==>
        Free(n.ar, n.inv.requests, i.draws[k].receivable) == Free(b.ar, b.inv.requests, i.draws[k].receivable) - i.draws[k].amount
  {
    hide WellFormed, FirstRefusal;
    var n := CreateRequest(b, i).value;
    LinesOfSound(i.draws);
    RequestAcceptedIff(b, i);
    forall k | 0 <= k < |i.draws|
      ensures Free(n.ar, n.inv.requests, i.draws[k].receivable) == Free(b.ar, b.inv.requests, i.draws[k].receivable) - i.draws[k].amount
    {
      TotalsAfter(b.inv.requests, i.id, n.inv.requests[i.id], i.draws[k].receivable);
    }
  }

  // ---------- approval, review, rejection

  /** The request waits for its new pending attempt, which is numbered after all others. */
  ghost predicate Attempted(b: Books, n: Books, q: Id, i: AttemptInput)
    requires q in b.inv.requests
  {
    var t, row := b.inv, b.inv.requests[q];
    && n == b.(inv := t.(requests := n.inv.requests, attempts := n.inv.attempts, commands := n.inv.commands))
    && n.inv.requests == t.requests[q := row.(status := IssuePending, version := row.version + 1)]
    && i.id !in t.attempts && i.id in n.inv.attempts && n.inv.attempts == t.attempts[i.id := n.inv.attempts[i.id]]
    && var a := n.inv.attempts[i.id];
    && a.request == q && a.status == AttemptPending && a.channel == i.channel && a.provider == i.provider && !a.accepted && a.sequence == 0
    && (forall x :: x in t.attempts && t.attempts[x].request == q ==> t.attempts[x].number < a.number)
    && (if i.channel == TaxAdapter
        then a.command == Some(i.command) && i.command !in t.commands && n.inv.commands == t.commands[i.command := Command(false, i.id, CommandPending)]
        else a.command == None && n.inv.commands == t.commands)
  }

  lemma AttemptOutcome(b: Books, q: Id, i: AttemptInput)
    requires InvoiceInv(b.inv, b.ar) && q in b.inv.requests
    ensures CreateAttempt(b, q, i).Done? <==> !HasConflict(b.inv, q) && i.id !in b.inv.attempts && (i.channel == TaxAdapter ==> i.command !in b.inv.commands)
    ensures CreateAttempt(b, q, i).Done? ==> Attempted(b, CreateAttempt(b, q, i).value, q, i)
  {
    hide HasConflict;
    NumbersBelowNext(b.inv, b.ar, q);
  }

  /** The request is closed and every reservation is given back. */
  ghost predicate ClosedAs(t: InvoiceTables, n: InvoiceTables, ar: Ledger, q: Id, status: RequestStatus)
    requires q in t.requests
  {
    && q in n.requests && n.requests == t.requests[q := n.requests[q]]
    && var row := n.requests[q];
    && row == t.requests[q].(status := status, version := t.requests[q].version + 1, lines := row.lines)
    && row.lines.Keys == t.requests[q].lines.Keys
    && (forall r :: r in row.lines ==> row.lines[r].status == Released && row.lines[r].released == row.lines[r].reserved == t.requests[q].lines[r].reserved)
    && (forall r :: r in ar ==> Free(ar, n.requests, r) == Free(ar, t.requests, r) + OutstandingOn(t.requests[q], r))
  }

  lemma ReleaseCloses(b: Books, q: Id, status: RequestStatus)
    requires InvoiceInv(b.inv, b.ar) && q in b.inv.requests && LineStatus(b.inv.requests[q].status) == Reserved && LineStatus(status) == Released
    ensures ClosedAs(b.inv, ReleaseRequest(b, q, status).inv, b.ar, q, status)
  {
    var n := ReleaseRequest(b, q, status).inv;
    assert RequestSound(b.inv, b.ar, q);
    forall r | r in b.inv.requests[q].lines ensures LineSound(b.inv.redRequests, b.inv.requests[q], r) {}
    forall r | r in b.ar ensures Free(b.ar, n.requests, r) == Free(b.ar, b.inv.requests, r) + OutstandingOn(b.inv.requests[q], r) {
      TotalsAfter(b.inv.requests, q, n.requests[q], r);
    }
  }

  predicate AwaitsReview(b: Books, q: Id, version: int, status: RequestStatus) {
    q in b.inv.requests && b.inv.requests[q].status == status && b.inv.requests[q].version == version
  }

  /** No conflicting result is filed, and the ids the attempt needs are unused. */
  predicate MayAttempt(b: Books, q: Id, i: AttemptInput) {
    !HasConflict(b.inv, q) && i.id !in b.inv.attempts && (i.channel == TaxAdapter ==> i.command !in b.inv.commands)
  }

  /** Who may decide on a request: anyone but its applicant, at its current version; an attempt that is to be
      started must be possible. */
  lemma DecisionAcceptedIff(b: Books, q: Id, version: int, user: Id, approve: bool, i: AttemptInput)
    requires InvoiceInv(b.inv, b.ar)
    ensures ApproveRequest(b, q, version, user, i).Done? <==>
      AwaitsReview(b, q, version, Submitted) && b.inv.requests[q].applicant != user && (b.inv.requests[q].special || MayAttempt(b, q, i))
    ensures ReviewSpecial(b, q, version, user, approve, i).Done? <==>
      AwaitsReview(b, q, version, SpecialReview) && b.inv.requests[q].applicant != user && (approve ==> MayAttempt(b, q, i))
  {
    hide CreateAttempt, HasConflict, InvoiceInv;
    if q in b.inv.requests { AttemptOutcome(b, q, i); }
  }

  /** Approving an ordinary request starts an attempt, approving a special one sends it to its review. */
  lemma ApprovalOutcome(b: Books, q: Id, version: int, user: Id, i: AttemptInput)
    requires InvoiceInv(b.inv, b.ar) && ApproveRequest(b, q, version, user, i).Done?
    ensures AwaitsReview(b, q, version, Submitted) && b.inv.requests[q].applicant != user
    ensures var n := ApproveRequest(b, q, version, user, i).value;
      if b.inv.requests[q].special
      then n == b.(inv := b.inv.(requests := b.inv.requests[q := b.inv.requests[q].(status := SpecialReview, version := version + 1)]))
      else Attempted(b, n, q, i)
  {
    hide CreateAttempt, Attempted, InvoiceInv;
    AttemptOutcome(b, q, i);
  }

  /** An approved special review starts an attempt, a refused one rejects the request. */
  lemma SpecialReviewOutcome(b: Books, q: Id, version: int, user: Id, approve: bool, i: AttemptInput)
    requires InvoiceInv(b.inv, b.ar) && ReviewSpecial(b, q, version, user, approve, i).Done?
    ensures AwaitsReview(b, q, version, SpecialReview) && b.inv.requests[q].applicant != user
    ensures var n := ReviewSpecial(b, q, version, user, approve, i).value;
      if approve then Attempted(b, n, q, i) else ClosedAs(b.inv, n.inv, b.ar, q, Rejected) && n.ar == b.ar && n.inv.attempts == b.inv.attempts
  {
    hide CreateAttempt, Attempted, InvoiceInv, ClosedAs;
    AttemptOutcome(b, q, i);
    if !approve { ReleaseCloses(b, q, Rejected); }
  }

  lemma RejectionOutcome(b: Books, q: Id, version: int, user: Id)
    requires InvoiceInv(b.inv, b.ar)
    ensures RejectRequest(b, q, version, user).Done? <==> AwaitsReview(b, q, version, Submitted) && b.inv.requests[q].applicant != user
    ensures RejectRequest(b, q, version, user).Done? ==> ClosedAs(b.inv, RejectRequest(b, q, version, user).value.inv, b.ar, q, Rejected)
  {
    hide ClosedAs, InvoiceInv;
    if AwaitsReview(b, q, version, Submitted) { ReleaseCloses(b, q, Rejected); }
  }

  /** A cancelled request is closed, and its newest attempt, if it has one, is abandoned. */
  lemma CancellationOutcome(b: Books, q: Id, version: int, user: Id)
    requires InvoiceInv(b.inv, b.ar) && CancelRequest(b, q, version, user).Done?
    ensures q in b.inv.requests && b.inv.requests[q].status in {IssuePending, IssueFailed} && b.inv.requests[q].version == version
    ensures var n := CancelRequest(b, q, version, user).value;
      && ClosedAs(b.inv, n.inv, b.ar, q, Cancelled) && n.ar == b.ar
      && n.inv.attempts.Keys == b.inv.attempts.Keys
      && forall a :: a in b.inv.attempts ==>
           n.inv.attempts[a] == if IsLast(b.inv.attempts, q, a) then b.inv.attempts[a].(status := AttemptAbandoned) else b.inv.attempts[a]
  {
    hide HasConflict, ClosedAs;
    ReleaseCloses(b, q, Cancelled);
    var n := CancelRequest(b, q, version, user).value;
    SameClosing(b.inv, ReleaseRequest(b, q, Cancelled).inv, n.inv, b.ar, q, Cancelled);
    forall a | a in b.inv.attempts && IsLast(b.inv.attempts, q, a) ensures LastAttempt(b.inv.attempts, q) == Some(a) {
      LastOf(b.inv.attempts, a);
      OneNewest(b.inv.attempts, a, LastAttempt(b.inv.attempts, q).value);
    }
  }

  lemma OneNewest(attempts: map<Id, Attempt>, a: Id, x: Id)
    requires a in attempts && x in attempts && attempts[a].request == attempts[x].request && Newest(attempts, a) && Newest(attempts, x)
    ensures a == x
  {
    assert NotNewer(attempts, a, x) && NotNewer(attempts, x, a);
  }

  lemma SameClosing(t: InvoiceTables, m: InvoiceTables, n: InvoiceTables, ar: Ledger, q: Id, status: RequestStatus)
    requires q in t.requests && ClosedAs(t, m, ar, q, status) && n.requests == m.requests
    ensures ClosedAs(t, n, ar, q, status)
  {
  }

  /** The newest attempt of the request failed for good on the tax channel, as its provider reported. */
  ghost predicate FailedFor(t: InvoiceTables, q: Id, a: Id, provider: Id) {
    && IsLast(t.attempts, q, a)
    && var row := t.attempts[a];
    && row.status == AttemptFailed && row.channel == TaxAdapter && 0 < row.sequence && row.reported && row.provider == provider
  }

  predicate ConflictOn(t: InvoiceTables, a: Id) {
    exists e :: e in t.inbox && t.inbox[e].verdict == ProviderConflict && !t.inbox[e].callback.redFlush && t.inbox[e].callback.attempt == a
  }

  /** A failed request is recovered if and only if another user asks at its version and its newest attempt is a
      reported failure without a conflicting result; that nothing was issued follows. */
  lemma RecoverAcceptedIff(b: Books, q: Id, version: int, user: Id, provider: Id)
    requires InvoiceInv(b.inv, b.ar)
    ensures RecoverRequest(b, q, version, user, provider).Done? <==>
      && q in b.inv.requests && b.inv.requests[q].status == IssueFailed && b.inv.requests[q].version == version && b.inv.requests[q].applicant != user
      && exists a :: FailedFor(b.inv, q, a, provider) && !ConflictOn(b.inv, a)
  {
    hide ConflictOn;
    forall i | i in b.inv.invoices ensures q in b.inv.requests && b.inv.requests[q].status == IssueFailed ==> b.inv.invoices[i].request != q {
      assert InvoiceSound(b.inv, i);
    }
    var last := LastAttempt(b.inv.attempts, q);
    if last.Some? { ConflictOnIs(b.inv, last.value); }
    if a :| FailedFor(b.inv, q, a, provider) && !ConflictOn(b.inv, a) {
      LastOf(b.inv.attempts, a);
      OneNewest(b.inv.attempts, a, LastAttempt(b.inv.attempts, q).value);
    }
    if RecoverRequest(b, q, version, user, provider).Done? { assert FailedFor(b.inv, q, last.value, provider); }
  }

  lemma ConflictOnIs(t: InvoiceTables, a: Id)
    ensures ConflictOn(t, a) <==>
      exists e :: e in t.inbox && t.inbox[e].verdict == ProviderConflict && !t.inbox[e].callback.redFlush && t.inbox[e].callback.attempt == a
  {
  }

  /** A recovered request waits for approval again and keeps its reservations. */
  lemma RecoveryOutcome(b: Books, q: Id, version: int, user: Id, provider: Id)
    requires RecoverRequest(b, q, version, user, provider).Done?
    ensures q in b.inv.requests && b.inv.requests[q].status == IssueFailed && b.inv.requests[q].version == version && b.inv.requests[q].applicant != user
    ensures RecoverRequest(b, q, version, user, provider).value ==
      b.(inv := b.inv.(requests := b.inv.requests[q := b.inv.requests[q].(status := Submitted, version := version + 1)]))
  {
  }

  predicate NeverAccepted(t: InvoiceTables, a: Id)
    requires a in t.attempts
  {
    var row := t.attempts[a];
    && !row.accepted && row.status in {AttemptPending, AttemptFailed}
    && (row.command.Some? ==> row.command.value in t.commands && t.commands[row.command.value].status == CommandDeadLetter)
  }

  predicate Invoiceless(t: InvoiceTables, q: Id) {
    forall i :: i in t.invoices ==> t.invoices[i].request != q
  }

  /** A cancellation is accepted if and only if the request is pending or failed at that version, another
      user asks, nothing was issued, no conflicting result is filed, and the provider provably never
      accepted the newest attempt. */
  lemma CancelAcceptedIff(b: Books, q: Id, version: int, user: Id)
    ensures CancelRequest(b, q, version, user).Done? <==>
      && q in b.inv.requests && b.inv.requests[q].status in {IssuePending, IssueFailed} && b.inv.requests[q].version == version
      && b.inv.requests[q].applicant != user && Invoiceless(b.inv, q) && !HasConflict(b.inv, q)
      && forall a :: a in b.inv.attempts && IsLast(b.inv.attempts, q, a) ==> NeverAccepted(b.inv, a)
  {
    hide HasConflict;
    forall a | a in b.inv.attempts && IsLast(b.inv.attempts, q, a) ensures LastAttempt(b.inv.attempts, q) == Some(a) {
      LastOf(b.inv.attempts, a);
      OneNewest(b.inv.attempts, a, LastAttempt(b.inv.attempts, q).value);
    }
  }

  // ---------- an invoice is issued

  /** The invoice mark that an invoiced amount stands for. */
  function MarkOf(invoiced: int, original: int): InvoiceMark {
    if invoiced == 0 then NotInvoiced else if invoiced >= original then FullyInvoiced else PartiallyInvoiced
  }

  /** Every reserved line becomes an invoiced one, and the receivables rise by exactly the lines. */
  ghost predicate LinesInvoiced(b: Books, n: Books, q: Id) {
    && q in b.inv.requests && q in n.inv.requests
    && var lines, after := b.inv.requests[q].lines, n.inv.requests[q].lines;
    && after.Keys == lines.Keys
    && (forall r :: r in lines ==> after[r] == lines[r].(invoiced := lines[r].reserved, status := Invoiced))
    && n.ar.Keys == b.ar.Keys
    && (forall r :: r in b.ar && r in lines ==>
          var next := b.ar[r].invoiced + lines[r].reserved; n.ar[r] == b.ar[r].(invoiced := next, mark := MarkOf(next, b.ar[r].original)))
    && (forall r :: r in b.ar && r !in lines ==> n.ar[r] == b.ar[r])
  }

  lemma FinalizeInvoices(b: Books, q: Id, n: Books)
    requires InvoiceInv(b.inv, b.ar) && q in b.inv.requests && LineStatus(b.inv.requests[q].status) == Reserved
    requires q in n.inv.requests && n.inv.requests[q].lines == FinalizeAll(b.inv.requests[q].lines) && n.ar == IssueLines(b.ar, b.inv.requests[q].lines)
    ensures LinesInvoiced(b, n, q)
  {
    hide InvoiceInv;
    forall r | r in b.inv.requests[q].lines ensures ReservedLine(b, q, r) { LineIsReserved(b, q, r); }
  }

  predicate ReservedLine(b: Books, q: Id, r: Id) {
    && q in b.inv.requests && r in b.inv.requests[q].lines && r in b.ar && 0 <= b.ar[r].invoiced
    && b.inv.requests[q].lines[r].status == Reserved && 0 < b.inv.requests[q].lines[r].reserved
  }

  lemma LineIsReserved(b: Books, q: Id, r: Id)
    requires InvoiceInv(b.inv, b.ar) && q in b.inv.requests && LineStatus(b.inv.requests[q].status) == Reserved && r in b.inv.requests[q].lines
    ensures ReservedLine(b, q, r)
  {
    assert RequestSound(b.inv, b.ar, q);
    assert LineSound(b.inv.redRequests, b.inv.requests[q], r);
    assert CapacitySound(b.inv.requests, b.ar, r);
    PartOfTotals(b.inv, b.ar, q, r);
  }

  /** A paper invoice is registered if and only if the request is pending with a pending manual attempt and
      the id is unused; it has the header of the request and no lines. */
  lemma ManualOutcome(b: Books, q: Id, id: Id)
    requires InvoiceInv(b.inv, b.ar)
    ensures RegisterManual(b, q, id).Done? <==>
      && q in b.inv.requests && b.inv.requests[q].status == IssuePending && id !in b.inv.invoices
      && exists a :: a in b.inv.attempts && ManualPendingFor(b.inv, a, q)
    ensures RegisterManual(b, q, id).Done? ==>
      var n := RegisterManual(b, q, id).value; var bill := b.inv.requests[q].bill;
      && n.inv.invoices == b.inv.invoices[id := Invoice(q, InvoiceIssued, Bill(bill.net, bill.tax, bill.gross, []), None)]
      && q in n.inv.requests && n.inv.requests[q].status == Issued && LinesInvoiced(b, n, q)
  {
    if q in b.inv.requests { assert RequestSound(b.inv, b.ar, q); }
    if RegisterManual(b, q, id).Done? { FinalizeInvoices(b, q, RegisterManual(b, q, id).value); }
  }

  /** The report carries the identity of an attempt on the tax channel and is news to it. */
  predicate FreshReport(t: InvoiceTables, e: Callback) {
    && e.attempt in t.attempts && t.attempts[e.attempt].channel == TaxAdapter && e.externalRequest == e.attempt
    && e.provider == t.attempts[e.attempt].provider && t.attempts[e.attempt].sequence < e.sequence
  }

  /** An issue report is applied if and only if it is fresh, its attempt is live, a failure says why, and an
      issued result repeats the bill of the request under an unused invoice id. */
  lemma IssueAppliedIff(b: Books, e: Callback, id: Id)
    requires InvoiceInv(b.inv, b.ar)
    ensures (ApplyIssueCallback(b, e, id).Done? && ApplyIssueCallback(b, e, id).value.verdict == Applied) <==>
      && FreshReport(b.inv, e) && Live(b.inv.attempts[e.attempt].status)
      && (e.kind == ReportFailed ==> e.failureCode)
      && (e.kind == ReportIssued ==>
            && b.inv.attempts[e.attempt].request in b.inv.requests && e.bill == b.inv.requests[b.inv.attempts[e.attempt].request].bill
            && id !in b.inv.invoices)
  {
    hide IssueInvoice, ReportOn, RaiseSequence;
    if e.attempt in b.inv.attempts {
      assert AttemptSound(b.inv, e.attempt) && RequestSound(b.inv, b.ar, b.inv.attempts[e.attempt].request);
    }
  }

  /** What an applied issue report leaves behind. */
  lemma IssueOutcome(b: Books, e: Callback, id: Id)
    requires InvoiceInv(b.inv, b.ar) && ApplyIssueCallback(b, e, id).Done? && ApplyIssueCallback(b, e, id).value.verdict == Applied
    ensures FreshReport(b.inv, e) && b.inv.attempts[e.attempt].request in b.inv.requests
    ensures var n, q := ApplyIssueCallback(b, e, id).value.books, b.inv.attempts[e.attempt].request;
      && n.inv.attempts == b.inv.attempts[e.attempt := b.inv.attempts[e.attempt].(
           status := match e.kind case ReportIssued => AttemptIssued case ReportFailed => AttemptFailed case ReportUnknown => AttemptUnknown,
           sequence := e.sequence, reported := true)]
      && q in n.inv.requests
      && n.inv.requests[q].status == (match e.kind case ReportIssued => Issued case ReportFailed => IssueFailed case ReportUnknown => IssueUnknown)
      && (if e.kind == ReportIssued
          then n.inv.invoices == b.inv.invoices[id := Invoice(q, InvoiceIssued, e.bill, None)] && LinesInvoiced(b, n, q)
          else n.inv.invoices == b.inv.invoices && n.ar == b.ar && n.inv.requests[q].lines == b.inv.requests[q].lines)
  {
    hide ApplyIssueCallback, LinesInvoiced;
    IssueAppliedIff(b, e, id);
    var q := b.inv.attempts[e.attempt].request;
    assert AttemptSound(b.inv, e.attempt);
    IssueCallbackResult(b, e, id);
    if e.kind == ReportIssued { FinalizeInvoices(b, q, IssueInvoice(b, e.attempt, e.sequence, id)); }
  }

  /** A success reported for an attempt that ended without one is filed as a conflict, and from then on the
      request can neither be attempted again nor cancelled. */
  lemma LateSuccessBlocks(b: Books, e: Callback, id: Id)
    requires InvoiceInv(b.inv, b.ar) && !e.redFlush && e.kind == ReportIssued && e.event !in b.inv.inbox && FreshReport(b.inv, e)
    requires b.inv.attempts[e.attempt].status in {AttemptFailed, AttemptAbandoned}
    requires var q := b.inv.attempts[e.attempt].request; q in b.inv.requests && b.inv.requests[q].status != Issued
    ensures ApplyCallback(b, e, id).Done?
    ensures var n, q := ApplyCallback(b, e, id).value, b.inv.attempts[e.attempt].request;
      && e.event in n.inv.inbox && n.inv.inbox[e.event] == InboxRow(e, ProviderConflict)
      && n.inv.requests == b.inv.requests && n.inv.invoices == b.inv.invoices && n.ar == b.ar
      && (forall i :: q in n.inv.requests ==> CreateAttempt(n, q, i).Refused?)
      && (forall version, user :: CancelRequest(n, q, version, user).Refused?)
  {
    hide IssueInvoice, ReportOn, CancelRequest, HasConflict, ApplyRedCallback;
    assert AttemptSound(b.inv, e.attempt);
    var n, q := ApplyCallback(b, e, id).value, b.inv.attempts[e.attempt].request;
    ConflictFiled(n.inv, e.event, q);
    forall version, user ensures CancelRequest(n, q, version, user).Refused? { CancelAcceptedIff(n, q, version, user); }
  }

  lemma ConflictFiled(t: InvoiceTables, e: Id, q: Id)
    requires e in t.inbox && t.inbox[e].verdict == ProviderConflict && !t.inbox[e].callback.redFlush
    requires t.inbox[e].callback.attempt in t.attempts && t.attempts[t.inbox[e].callback.attempt].request == q
    ensures HasConflict(t, q)
  {
  }

  // ---------- red flush

  /** Every standing line is taken back under the named red flush, and the receivables fall by exactly what
      stood. */
  ghost predicate LinesTakenBack(b: Books, n: Books, q: Id, red: Id) {
    && q in b.inv.requests && q in n.inv.requests
    && var lines, after := b.inv.requests[q].lines, n.inv.requests[q].lines;
    && n.inv.requests == b.inv.requests[q := b.inv.requests[q].(lines := after)]
    && after.Keys == lines.Keys
    && (forall r :: r in lines ==> after[r] == if lines[r].reversals == map[] then lines[r].(reversals := map[red := lines[r].invoiced]) else lines[r])
    && n.ar.Keys == b.ar.Keys
    && (forall r :: r in b.ar && r in lines && lines[r].reversals == map[] ==>
          var next := b.ar[r].invoiced - lines[r].invoiced; n.ar[r] == b.ar[r].(invoiced := next, mark := MarkOf(next, b.ar[r].original)))
    && (forall r :: r in b.ar && (r in lines ==> lines[r].reversals != map[]) ==> n.ar[r] == b.ar[r])
  }

  predicate InvoicedLine(b: Books, q: Id, r: Id, red: Id) {
    && q in b.inv.requests && r in b.inv.requests[q].lines && r in b.ar
    && var l := b.inv.requests[q].lines[r];
    && l.status == Invoiced && red !in l.reversals
    && (l.reversals == map[] ==> l.invoiced <= b.ar[r].invoiced)
  }

  lemma LineIsInvoiced(b: Books, q: Id, r: Id, red: Id)
    requires InvoiceInv(b.inv, b.ar) && q in b.inv.requests && b.inv.requests[q].status == Issued && r in b.inv.requests[q].lines
    requires red in b.inv.redRequests && b.inv.redRequests[red].relation.None?
    ensures InvoicedLine(b, q, r, red)
  {
    assert RequestSound(b.inv, b.ar, q);
    assert LineSound(b.inv.redRequests, b.inv.requests[q], r);
    assert CapacitySound(b.inv.requests, b.ar, r);
    PartOfTotals(b.inv, b.ar, q, r);
  }

  lemma TakenLine(b: Books, q: Id, r: Id, red: Id)
    requires InvoicedLine(b, q, r, red)
    ensures var l := b.inv.requests[q].lines[r];
      && (l.reversals.Keys <= {red} <==> l.reversals == map[])
      && TakeBack(l, red) == if l.reversals == map[] then l.(reversals := map[red := l.invoiced]) else l
  {
    var l := b.inv.requests[q].lines[r];
    if l.reversals.Keys <= {red} { assert l.reversals.Keys == {}; }
    if l.reversals == map[] { assert l.reversals[red := l.invoiced] == map[red := l.invoiced]; }
  }

  lemma Decremented(row: Receivable, amount: int)
    requires amount <= row.invoiced
    ensures DecrementInvoiced(row, amount) == row.(invoiced := row.invoiced - amount, mark := MarkOf(row.invoiced - amount, row.original))
  {
  }

  lemma LedgerFalls(b: Books, q: Id, red: Id)
    requires q in b.inv.requests && forall r :: r in b.inv.requests[q].lines ==> InvoicedLine(b, q, r, red)
    ensures var lines := b.inv.requests[q].lines; var n := FlushLines(b.ar, lines, red);
      && n.Keys == b.ar.Keys
      && (forall r :: r in b.ar && r in lines && lines[r].reversals == map[] ==>
            var next := b.ar[r].invoiced - lines[r].invoiced; n[r] == b.ar[r].(invoiced := next, mark := MarkOf(next, b.ar[r].original)))
      && (forall r :: r in b.ar && (r in lines ==> lines[r].reversals != map[]) ==> n[r] == b.ar[r])
  {
    hide DecrementInvoiced;
    var lines := b.inv.requests[q].lines;
    forall r | r in lines ensures lines[r].reversals.Keys <= {red} <==> lines[r].reversals == map[] {
      assert InvoicedLine(b, q, r, red);
      TakenLine(b, q, r, red);
    }
    forall r | r in lines && lines[r].reversals == map[]
      ensures DecrementInvoiced(b.ar[r], lines[r].invoiced)
           == b.ar[r].(invoiced := b.ar[r].invoiced - lines[r].invoiced, mark := MarkOf(b.ar[r].invoiced - lines[r].invoiced, b.ar[r].original))
    {
      assert InvoicedLine(b, q, r, red);
      Decremented(b.ar[r], lines[r].invoiced);
    }
  }

  lemma TakeBackTakes(b: Books, q: Id, red: Id, n: Books)
    requires q in b.inv.requests && forall r :: r in b.inv.requests[q].lines ==> InvoicedLine(b, q, r, red)
    requires n.inv.requests == b.inv.requests[q := b.inv.requests[q].(lines := TakeBackAll(b.inv.requests[q].lines, red))]
    requires n.ar == FlushLines(b.ar, b.inv.requests[q].lines, red)
    ensures LinesTakenBack(b, n, q, red)
  {
    hide TakeBack, FlushLines;
    var lines := b.inv.requests[q].lines;
    LedgerFalls(b, q, red);
    forall r | r in lines
      ensures lines[r].reversals.Keys <= {red} <==> lines[r].reversals == map[]
      ensures TakeBack(lines[r], red) == if lines[r].reversals == map[] then lines[r].(reversals := map[red := lines[r].invoiced]) else lines[r]
    {
      assert InvoicedLine(b, q, r, red);
      TakenLine(b, q, r, red);
    }
  }

  /** What an applied red-flush result leaves behind: the original is flushed, the red invoice has its header
      and the request's lines with the sign turned, the named request is linked to it, and every line that
      still stood is taken back. */
  lemma FlushOutcome(b: Books, e: Callback, id: Id)
    requires InvoiceInv(b.inv, b.ar) && ApplyRedCallback(b, e, id).Done? && ApplyRedCallback(b, e, id).value.verdict == Applied && e.kind == ReportIssued
    ensures e.attempt in b.inv.redAttempts && b.inv.redAttempts[e.attempt].invoice in b.inv.invoices && NamedRed(b.inv, e) in b.inv.redRequests
    ensures b.inv.invoices[b.inv.redAttempts[e.attempt].invoice].request in b.inv.requests
    ensures var n, x, f := ApplyRedCallback(b, e, id).value.books, b.inv.redAttempts[e.attempt], NamedRed(b.inv, e);
      var o := b.inv.invoices[x.invoice]; var lines := b.inv.requests[o.request].bill.lines;
      && id !in b.inv.invoices && id in n.inv.invoices
      && n.inv.invoices == b.inv.invoices[x.invoice := o.(status := InvoiceRedFlushed)][id := n.inv.invoices[id]]
      && var red := n.inv.invoices[id];
      && red.request == o.request && red.status == InvoiceIssued && red.redOf == Some(x.invoice)
      && red.bill.net == -o.bill.net && red.bill.tax == -o.bill.tax && red.bill.gross == -o.bill.gross
      && |red.bill.lines| == |lines|
      && (forall k :: 0 <= k < |lines| ==> red.bill.lines[k] == Line(-lines[k].net, -lines[k].tax, -lines[k].gross))
      && n.inv.redRequests == b.inv.redRequests[f := b.inv.redRequests[f].(
           status := RedFlushed, version := b.inv.redRequests[f].version + 1, relation := Some(id))]
      && n.inv.redAttempts == b.inv.redAttempts[e.attempt := x.(status := AttemptIssued, sequence := e.sequence)]
      && LinesTakenBack(b, n, o.request, f)
  {
    hide LinesTakenBack, TakeBackAll, FlushLines, RedReportOn;
    var x, f := b.inv.redAttempts[e.attempt], NamedRed(b.inv, e);
    assert InvoiceSound(b.inv, x.invoice);
    var q := b.inv.invoices[x.invoice].request;
    forall r | r in b.inv.requests[q].lines ensures InvoicedLine(b, q, r, f) { LineIsInvoiced(b, q, r, f); }
    TakeBackTakes(b, q, f, ApplyRedCallback(b, e, id).value.books);
  }

  /** An applied unknown or failed red-flush report moves its attempt and the named request, and nothing else. */
  lemma RedReportOutcome(b: Books, e: Callback, id: Id)
    requires ApplyRedCallback(b, e, id).Done? && ApplyRedCallback(b, e, id).value.verdict == Applied && e.kind != ReportIssued
    ensures e.attempt in b.inv.redAttempts
    ensures var n, x, f := ApplyRedCallback(b, e, id).value.books, b.inv.redAttempts[e.attempt], NamedRed(b.inv, e);
      var unknown := e.kind == ReportUnknown;
      && n == b.(inv := b.inv.(redAttempts := n.inv.redAttempts, redRequests := n.inv.redRequests))
      && n.inv.redAttempts == b.inv.redAttempts[e.attempt := x.(status := if unknown then AttemptUnknown else AttemptFailed, sequence := e.sequence)]
      && n.inv.redRequests ==
           if f in b.inv.redRequests
           then b.inv.redRequests[f := b.inv.redRequests[f].(
                  status := if unknown then RedUnknown else RedFailed, version := b.inv.redRequests[f].version + 1)]
           else b.inv.redRequests
  {
    hide FlushInvoice;
  }

  lemma OpenOrClosed(s: RedStatus)
    ensures s in {RedRejected, RedFailed, RedFlushed} <==> s !in {RedSubmitted, RedPending, RedUnknown}
  {
    match s
    case RedSubmitted =>
    case RedRejected =>
    case RedPending =>
    case RedUnknown =>
    case RedFailed =>
    case RedFlushed =>
  }

  /** A red flush is requested if and only if the invoice is issued and has no open red flush. */
  lemma RedRequestOutcome(b: Books, id: Id, invoice: Id, user: Id)
    ensures RequestRedFlush(b, id, invoice, user).Done? <==>
      && invoice in b.inv.invoices && b.inv.invoices[invoice].status == InvoiceIssued && id !in b.inv.redRequests
      && forall x :: x in b.inv.redRequests && b.inv.redRequests[x].invoice == invoice ==>
           b.inv.redRequests[x].status in {RedRejected, RedFailed, RedFlushed}
    ensures RequestRedFlush(b, id, invoice, user).Done? ==>
      RequestRedFlush(b, id, invoice, user).value ==
        b.(inv := b.inv.(redRequests := b.inv.redRequests[id := RedRequest(invoice, RedSubmitted, 1, user, NOBODY, None)]))
  {
    var t := b.inv;
    forall x | x in t.redRequests
      ensures t.redRequests[x].status in {RedRejected, RedFailed, RedFlushed} <==> t.redRequests[x].status !in {RedSubmitted, RedPending, RedUnknown}
    {
      OpenOrClosed(t.redRequests[x].status);
    }
  }

  /** A submitted red flush is decided by anyone but its applicant at its version; an approval needs the tax
      channel and unused ids. */
  lemma RedReviewAcceptedIff(b: Books, id: Id, version: int, user: Id, approve: bool, i: AttemptInput)
    requires id in b.inv.redRequests && b.inv.redRequests[id].status == RedSubmitted
    ensures ReviewRedFlush(b, id, version, user, approve, i).Done? <==>
      && b.inv.redRequests[id].version == version && b.inv.redRequests[id].requestedBy != user
      && (approve ==> i.channel == TaxAdapter && i.id !in b.inv.redAttempts && i.command !in b.inv.commands)
  {
  }

  /** A reviewer other than the applicant rejects the red flush, or opens its one attempt on the tax channel. */
  lemma RedReviewOutcome(b: Books, id: Id, version: int, user: Id, approve: bool, i: AttemptInput)
    requires ReviewRedFlush(b, id, version, user, approve, i).Done? && id in b.inv.redRequests && b.inv.redRequests[id].status == RedSubmitted
    ensures var f, n := b.inv.redRequests[id], ReviewRedFlush(b, id, version, user, approve, i).value;
      && f.requestedBy != user && f.version == version
      && n == b.(inv := b.inv.(redRequests := n.inv.redRequests, redAttempts := n.inv.redAttempts, commands := n.inv.commands))
      && n.inv.redRequests == b.inv.redRequests[id := f.(status := if approve then RedPending else RedRejected, reviewedBy := user, version := version + 1)]
      && (if approve
          then n.inv.redAttempts == b.inv.redAttempts[i.id := RedAttempt(id, f.invoice, i.provider, AttemptPending, false, 0, Some(i.command))]
               && n.inv.commands == b.inv.commands[i.command := Command(true, i.id, CommandPending)]
          else n.inv.redAttempts == b.inv.redAttempts && n.inv.commands == b.inv.commands)
  {
  }

  // ---------- the invoice mark

  /** Whatever the transaction, an invoiced amount that changes takes the mark with it, and one that stays
      leaves the whole receivable as it was. */
  ghost predicate MarksFollow(b: Books, n: Books) {
    forall r :: r in b.ar ==>
      r in n.ar && if n.ar[r].invoiced == b.ar[r].invoiced then n.ar[r] == b.ar[r]
                   else n.ar[r] == b.ar[r].(invoiced := n.ar[r].invoiced, mark := MarkOf(n.ar[r].invoiced, b.ar[r].original))
  }

  lemma IssuedMarks(b: Books, n: Books, q: Id)
    requires InvoiceInv(b.inv, b.ar) && q in b.inv.requests && LineStatus(b.inv.requests[q].status) == Reserved && LinesInvoiced(b, n, q)
    ensures MarksFollow(b, n)
  {
    hide InvoiceInv;
    forall r | r in b.inv.requests[q].lines ensures ReservedLine(b, q, r) { LineIsReserved(b, q, r); }
  }

  lemma FlushedMarks(b: Books, n: Books, q: Id, red: Id)
    requires InvoiceInv(b.inv, b.ar) && q in b.inv.requests && LinesTakenBack(b, n, q, red)
    requires forall r :: r in b.inv.requests[q].lines ==> 0 < b.inv.requests[q].lines[r].invoiced
    ensures MarksFollow(b, n)
  {
    hide InvoiceInv;
  }

  lemma CallbackMarks(b: Books, e: Callback, id: Id)
    requires InvoiceInv(b.inv, b.ar) && ApplyCallback(b, e, id).Done?
    ensures MarksFollow(b, ApplyCallback(b, e, id).value)
  {
    hide ApplyIssueCallback, ApplyRedCallback, LinesInvoiced, LinesTakenBack, MarksFollow;
    SameMarks(b, b);
    if e.event !in b.inv.inbox {
      if e.redFlush { RedMarks(b, e, id); } else { IssueMarks(b, e, id); }
      var m := if e.redFlush then ApplyRedCallback(b, e, id).value.books else ApplyIssueCallback(b, e, id).value.books;
      MarksOnLedger(b, m, ApplyCallback(b, e, id).value);
    }
  }

  lemma SameMarks(b: Books, n: Books)
    requires n.ar == b.ar
    ensures MarksFollow(b, n)
  {
  }

  lemma MarksOnLedger(b: Books, m: Books, n: Books)
    requires MarksFollow(b, m) && n.ar == m.ar
    ensures MarksFollow(b, n)
  {
  }

  lemma IssueMarks(b: Books, e: Callback, id: Id)
    requires InvoiceInv(b.inv, b.ar) && ApplyIssueCallback(b, e, id).Done?
    ensures MarksFollow(b, ApplyIssueCallback(b, e, id).value.books)
  {
    hide LinesInvoiced, MarksFollow, IssueInvoice;
    var n := ApplyIssueCallback(b, e, id).value;
    if n.verdict == Applied {
      IssueOutcome(b, e, id);
      assert AttemptSound(b.inv, e.attempt);
      if e.kind == ReportIssued {
        IssueAppliedIff(b, e, id);
        IssuedMarks(b, n.books, b.inv.attempts[e.attempt].request);
      } else { SameMarks(b, n.books); }
    } else {
      SameMarks(b, n.books);
    }
  }

  lemma RedMarks(b: Books, e: Callback, id: Id)
    requires InvoiceInv(b.inv, b.ar) && ApplyRedCallback(b, e, id).Done?
    ensures MarksFollow(b, ApplyRedCallback(b, e, id).value.books)
  {
    hide LinesTakenBack, MarksFollow, FlushInvoice;
    var n := ApplyRedCallback(b, e, id).value;
    if n.verdict == Applied && e.kind == ReportIssued {
      FlushOutcome(b, e, id);
      var q := b.inv.invoices[b.inv.redAttempts[e.attempt].invoice].request;
      assert InvoiceSound(b.inv, b.inv.redAttempts[e.attempt].invoice) && RequestSound(b.inv, b.ar, q);
      forall r | r in b.inv.requests[q].lines ensures 0 < b.inv.requests[q].lines[r].invoiced { assert LineSound(b.inv.redRequests, b.inv.requests[q], r); }
      FlushedMarks(b, n.books, q, NamedRed(b.inv, e));
    } else {
      SameMarks(b, n.books);
    }
  }

  lemma MarksAlwaysFollow(b: Books, c: InvoiceCmd)
    requires Inv(b) && InvoiceTransaction(b, c).Done?
    ensures MarksFollow(b, InvoiceTransaction(b, c).value)
  {
    hide MarksFollow, LinesInvoiced, CreateRequest, ApproveRequest, RejectRequest, ReviewSpecial, CancelRequest, RecoverRequest, RegisterManual,
      ApplyCallback, MoveCommand, RetryOutbox, RetryDeadLetter, RequestRedFlush, ReviewRedFlush;
    var n := InvoiceTransaction(b, c).value;
    match c
    case CallbackCmd(e, id) => CallbackMarks(b, e, id);
    case RegisterManualCmd(q, id) => ManualOutcome(b, q, id); IssuedMarks(b, n, q);
    case CreateRequestCmd(i) => RequestReserves(b, i); SameMarks(b, n);
    case _ =>
      if c.ApproveCmd? || c.ReviewSpecialCmd? || c.RejectCmd? || c.CancelCmd? || c.RecoverCmd? { ReviewFrame(b, c); } else { OtherFrame(b, c); }
      SameMarks(b, n);
  }

  // ---------- commands

  /** A delivered command makes its pending attempt an accepted one, for good. */
  lemma DeliveryOutcome(b: Books, c: Id)
    requires MoveCommand(b, c, CommandDelivered).Done? && c in b.inv.commands && !b.inv.commands[c].redFlush
    ensures var n, a := MoveCommand(b, c, CommandDelivered).value, b.inv.commands[c].attempt;
      && n == b.(inv := b.inv.(commands := b.inv.commands[c := b.inv.commands[c].(status := CommandDelivered)], attempts := n.inv.attempts))
      && (if a in b.inv.attempts && b.inv.attempts[a].status == AttemptPending
          then n.inv.attempts == b.inv.attempts[a := b.inv.attempts[a].(status := AttemptAccepted, accepted := true)]
          else n.inv.attempts == b.inv.attempts)
  {
  }

  /** Once the provider accepted the newest attempt, its request cannot be cancelled. */
  lemma AcceptedBlocksCancel(b: Books, a: Id, version: int, user: Id)
    requires a in b.inv.attempts && b.inv.attempts[a].accepted && Newest(b.inv.attempts, a)
    ensures CancelRequest(b, b.inv.attempts[a].request, version, user).Refused?
  {
    hide CancelRequest;
    assert IsLast(b.inv.attempts, b.inv.attempts[a].request, a);
    CancelAcceptedIff(b, b.inv.attempts[a].request, version, user);
  }

  /** In sound tables a dead issue command may be retried if and only if its own attempt is still pending and was
      never accepted; that the request waits for it and that no newer attempt exists follows. */
  lemma DeadLetterRetriedIff(b: Books, c: Id)
    requires InvoiceInv(b.inv, b.ar) && c in b.inv.commands && !b.inv.commands[c].redFlush
    ensures RetryDeadLetter(b, c).Done? <==>
      && b.inv.commands[c].status == CommandDeadLetter && b.inv.commands[c].attempt in b.inv.attempts
      && var a := b.inv.attempts[b.inv.commands[c].attempt];
      && a.status == AttemptPending && !a.accepted && a.command == Some(c)
    ensures RetryDeadLetter(b, c).Done? ==>
      RetryDeadLetter(b, c).value == b.(inv := b.inv.(commands := b.inv.commands[c := b.inv.commands[c].(status := CommandPending)]))
  {
    var a := b.inv.commands[c].attempt;
    if a in b.inv.attempts {
      assert AttemptSound(b.inv, a);
      if Live(b.inv.attempts[a].status) {
        forall x | x in b.inv.attempts && b.inv.attempts[x].request == b.inv.attempts[a].request
          ensures b.inv.attempts[x].number <= b.inv.attempts[a].number
        {
          assert NotNewer(b.inv.attempts, x, a);
        }
      }
    }
  }
}
