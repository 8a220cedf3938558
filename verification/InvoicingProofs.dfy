/** Every invoice transaction keeps the invoicing invariant. */
module InvoicingProofs {
  import opened Tables
  import opened Totals
  import opened Billing
  import opened Invoicing

  // ---------- totals after one request changes

  lemma TotalsAfter(requests: map<Id, Request>, q: Id, row: Request, r: Id)
    ensures ReservedTotal(requests[q := row], r)
         == ReservedTotal(requests, r) + OutstandingOn(row, r) - (if q in requests then OutstandingOn(requests[q], r) else 0)
    ensures InvoicedTotal(requests[q := row], r)
         == InvoicedTotal(requests, r) + StandingOn(row, r) - (if q in requests then StandingOn(requests[q], r) else 0)
  {
    hide OutstandingOn, StandingOn;
    var next := requests[q := row];
    var reserved := map x | x in requests :: OutstandingOn(requests[x], r);
    var invoiced := map x | x in requests :: StandingOn(requests[x], r);
    assert (map x | x in next :: OutstandingOn(next[x], r)) == reserved[q := OutstandingOn(row, r)];
    assert (map x | x in next :: StandingOn(next[x], r)) == invoiced[q := StandingOn(row, r)];
    TotalSet(reserved, q, OutstandingOn(row, r));
    TotalSet(invoiced, q, StandingOn(row, r));
  }

  /** What one request holds of a receivable is part of the receivable's totals. */
  lemma PartOfTotals(t: InvoiceTables, ar: Ledger, q: Id, r: Id)
    requires InvoiceInv(t, ar) && q in t.requests
    ensures 0 <= StandingOn(t.requests[q], r) <= InvoicedTotal(t.requests, r)
    ensures 0 <= OutstandingOn(t.requests[q], r) <= ReservedTotal(t.requests, r)
  {
    var reserved := map x | x in t.requests :: OutstandingOn(t.requests[x], r);
    var invoiced := map x | x in t.requests :: StandingOn(t.requests[x], r);
    forall x | x in t.requests ensures 0 <= reserved[x] && 0 <= invoiced[x] {
      assert RequestSound(t, ar, x);
    }
    TotalNonNegative(reserved);
    TotalNonNegative(invoiced);
    assert q in reserved && q in invoiced;
  }

  // ---------- frames

  /** Inbox and command rows take no part in the invariant. */
  lemma SameTables(t: InvoiceTables, n: InvoiceTables, ar: Ledger)
    requires InvoiceInv(t, ar)
    requires n.requests == t.requests && n.attempts == t.attempts && n.invoices == t.invoices
    requires n.redRequests == t.redRequests && n.redAttempts == t.redAttempts
    ensures InvoiceInv(n, ar)
  {
    forall q | q in n.requests ensures RequestSound(n, ar, q) { assert RequestSound(t, ar, q); }
    forall a | a in n.attempts ensures AttemptSound(n, a) { assert AttemptSound(t, a); }
    forall i | i in n.invoices ensures InvoiceSound(n, i) { assert InvoiceSound(t, i); }
    forall r | r in ar ensures CapacitySound(n.requests, ar, r) { assert CapacitySound(t.requests, ar, r); }
    forall x | x in n.redAttempts ensures RedAttemptSound(n, x) { assert RedAttemptSound(t, x); }
    forall x | x in n.redRequests ensures RedRequestSound(n, x) { assert RedRequestSound(t, x); }
  }

  lemma OtherRequestKeeps(t: InvoiceTables, n: InvoiceTables, ar: Ledger, nar: Ledger, x: Id)
    requires x in t.requests && RequestSound(t, ar, x) && x in n.requests && n.requests[x] == t.requests[x]
    requires forall r :: r in ar ==> r in nar
    requires forall k :: k in t.redRequests && t.redRequests[k].relation.Some? ==>
               k in n.redRequests && n.redRequests[k].relation.Some?
    requires forall a :: LiveFor(t.attempts, a, x) ==> LiveFor(n.attempts, a, x)
    requires forall i :: BlueFor(t.invoices, i, x) ==> BlueFor(n.invoices, i, x)
    ensures RequestSound(n, nar, x)
  {
  }

  /** A row of another request keeps its attempt facts when its own rows do not move. */
  lemma OtherAttemptKeeps(t: InvoiceTables, n: InvoiceTables, a: Id)
    requires a in t.attempts && AttemptSound(t, a) && a in n.attempts
    requires n.attempts[a].request == t.attempts[a].request && n.attempts[a].number == t.attempts[a].number
    requires Live(n.attempts[a].status) ==> n.attempts[a].status == t.attempts[a].status
    requires forall x :: x in n.attempts ==>
               || (x in t.attempts && n.attempts[x].request == t.attempts[x].request && n.attempts[x].number == t.attempts[x].number)
               || n.attempts[x].request != t.attempts[a].request
    requires t.attempts[a].request in n.requests
    requires Live(n.attempts[a].status) ==> n.requests[t.attempts[a].request].status == t.requests[t.attempts[a].request].status
    ensures AttemptSound(n, a)
  {
    if Live(n.attempts[a].status) {
      forall x | x in n.attempts && n.attempts[x].request == n.attempts[a].request ensures NotNewer(n.attempts, x, a) {
        assert NotNewer(t.attempts, x, a);
      }
    }
  }

  /** Only the lines and status of one unissued request change; invoices, red rows and the
      ledger stay. The new lines must be sound, hold no more than before and have nothing standing. */
  lemma RequestStepKeeps(t: InvoiceTables, n: InvoiceTables, ar: Ledger, q: Id)
    requires InvoiceInv(t, ar) && q in t.requests
    requires q in n.requests && n.requests == t.requests[q := n.requests[q]]
    requires n.invoices == t.invoices && n.redRequests == t.redRequests && n.redAttempts == t.redAttempts
    requires t.requests[q].status != Issued && n.requests[q].status != Issued
    requires forall a {:trigger AttemptSound(n, a)} :: a in n.attempts ==> AttemptSound(n, a)
    requires forall a, x :: x != q && LiveFor(t.attempts, a, x) ==> LiveFor(n.attempts, a, x)
    requires RequestSound(n, ar, q)
    requires forall r :: r in ar ==> OutstandingOn(n.requests[q], r) <= OutstandingOn(t.requests[q], r)
    ensures InvoiceInv(n, ar)
  {
    forall x | x in n.requests ensures RequestSound(n, ar, x) {
      if x != q {
        assert RequestSound(t, ar, x);
        OtherRequestKeeps(t, n, ar, ar, x);
      }
    }
    forall i | i in n.invoices ensures InvoiceSound(n, i) { assert InvoiceSound(t, i); }
    forall r | r in ar ensures CapacitySound(n.requests, ar, r) {
      assert CapacitySound(t.requests, ar, r) && RequestSound(t, ar, q);
      TotalsAfter(t.requests, q, n.requests[q], r);
    }
    forall x | x in n.redAttempts ensures RedAttemptSound(n, x) { assert RedAttemptSound(t, x); }
    forall x | x in n.redRequests ensures RedRequestSound(n, x) { assert RedRequestSound(t, x); }
  }

  // ---------- requests before an attempt is live

  lemma {:induction false} LinesOfSound(draws: seq<Draw>)
    ensures forall r :: r in LinesOf(draws) <==> exists k :: 0 <= k < |draws| && draws[k].receivable == r
    ensures NoDuplicates(draws) ==> forall k :: 0 <= k < |draws| ==>
              draws[k].receivable in LinesOf(draws)
              && LinesOf(draws)[draws[k].receivable] == Reservation(draws[k].amount, 0, 0, Reserved, map[])
  {
    if draws != [] {
      LinesOfSound(draws[..|draws| - 1]);
    }
  }

  /** Every drawn line is sound, and fits into what is left of its receivable. */
  lemma DrawnLinesFit(b: Books, i: RequestInput, row: Request, r: Id)
    requires CreateRequest(b, i).Done? && row.status == Submitted && row.lines == LinesOf(i.draws) && r in row.lines
    ensures r in b.ar && LineSound(b.inv.redRequests, row, r)
    ensures OutstandingOn(row, r) + b.ar[r].invoiced + ReservedTotal(b.inv.requests, r) <= b.ar[r].original
  {
    LinesOfSound(i.draws);
    var k :| 0 <= k < |i.draws| && i.draws[k].receivable == r;
    AllFit(b, i.snapshot, i.draws, k);
  }

  lemma CreateRequestKeeps(b: Books, i: RequestInput)
    requires InvoiceInv(b.inv, b.ar) && CreateRequest(b, i).Done?
    ensures var n := CreateRequest(b, i).value; InvoiceInv(n.inv, n.ar)
  {
    var t, n, ar := b.inv, CreateRequest(b, i).value.inv, b.ar;
    var row := n.requests[i.id];
    forall x | x in n.requests ensures RequestSound(n, ar, x) {
      if x != i.id {
        assert RequestSound(t, ar, x);
        OtherRequestKeeps(t, n, ar, ar, x);
      } else {
        forall r | r in row.lines ensures r in ar && LineSound(n.redRequests, row, r) { DrawnLinesFit(b, i, row, r); }
      }
    }
    forall a | a in n.attempts ensures AttemptSound(n, a) { assert AttemptSound(t, a); }
    forall x | x in n.invoices ensures InvoiceSound(n, x) { assert InvoiceSound(t, x); }
    forall r | r in ar ensures CapacitySound(n.requests, ar, r) {
      assert CapacitySound(t.requests, ar, r);
      TotalsAfter(t.requests, i.id, row, r);
      if r in row.lines { DrawnLinesFit(b, i, row, r); }
    }
    forall x | x in n.redAttempts ensures RedAttemptSound(n, x) { assert RedAttemptSound(t, x); }
    forall x | x in n.redRequests ensures RedRequestSound(n, x) { assert RedRequestSound(t, x); }
  }

  /** A request without a live attempt: nothing live points at it. */
  lemma NothingLive(t: InvoiceTables, ar: Ledger, q: Id, a: Id)
    requires InvoiceInv(t, ar) && q in t.requests && t.requests[q].status !in {IssuePending, IssueUnknown}
    ensures !LiveFor(t.attempts, a, q)
  {
    if a in t.attempts { assert AttemptSound(t, a); }
  }

  lemma NumbersBelowNext(t: InvoiceTables, ar: Ledger, q: Id)
    requires InvoiceInv(t, ar)
    ensures 1 <= NextNumber(t.attempts, q)
    ensures forall a :: a in t.attempts && t.attempts[a].request == q ==> t.attempts[a].number < NextNumber(t.attempts, q)
  {
    forall a | a in t.attempts && t.attempts[a].request == q ensures t.attempts[a].number < NextNumber(t.attempts, q) {
      LastOf(t.attempts, a);
      assert NotNewer(t.attempts, a, LastAttempt(t.attempts, q).value);
    }
    if LastAttempt(t.attempts, q).Some? { assert AttemptSound(t, LastAttempt(t.attempts, q).value); }
  }

  lemma CreateAttemptSound(b: Books, q: Id, i: AttemptInput, a: Id)
    requires InvoiceInv(b.inv, b.ar) && q in b.inv.requests && b.inv.requests[q].status in {Submitted, SpecialReview}
    requires CreateAttempt(b, q, i).Done? && a in CreateAttempt(b, q, i).value.inv.attempts
    ensures AttemptSound(CreateAttempt(b, q, i).value.inv, a)
  {
    var t, n := b.inv, CreateAttempt(b, q, i).value.inv;
    NumbersBelowNext(t, b.ar, q);
    assert n.attempts == t.attempts[i.id := n.attempts[i.id]];
    if a == i.id {
      forall x | x in n.attempts && n.attempts[x].request == q ensures NotNewer(n.attempts, x, a) {}
    } else {
      assert AttemptSound(t, a);
      NothingLive(t, b.ar, q, a);
      NewAttemptKeepsOld(t, n, q, i.id, a);
    }
  }

  lemma CreateAttemptKeeps(b: Books, q: Id, i: AttemptInput)
    requires InvoiceInv(b.inv, b.ar) && q in b.inv.requests && b.inv.requests[q].status in {Submitted, SpecialReview}
    requires CreateAttempt(b, q, i).Done?
    ensures var n := CreateAttempt(b, q, i).value; InvoiceInv(n.inv, n.ar)
  {
    var t, n := b.inv, CreateAttempt(b, q, i).value.inv;
    assert n.attempts == t.attempts[i.id := n.attempts[i.id]];
    forall a | a in n.attempts ensures AttemptSound(n, a) { CreateAttemptSound(b, q, i, a); }
    assert LiveFor(n.attempts, i.id, q);
    assert RequestSound(t, b.ar, q);
    assert RequestSound(n, b.ar, q);
    RequestStepKeeps(t, n, b.ar, q);
  }

  lemma NewAttemptKeepsOld(t: InvoiceTables, n: InvoiceTables, q: Id, id: Id, a: Id)
    requires a in t.attempts && AttemptSound(t, a) && !LiveFor(t.attempts, a, q)
    requires id !in t.attempts && id in n.attempts && n.attempts == t.attempts[id := n.attempts[id]]
    requires n.attempts[id].request == q
    requires t.attempts[a].request == q ==> t.attempts[a].number < n.attempts[id].number
    requires q in n.requests && forall x :: x in t.requests && x != q ==> x in n.requests && n.requests[x] == t.requests[x]
    ensures AttemptSound(n, a)
  {
    if Live(t.attempts[a].status) {
      forall x | x in n.attempts && n.attempts[x].request == n.attempts[a].request ensures NotNewer(n.attempts, x, a) {
        assert NotNewer(t.attempts, x, a);
      }
    }
  }

  lemma StatusStepKeeps(t: InvoiceTables, n: InvoiceTables, ar: Ledger, q: Id)
    requires InvoiceInv(t, ar) && q in t.requests && q in n.requests && n == t.(requests := t.requests[q := n.requests[q]])
    requires t.requests[q].status in {Submitted, SpecialReview, IssueFailed}
    requires var o, m := t.requests[q], n.requests[q];
      && m.bill == o.bill
      && ((m.status in {Submitted, SpecialReview} && m.lines == o.lines) || (m.status == Rejected && m.lines == ReleaseAll(o.lines)))
    ensures InvoiceInv(n, ar)
  {
    assert RequestSound(t, ar, q);
    forall a | a in n.attempts ensures AttemptSound(n, a) {
      assert AttemptSound(t, a);
      NothingLive(t, ar, q, a);
      OtherAttemptKeeps(t, n, a);
    }
    forall r | r in n.requests[q].lines ensures LineSound(n.redRequests, n.requests[q], r) {
      assert LineSound(t.redRequests, t.requests[q], r);
    }
    RequestStepKeeps(t, n, ar, q);
  }

  lemma ApproveRequestKeeps(b: Books, q: Id, version: int, user: Id, i: AttemptInput)
    requires InvoiceInv(b.inv, b.ar) && ApproveRequest(b, q, version, user, i).Done?
    ensures var n := ApproveRequest(b, q, version, user, i).value; InvoiceInv(n.inv, n.ar)
  {
    var n := ApproveRequest(b, q, version, user, i).value;
    if b.inv.requests[q].special {
      StatusStepKeeps(b.inv, n.inv, b.ar, q);
    } else {
      CreateAttemptKeeps(b, q, i);
    }
  }

  lemma RejectRequestKeeps(b: Books, q: Id, version: int, user: Id)
    requires InvoiceInv(b.inv, b.ar) && RejectRequest(b, q, version, user).Done?
    ensures var n := RejectRequest(b, q, version, user).value; InvoiceInv(n.inv, n.ar)
  {
    StatusStepKeeps(b.inv, RejectRequest(b, q, version, user).value.inv, b.ar, q);
  }

  lemma ReviewSpecialKeeps(b: Books, q: Id, version: int, user: Id, approve: bool, i: AttemptInput)
    requires InvoiceInv(b.inv, b.ar) && ReviewSpecial(b, q, version, user, approve, i).Done?
    ensures var n := ReviewSpecial(b, q, version, user, approve, i).value; InvoiceInv(n.inv, n.ar)
  {
    if approve {
      CreateAttemptKeeps(b, q, i);
    } else {
      StatusStepKeeps(b.inv, ReviewSpecial(b, q, version, user, approve, i).value.inv, b.ar, q);
    }
  }

  lemma RecoverRequestKeeps(b: Books, q: Id, version: int, user: Id, provider: Id)
    requires InvoiceInv(b.inv, b.ar) && RecoverRequest(b, q, version, user, provider).Done?
    ensures var n := RecoverRequest(b, q, version, user, provider).value; InvoiceInv(n.inv, n.ar)
  {
    StatusStepKeeps(b.inv, RecoverRequest(b, q, version, user, provider).value.inv, b.ar, q);
  }

  /** At most one attempt of a request is live, and it is the newest one. */
  lemma OneLive(t: InvoiceTables, ar: Ledger, q: Id, a: Id)
    requires InvoiceInv(t, ar) && LiveFor(t.attempts, a, q)
    ensures LastAttempt(t.attempts, q) == Some(a)
    ensures forall x :: LiveFor(t.attempts, x, q) ==> x == a
    ensures q in t.requests && t.requests[q].status == (if t.attempts[a].status == AttemptUnknown then IssueUnknown else IssuePending)
  {
    assert AttemptSound(t, a);
    LastOf(t.attempts, a);
    var last := LastAttempt(t.attempts, q).value;
    assert NotNewer(t.attempts, a, last) && NotNewer(t.attempts, last, a);
    forall x | LiveFor(t.attempts, x, q) ensures x == a {
      assert AttemptSound(t, x);
      assert NotNewer(t.attempts, a, x) && NotNewer(t.attempts, x, a);
    }
  }

  /** The lines of a request whose reservations are given back. */
  lemma ReleasedLinesSound(t: InvoiceTables, ar: Ledger, q: Id, row: Request)
    requires q in t.requests && RequestSound(t, ar, q) && LineStatus(t.requests[q].status) == Reserved
    requires LineStatus(row.status) == Released && row.lines == ReleaseAll(t.requests[q].lines)
    ensures forall r :: r in row.lines ==> r in ar && LineSound(t.redRequests, row, r)
    ensures forall r :: OutstandingOn(row, r) == 0 <= OutstandingOn(t.requests[q], r)
  {
    forall r | r in row.lines ensures r in ar && LineSound(t.redRequests, row, r) {
      assert LineSound(t.redRequests, t.requests[q], r);
    }
    forall r ensures OutstandingOn(row, r) == 0 <= OutstandingOn(t.requests[q], r) {
      if r in row.lines { assert LineSound(t.redRequests, t.requests[q], r); }
    }
  }

  /** Attempts after the one live attempt of a request is closed. */
  lemma ClosedAttemptsKeep(t: InvoiceTables, n: InvoiceTables, ar: Ledger, q: Id)
    requires InvoiceInv(t, ar) && q in t.requests && q in n.requests
    requires n.requests == t.requests[q := n.requests[q]]
    requires n.attempts.Keys == t.attempts.Keys
    requires forall a :: a in t.attempts ==>
      && n.attempts[a].request == t.attempts[a].request && n.attempts[a].number == t.attempts[a].number
      && (if t.attempts[a].request == q then !Live(n.attempts[a].status) else n.attempts[a] == t.attempts[a])
    ensures forall a {:trigger AttemptSound(n, a)} :: a in n.attempts ==> AttemptSound(n, a)
    ensures forall a, x :: x != q && LiveFor(t.attempts, a, x) ==> LiveFor(n.attempts, a, x)
  {
    forall a | a in n.attempts ensures AttemptSound(n, a) {
      assert AttemptSound(t, a);
      OtherAttemptKeeps(t, n, a);
    }
  }

  /** Cancelling turns the newest attempt, which is the only one that can be live, into a
      dead one and gives the whole reservation back. */
  lemma CancelRequestKeeps(b: Books, q: Id, version: int, user: Id)
    requires InvoiceInv(b.inv, b.ar) && CancelRequest(b, q, version, user).Done?
    ensures var n := CancelRequest(b, q, version, user).value; InvoiceInv(n.inv, n.ar)
  {
    var t, n := b.inv, CancelRequest(b, q, version, user).value.inv;
    forall a | a in t.attempts && t.attempts[a].request == q ensures !Live(n.attempts[a].status) {
      if LiveFor(t.attempts, a, q) { OneLive(t, b.ar, q, a); }
    }
    ClosedAttemptsKeep(t, n, b.ar, q);
    assert RequestSound(t, b.ar, q);
    ReleasedLinesSound(t, b.ar, q, n.requests[q]);
    assert RequestSound(n, b.ar, q);
    RequestStepKeeps(t, n, b.ar, q);
  }

  // ---------- issuing

  /** The one live attempt of a request ends in an issued invoice. */
  ghost predicate Issues(t: InvoiceTables, n: InvoiceTables, ar: Ledger, nar: Ledger, q: Id, id: Id, face: Bill) {
    && q in t.requests && t.requests[q].status in {IssuePending, IssueUnknown}
    && id !in t.invoices && n.invoices == t.invoices[id := Invoice(q, InvoiceIssued, face, None)] && IsFaceOf(face, t.requests[q].bill)
    && q in n.requests && n.requests == t.requests[q := n.requests[q]]
    && n.requests[q].status == Issued && n.requests[q].bill == t.requests[q].bill
    && n.requests[q].lines == FinalizeAll(t.requests[q].lines)
    && nar == IssueLines(ar, t.requests[q].lines)
    && n.redRequests == t.redRequests && n.redAttempts == t.redAttempts
  }

  lemma IssueKeepsCapacity(t: InvoiceTables, n: InvoiceTables, ar: Ledger, nar: Ledger, q: Id, id: Id, face: Bill, r: Id)
    requires InvoiceInv(t, ar) && Issues(t, n, ar, nar, q, id, face) && r in nar
    ensures CapacitySound(n.requests, nar, r)
  {
    assert CapacitySound(t.requests, ar, r) && RequestSound(t, ar, q);
    TotalsAfter(t.requests, q, n.requests[q], r);
    if r in t.requests[q].lines {
      assert LineSound(t.redRequests, t.requests[q], r);
    }
  }

  lemma IssueKeepsInvoices(t: InvoiceTables, n: InvoiceTables, ar: Ledger, nar: Ledger, q: Id, id: Id, face: Bill, i: Id)
    requires InvoiceInv(t, ar) && Issues(t, n, ar, nar, q, id, face) && i in n.invoices
    ensures InvoiceSound(n, i)
  {
    if i in t.invoices { assert InvoiceSound(t, i); }
    var row := n.invoices[i];
    if row.redOf == None {
      forall j | BlueFor(n.invoices, j, row.request) ensures j == i {
        if j in t.invoices {
          assert InvoiceSound(t, j) && BlueFor(t.invoices, j, row.request);
        }
      }
    }
  }

  lemma IssueKeepsRequest(t: InvoiceTables, n: InvoiceTables, ar: Ledger, nar: Ledger, q: Id, id: Id, face: Bill)
    requires InvoiceInv(t, ar) && Issues(t, n, ar, nar, q, id, face)
    ensures RequestSound(n, nar, q)
  {
    assert RequestSound(t, ar, q);
    assert BlueFor(n.invoices, id, q);
    forall r | r in n.requests[q].lines ensures r in nar && LineSound(n.redRequests, n.requests[q], r) {
      assert LineSound(t.redRequests, t.requests[q], r);
    }
  }

  lemma IssueStepKeeps(t: InvoiceTables, n: InvoiceTables, ar: Ledger, nar: Ledger, q: Id, id: Id, face: Bill)
    requires InvoiceInv(t, ar) && Issues(t, n, ar, nar, q, id, face)
    requires forall a {:trigger AttemptSound(n, a)} :: a in n.attempts ==> AttemptSound(n, a)
    requires forall a, x :: x != q && LiveFor(t.attempts, a, x) ==> LiveFor(n.attempts, a, x)
    ensures InvoiceInv(n, nar)
  {
    IssueKeepsRequest(t, n, ar, nar, q, id, face);
    forall x | x in n.requests ensures RequestSound(n, nar, x) {
      assert RequestSound(t, ar, x);
      if x != q { OtherRequestKeeps(t, n, ar, nar, x); }
    }
    forall i | i in n.invoices ensures InvoiceSound(n, i) { IssueKeepsInvoices(t, n, ar, nar, q, id, face, i); }
    forall r | r in nar ensures CapacitySound(n.requests, nar, r) { IssueKeepsCapacity(t, n, ar, nar, q, id, face, r); }
    forall x | x in n.redAttempts ensures RedAttemptSound(n, x) { assert RedAttemptSound(t, x); }
    forall x | x in n.redRequests ensures RedRequestSound(n, x) { assert RedRequestSound(t, x); }
  }

  lemma RegisterManualKeeps(b: Books, q: Id, id: Id)
    requires InvoiceInv(b.inv, b.ar) && RegisterManual(b, q, id).Done?
    ensures var n := RegisterManual(b, q, id).value; InvoiceInv(n.inv, n.ar)
  {
    var t, n := b.inv, RegisterManual(b, q, id).value;
    var m :| m in t.attempts && ManualPendingFor(t, m, q);
    OneLive(t, b.ar, q, m);
    forall a | a in t.attempts && t.attempts[a].request == q ensures !Live(n.inv.attempts[a].status) {
      if LiveFor(t.attempts, a, q) { assert a == m; }
    }
    ClosedAttemptsKeep(t, n.inv, b.ar, q);
    IssueStepKeeps(t, n.inv, b.ar, n.ar, q, id, HeaderOnly(t.requests[q].bill));
  }

  // ---------- issue callbacks

  /** The live attempt and its request move together to unknown or failed. */
  lemma IssueReportKeeps(t: InvoiceTables, n: InvoiceTables, ar: Ledger, a: Id)
    requires InvoiceInv(t, ar) && a in t.attempts && Live(t.attempts[a].status) && a in n.attempts
    requires n.attempts == t.attempts[a := n.attempts[a]]
    requires n.attempts[a].request == t.attempts[a].request && n.attempts[a].number == t.attempts[a].number
    requires n.attempts[a].status in {AttemptUnknown, AttemptFailed}
    requires t.attempts[a].request in t.requests
    requires n.requests == MoveRequest(t.requests, t.attempts[a].request,
                                       if n.attempts[a].status == AttemptUnknown then IssueUnknown else IssueFailed)
    requires n.invoices == t.invoices && n.redRequests == t.redRequests && n.redAttempts == t.redAttempts
    ensures InvoiceInv(n, ar)
  {
    var q := t.attempts[a].request;
    OneLive(t, ar, q, a);
    assert AttemptSound(t, a);
    forall x | x in n.attempts ensures AttemptSound(n, x) {
      assert AttemptSound(t, x);
      if x == a {
        forall y | y in n.attempts && n.attempts[y].request == q ensures NotNewer(n.attempts, y, a) {
          assert NotNewer(t.attempts, y, a);
        }
      } else {
        assert !LiveFor(t.attempts, x, q);
        OtherAttemptKeeps(t, n, x);
      }
    }
    assert RequestSound(t, ar, q);
    forall r | r in n.requests[q].lines ensures LineSound(n.redRequests, n.requests[q], r) {
      assert LineSound(t.redRequests, t.requests[q], r);
    }
    assert n.attempts[a].status == AttemptUnknown ==> LiveFor(n.attempts, a, q);
    assert RequestSound(n, ar, q);
    RequestStepKeeps(t, n, ar, q);
  }

  /** A conflicting report after the end only raises the sequence of a dead attempt. */
  lemma DeadAttemptKeeps(t: InvoiceTables, n: InvoiceTables, ar: Ledger, a: Id)
    requires InvoiceInv(t, ar) && a in t.attempts && !Live(t.attempts[a].status) && a in n.attempts
    requires n == t.(attempts := t.attempts[a := n.attempts[a]])
    requires n.attempts[a].request == t.attempts[a].request && n.attempts[a].number == t.attempts[a].number
    requires n.attempts[a].status == t.attempts[a].status
    ensures InvoiceInv(n, ar)
  {
    forall x | x in n.attempts ensures AttemptSound(n, x) {
      assert AttemptSound(t, x);
      OtherAttemptKeeps(t, n, x);
    }
    AttemptsOnly(t, n, ar);
  }

  /** Only attempt rows change, and the live ones stay live. */
  lemma AttemptsOnly(t: InvoiceTables, n: InvoiceTables, ar: Ledger)
    requires InvoiceInv(t, ar) && n == t.(attempts := n.attempts)
    requires forall a {:trigger AttemptSound(n, a)} :: a in n.attempts ==> AttemptSound(n, a)
    requires forall a, q :: LiveFor(t.attempts, a, q) ==> LiveFor(n.attempts, a, q)
    ensures InvoiceInv(n, ar)
  {
    forall q | q in n.requests ensures RequestSound(n, ar, q) {
      assert RequestSound(t, ar, q);
      OtherRequestKeeps(t, n, ar, ar, q);
    }
    forall i | i in n.invoices ensures InvoiceSound(n, i) { assert InvoiceSound(t, i); }
    forall r | r in ar ensures CapacitySound(n.requests, ar, r) { assert CapacitySound(t.requests, ar, r); }
    forall x | x in n.redAttempts ensures RedAttemptSound(n, x) { assert RedAttemptSound(t, x); }
    forall x | x in n.redRequests ensures RedRequestSound(n, x) { assert RedRequestSound(t, x); }
  }

  lemma IssueInvoiceKeeps(b: Books, a: Id, sequence: nat, id: Id)
    requires InvoiceInv(b.inv, b.ar) && a in b.inv.attempts && Live(b.inv.attempts[a].status) && id !in b.inv.invoices
    requires b.inv.attempts[a].request in b.inv.requests
    ensures var n := IssueInvoice(b, a, sequence, id); InvoiceInv(n.inv, n.ar)
  {
    var t, n, q := b.inv, IssueInvoice(b, a, sequence, id), b.inv.attempts[a].request;
    OneLive(t, b.ar, q, a);
    forall x | x in t.attempts && t.attempts[x].request == q ensures !Live(n.inv.attempts[x].status) {
      assert x != a ==> !LiveFor(t.attempts, x, q);
    }
    ClosedAttemptsKeep(t, n.inv, b.ar, q);
    assert Issues(t, n.inv, b.ar, n.ar, q, id, t.requests[q].bill);
    IssueStepKeeps(t, n.inv, b.ar, n.ar, q, id, t.requests[q].bill);
  }

  lemma ReportOnKeeps(b: Books, a: Id, sequence: nat, to: AttemptStatus)
    requires InvoiceInv(b.inv, b.ar) && a in b.inv.attempts && Live(b.inv.attempts[a].status) && b.inv.attempts[a].request in b.inv.requests
    requires to in {AttemptUnknown, AttemptFailed}
    ensures InvoiceInv(ReportOn(b, a, sequence, to, if to == AttemptUnknown then IssueUnknown else IssueFailed).inv, b.ar)
  {
    IssueReportKeeps(b.inv, ReportOn(b, a, sequence, to, if to == AttemptUnknown then IssueUnknown else IssueFailed).inv, b.ar, a);
  }

  lemma RaiseSequenceKeeps(b: Books, a: Id, sequence: nat)
    requires InvoiceInv(b.inv, b.ar) && a in b.inv.attempts && !Live(b.inv.attempts[a].status)
    ensures InvoiceInv(RaiseSequence(b, a, sequence).inv, b.ar)
  {
    DeadAttemptKeeps(b.inv, RaiseSequence(b, a, sequence).inv, b.ar, a);
  }

  predicate PendingIfLive(t: InvoiceTables, a: Id) {
    a in t.attempts && t.attempts[a].request in t.requests
    && (Live(t.attempts[a].status) ==> t.requests[t.attempts[a].request].status in {IssuePending, IssueUnknown})
  }

  /** What a fresh report on a live attempt makes of the books. */
  function Reported(b: Books, e: Callback, id: Id): Books
    requires PendingIfLive(b.inv, e.attempt)
  {
    match e.kind
    case ReportUnknown => ReportOn(b, e.attempt, e.sequence, AttemptUnknown, IssueUnknown)
    case ReportFailed => ReportOn(b, e.attempt, e.sequence, AttemptFailed, IssueFailed)
    case ReportIssued => IssueInvoice(b, e.attempt, e.sequence, id)
  }

  /** A report either moves a live attempt, raises the sequence of a dead one, or changes nothing. */
  lemma IssueCallbackResult(b: Books, e: Callback, id: Id)
    requires PendingIfLive(b.inv, e.attempt) && ApplyIssueCallback(b, e, id).Done?
    ensures var n, a := ApplyIssueCallback(b, e, id).value.books, b.inv.attempts[e.attempt];
      if Live(a.status) && a.sequence < e.sequence then n == Reported(b, e, id) && (e.kind == ReportIssued ==> id !in b.inv.invoices)
      else n == b || (!Live(a.status) && a.sequence < e.sequence && n == RaiseSequence(b, e.attempt, e.sequence))
  {
  }

  lemma IssueCallbackKeeps(b: Books, e: Callback, id: Id)
    requires InvoiceInv(b.inv, b.ar) && ApplyIssueCallback(b, e, id).Done?
    ensures var n := ApplyIssueCallback(b, e, id).value.books; InvoiceInv(n.inv, n.ar)
  {
    var n, a := ApplyIssueCallback(b, e, id).value.books, e.attempt;
    assert AttemptSound(b.inv, a);
    IssueCallbackResult(b, e, id);
    if n != b {
      if n == Reported(b, e, id) && Live(b.inv.attempts[a].status) {
        match e.kind
        case ReportUnknown => ReportOnKeeps(b, a, e.sequence, AttemptUnknown);
        case ReportFailed => ReportOnKeeps(b, a, e.sequence, AttemptFailed);
        case ReportIssued => IssueInvoiceKeeps(b, a, e.sequence, id);
      } else {
        RaiseSequenceKeeps(b, a, e.sequence);
      }
    }
  }

  // ---------- red flush callbacks

  /** An issued original is taken back by the red-flush request `red`, whichever request that is. */
  ghost predicate Flushes(t: InvoiceTables, n: InvoiceTables, ar: Ledger, nar: Ledger, q: Id, o: Id, red: Id, id: Id) {
    && o in t.invoices && t.invoices[o].request == q && t.invoices[o].status == InvoiceIssued
    && id !in t.invoices && q in t.requests
    && n.invoices == t.invoices[o := t.invoices[o].(status := InvoiceRedFlushed)]
                               [id := Invoice(q, InvoiceIssued, RedBill(t.invoices[o].bill, t.requests[q].bill.lines), Some(o))]
    && q in n.requests && n.requests == t.requests[q := t.requests[q].(lines := TakeBackAll(t.requests[q].lines, red))]
    && nar == FlushLines(ar, t.requests[q].lines, red)
    && red in t.redRequests && t.redRequests[red].relation.None? && red in n.redRequests
    && n.redRequests == t.redRequests[red := n.redRequests[red]]
    && n.redRequests[red].relation.Some? && n.redRequests[red].invoice == t.redRequests[red].invoice
    && n.redRequests[red].status != RedSubmitted
    && n.redAttempts.Keys == t.redAttempts.Keys
    && (forall x :: x in t.redAttempts ==> n.redAttempts[x].red == t.redAttempts[x].red && n.redAttempts[x].invoice == t.redAttempts[x].invoice)
    && n.attempts == t.attempts
  }

  /** A line is taken back only when nothing took it back before, and then by exactly the
      amount that stands on it: the stored amount cannot fall below zero, so the clamp of
      the decrement has no effect. */
  lemma ClampNeverFires(t: InvoiceTables, ar: Ledger, q: Id, red: Id, r: Id)
    requires InvoiceInv(t, ar) && q in t.requests && r in t.requests[q].lines
    requires red in t.redRequests && t.redRequests[red].relation.None?
    requires t.requests[q].lines[r].status == Invoiced && t.requests[q].lines[r].reversals.Keys <= {red}
    ensures r in ar && t.requests[q].lines[r].reversals == map[]
    ensures 0 < t.requests[q].lines[r].invoiced <= ar[r].invoiced
    ensures DecrementInvoiced(ar[r], t.requests[q].lines[r].invoiced).invoiced == ar[r].invoiced - t.requests[q].lines[r].invoiced
  {
    assert RequestSound(t, ar, q);
    var l := t.requests[q].lines[r];
    assert LineSound(t.redRequests, t.requests[q], r);
    assert red !in l.reversals;
    assert l.reversals == map[];
    PartOfTotals(t, ar, q, r);
    assert CapacitySound(t.requests, ar, r);
  }

  lemma FlushKeepsCapacity(t: InvoiceTables, n: InvoiceTables, ar: Ledger, nar: Ledger, q: Id, o: Id, red: Id, id: Id, r: Id)
    requires InvoiceInv(t, ar) && Flushes(t, n, ar, nar, q, o, red, id) && r in nar
    ensures CapacitySound(n.requests, nar, r)
  {
    assert CapacitySound(t.requests, ar, r);
    TotalsAfter(t.requests, q, n.requests[q], r);
    if r in t.requests[q].lines {
      var l := t.requests[q].lines[r];
      if l.status == Invoiced && l.reversals.Keys <= {red} {
        ClampNeverFires(t, ar, q, red, r);
        assert red in n.requests[q].lines[r].reversals;
      }
    }
  }

  lemma FlushKeepsLine(t: InvoiceTables, n: InvoiceTables, ar: Ledger, nar: Ledger, q: Id, o: Id, red: Id, id: Id, r: Id)
    requires InvoiceInv(t, ar) && Flushes(t, n, ar, nar, q, o, red, id) && r in n.requests[q].lines
    ensures r in nar && LineSound(n.redRequests, n.requests[q], r)
  {
    assert RequestSound(t, ar, q);
    assert LineSound(t.redRequests, t.requests[q], r);
    var l, m := t.requests[q].lines[r], n.requests[q].lines[r];
    if l.status == Invoiced && l.reversals.Keys <= {red} {
      ClampNeverFires(t, ar, q, red, r);
      assert m.reversals == map[red := l.invoiced];
      assert forall k :: k in m.reversals ==> k == red;
    } else {
      assert m == l;
    }
  }

  lemma FlushKeepsInvoices(t: InvoiceTables, n: InvoiceTables, ar: Ledger, nar: Ledger, q: Id, o: Id, red: Id, id: Id, i: Id)
    requires InvoiceInv(t, ar) && Flushes(t, n, ar, nar, q, o, red, id) && i in n.invoices
    ensures InvoiceSound(n, i)
  {
    assert InvoiceSound(t, o);
    if i in t.invoices { assert InvoiceSound(t, i); }
    var row := n.invoices[i];
    if row.redOf == None {
      forall j | BlueFor(n.invoices, j, row.request) ensures j == i {
        assert BlueFor(t.invoices, j, row.request);
      }
    }
  }

  lemma FlushKeepsRequest(t: InvoiceTables, n: InvoiceTables, ar: Ledger, nar: Ledger, q: Id, o: Id, red: Id, id: Id)
    requires InvoiceInv(t, ar) && Flushes(t, n, ar, nar, q, o, red, id)
    ensures RequestSound(n, nar, q)
  {
    assert RequestSound(t, ar, q);
    assert forall i :: BlueFor(t.invoices, i, q) ==> BlueFor(n.invoices, i, q);
    forall r | r in n.requests[q].lines ensures r in nar && LineSound(n.redRequests, n.requests[q], r) {
      FlushKeepsLine(t, n, ar, nar, q, o, red, id, r);
    }
  }

  lemma FlushStepKeeps(t: InvoiceTables, n: InvoiceTables, ar: Ledger, nar: Ledger, q: Id, o: Id, red: Id, id: Id)
    requires InvoiceInv(t, ar) && Flushes(t, n, ar, nar, q, o, red, id)
    ensures InvoiceInv(n, nar)
  {
    FlushKeepsRequest(t, n, ar, nar, q, o, red, id);
    forall x | x in n.requests ensures RequestSound(n, nar, x) {
      assert RequestSound(t, ar, x);
      assert forall i :: BlueFor(t.invoices, i, x) ==> BlueFor(n.invoices, i, x);
      if x != q { OtherRequestKeeps(t, n, ar, nar, x); }
    }
    forall a | a in n.attempts ensures AttemptSound(n, a) { assert AttemptSound(t, a); }
    forall i | i in n.invoices ensures InvoiceSound(n, i) { FlushKeepsInvoices(t, n, ar, nar, q, o, red, id, i); }
    forall r | r in nar ensures CapacitySound(n.requests, nar, r) { FlushKeepsCapacity(t, n, ar, nar, q, o, red, id, r); }
    forall x | x in n.redAttempts ensures RedAttemptSound(n, x) { assert RedAttemptSound(t, x); }
    forall x | x in n.redRequests ensures RedRequestSound(n, x) { assert RedRequestSound(t, x); }
  }

  /** Red-flush rows move, nothing is flushed. */
  lemma RedRowsOnly(t: InvoiceTables, n: InvoiceTables, ar: Ledger)
    requires InvoiceInv(t, ar)
    requires n.requests == t.requests && n.attempts == t.attempts && n.invoices == t.invoices
    requires forall k :: k in t.redRequests && t.redRequests[k].relation.Some? ==> k in n.redRequests && n.redRequests[k].relation.Some?
    requires forall x {:trigger RedAttemptSound(n, x)} :: x in n.redAttempts ==> RedAttemptSound(n, x)
    requires forall x {:trigger RedRequestSound(n, x)} :: x in n.redRequests ==> RedRequestSound(n, x)
    ensures InvoiceInv(n, ar)
  {
    forall q | q in n.requests ensures RequestSound(n, ar, q) {
      assert RequestSound(t, ar, q);
      OtherRequestKeeps(t, n, ar, ar, q);
    }
    forall a | a in n.attempts ensures AttemptSound(n, a) { assert AttemptSound(t, a); }
    forall i | i in n.invoices ensures InvoiceSound(n, i) { assert InvoiceSound(t, i); }
    forall r | r in ar ensures CapacitySound(n.requests, ar, r) { assert CapacitySound(t.requests, ar, r); }
  }

  lemma RedReportKeeps(b: Books, a: Id, named: Id, sequence: nat, attempt: AttemptStatus, status: RedStatus)
    requires InvoiceInv(b.inv, b.ar) && a in b.inv.redAttempts && status in {RedUnknown, RedFailed}
    ensures InvoiceInv(RedReportOn(b, a, named, sequence, attempt, status).inv, b.ar)
  {
    var t, n := b.inv, RedReportOn(b, a, named, sequence, attempt, status).inv;
    forall y | y in n.redAttempts ensures RedAttemptSound(n, y) { assert RedAttemptSound(t, y); }
    forall y | y in n.redRequests ensures RedRequestSound(n, y) { assert RedRequestSound(t, y); }
    RedRowsOnly(t, n, b.ar);
  }

  /** The relation key alone decides whether a request may flush: no line was taken back by a request
      without a relation row, so the reversal keys never refuse. */
  lemma RelationDecidesFlush(t: InvoiceTables, ar: Ledger, named: Id, q: Id)
    requires InvoiceInv(t, ar) && q in t.requests
    ensures MayFlush(t, named, t.requests[q].lines) <==> named in t.redRequests && t.redRequests[named].relation.None?
  {
    assert RequestSound(t, ar, q);
  }

  lemma RedCallbackKeeps(b: Books, e: Callback, id: Id)
    requires InvoiceInv(b.inv, b.ar) && ApplyRedCallback(b, e, id).Done?
    ensures var n := ApplyRedCallback(b, e, id).value.books; InvoiceInv(n.inv, n.ar)
  {
    var t, n := b.inv, ApplyRedCallback(b, e, id).value.books;
    var x := t.redAttempts[e.attempt];
    assert RedAttemptSound(t, e.attempt) && RedRequestSound(t, x.red);
    if n != b {
      if e.kind == ReportIssued {
        FlushStepKeeps(t, n.inv, b.ar, n.ar, t.invoices[x.invoice].request, x.invoice, NamedRed(t, e), id);
      } else {
        RedReportKeeps(b, e.attempt, NamedRed(t, e), e.sequence, AttemptUnknown, RedUnknown);
        RedReportKeeps(b, e.attempt, NamedRed(t, e), e.sequence, AttemptFailed, RedFailed);
      }
    }
  }

  lemma ApplyCallbackKeeps(b: Books, e: Callback, id: Id)
    requires InvoiceInv(b.inv, b.ar) && ApplyCallback(b, e, id).Done?
    ensures var n := ApplyCallback(b, e, id).value; InvoiceInv(n.inv, n.ar)
  {
    if e.event !in b.inv.inbox {
      var v := if e.redFlush then ApplyRedCallback(b, e, id).value else ApplyIssueCallback(b, e, id).value;
      if e.redFlush { RedCallbackKeeps(b, e, id); } else { IssueCallbackKeeps(b, e, id); }
      SameTables(v.books.inv, ApplyCallback(b, e, id).value.inv, v.books.ar);
    }
  }

  // ---------- tax commands and red-flush requests

  /** Accepting a pending attempt leaves it live and its request pending. */
  lemma AcceptKeeps(t: InvoiceTables, n: InvoiceTables, ar: Ledger, a: Id)
    requires InvoiceInv(t, ar) && a in t.attempts && t.attempts[a].status == AttemptPending
    requires n == t.(attempts := Accept(t.attempts, a))
    ensures InvoiceInv(n, ar)
  {
    forall x | x in n.attempts ensures AttemptSound(n, x) {
      assert AttemptSound(t, x);
      if x == a {
        forall y | y in n.attempts && n.attempts[y].request == n.attempts[a].request ensures NotNewer(n.attempts, y, a) {
          assert NotNewer(t.attempts, y, a);
        }
      } else {
        OtherAttemptKeeps(t, n, x);
      }
    }
    AttemptsOnly(t, n, ar);
  }

  lemma AcceptRedKeeps(t: InvoiceTables, n: InvoiceTables, ar: Ledger, a: Id)
    requires InvoiceInv(t, ar) && n == t.(redAttempts := AcceptRed(t.redAttempts, a))
    ensures InvoiceInv(n, ar)
  {
    forall y | y in n.redAttempts ensures RedAttemptSound(n, y) { assert RedAttemptSound(t, y); }
    forall y | y in n.redRequests ensures RedRequestSound(n, y) { assert RedRequestSound(t, y); }
    RedRowsOnly(t, n, ar);
  }

  /** The attempt side of a delivery, given that the command row alone changes nothing. */
  lemma DeliveryKeeps(m: InvoiceTables, n: InvoiceTables, ar: Ledger, a: Id, redFlush: bool)
    requires InvoiceInv(m, ar)
    requires n == if redFlush then m.(redAttempts := AcceptRed(m.redAttempts, a)) else m.(attempts := Accept(m.attempts, a))
    ensures InvoiceInv(n, ar)
  {
    hide InvoiceInv;
    if redFlush {
      AcceptRedKeeps(m, n, ar, a);
    } else if a in m.attempts && m.attempts[a].status == AttemptPending {
      AcceptKeeps(m, n, ar, a);
    } else {
      assert n == m;
    }
  }

  lemma MoveCommandKeeps(b: Books, c: Id, status: CommandStatus)
    requires InvoiceInv(b.inv, b.ar) && MoveCommand(b, c, status).Done?
    ensures var n := MoveCommand(b, c, status).value; InvoiceInv(n.inv, n.ar)
  {
    hide InvoiceInv, Accept, AcceptRed, MayMove;
    var t, n := b.inv, MovedCommand(b.inv, c, status);
    var m := t.(commands := n.commands);
    SameTables(t, m, b.ar);
    if status == CommandDelivered { DeliveryKeeps(m, n, b.ar, t.commands[c].attempt, t.commands[c].redFlush); }
  }

  lemma RetryKeeps(b: Books, c: Id)
    requires InvoiceInv(b.inv, b.ar)
    ensures RetryOutbox(b, c).Done? ==> InvoiceInv(RetryOutbox(b, c).value.inv, RetryOutbox(b, c).value.ar)
    ensures RetryDeadLetter(b, c).Done? ==> InvoiceInv(RetryDeadLetter(b, c).value.inv, RetryDeadLetter(b, c).value.ar)
  {
    if RetryOutbox(b, c).Done? { SameTables(b.inv, RetryOutbox(b, c).value.inv, b.ar); }
    if RetryDeadLetter(b, c).Done? { SameTables(b.inv, RetryDeadLetter(b, c).value.inv, b.ar); }
  }

  lemma RequestRedFlushKeeps(b: Books, id: Id, invoice: Id, user: Id)
    requires InvoiceInv(b.inv, b.ar) && RequestRedFlush(b, id, invoice, user).Done?
    ensures var n := RequestRedFlush(b, id, invoice, user).value; InvoiceInv(n.inv, n.ar)
  {
    var t, n := b.inv, RequestRedFlush(b, id, invoice, user).value.inv;
    forall y | y in n.redAttempts ensures RedAttemptSound(n, y) { assert RedAttemptSound(t, y); }
    forall y | y in n.redRequests ensures RedRequestSound(n, y) { assert y != id ==> RedRequestSound(t, y); }
    RedRowsOnly(t, n, b.ar);
  }

  lemma ReviewRedFlushKeeps(b: Books, id: Id, version: int, user: Id, approve: bool, i: AttemptInput)
    requires InvoiceInv(b.inv, b.ar) && ReviewRedFlush(b, id, version, user, approve, i).Done?
    ensures var n := ReviewRedFlush(b, id, version, user, approve, i).value; InvoiceInv(n.inv, n.ar)
  {
    var t, n := b.inv, ReviewRedFlush(b, id, version, user, approve, i).value.inv;
    var f := t.redRequests[id];
    assert RedRequestSound(t, id);
    forall y | y in t.redAttempts && f.status == RedSubmitted ensures t.redAttempts[y].red != id { assert RedAttemptSound(t, y); }
    forall y | y in n.redAttempts ensures RedAttemptSound(n, y) { assert y in t.redAttempts ==> RedAttemptSound(t, y); }
    forall y | y in n.redRequests ensures RedRequestSound(n, y) { assert RedRequestSound(t, y); }
    RedRowsOnly(t, n, b.ar);
  }
}
