/** Invoice transactions as they update the tables.
    internal/service: invoice_reservation.go, invoice_request.go, invoice_approval.go, invoice_cancel.go,
    invoice_recovery.go, invoice_manual.go, tax_callback.go, tax_deadletter.go, outbox_action.go,
    invoice_redflush_request.go, invoice_redflush_review.go */
module InvoiceDesk {
  import opened Tables
  import opened Totals
  import B = Billing
  import I = Invoicing
  import P = InvoicingProofs

  // ---------- reservations

  /** Subtracts every outstanding reservation from the running balance. */
  method InvoiceAvailableForUpdate(b: Books, snapshot: Id, r: Id) returns (available: Outcome<int>)
    ensures available == I.InvoiceAvailable(b, snapshot, r)
  {
    if r !in b.ar || b.ar[r].snapshot != snapshot { return Refused(NotFound); }
    var requests := b.inv.requests;
    var balance := b.ar[r].original - b.ar[r].invoiced;
    ghost var start := balance;
    var rest := map q | q in requests :: I.OutstandingOn(requests[q], r);
    ghost var all := rest;
    TotalEmpty<Id>();
    while rest.Keys != {}
      invariant forall q :: q in rest ==> q in all && rest[q] == all[q]
      invariant forall q :: q in all && q !in rest ==> 0 <= all[q]
      invariant balance == start - Total(all) + Total(rest)
      decreases |rest|
    {
      var q :| q in rest.Keys;
      if rest[q] < 0 {
        assert I.OutstandingOn(requests[q], r) < 0;
        return Refused(Conflict);
      }
      TotalPick(rest, q);
      balance := balance - rest[q];
      rest := rest - {q};
    }
    assert rest == map[];
    forall q | q in requests ensures 0 <= I.OutstandingOn(requests[q], r) { assert q in all; }
    available := if balance < 0 then Refused(Conflict) else Done(balance);
  }

  /** Checks every line on its own against what is available. */
  method CheckDraws(b: Books, snapshot: Id, draws: seq<I.Draw>) returns (refusal: Option<Error>)
    ensures refusal == I.FirstRefusal(b, snapshot, draws)
  {
    for k := 0 to |draws|
      invariant I.FirstRefusal(b, snapshot, draws[..k]) == None
    {
      var available := InvoiceAvailableForUpdate(b, snapshot, draws[k].receivable);
      assert draws[..k + 1][..k] == draws[..k];
      if available.Refused? || draws[k].amount > available.value {
        refusal := Some(if available.Refused? then available.error else Conflict);
        RefusalStays(b, snapshot, draws, k + 1);
        return;
      }
    }
    assert draws[..|draws|] == draws;
    refusal := None;
  }

  lemma {:induction false} RefusalStays(b: Books, snapshot: Id, draws: seq<I.Draw>, k: nat)
    requires k <= |draws| && I.FirstRefusal(b, snapshot, draws[..k]).Some?
    ensures I.FirstRefusal(b, snapshot, draws) == I.FirstRefusal(b, snapshot, draws[..k])
  {
    if k == |draws| {
      assert draws[..k] == draws;
    } else {
      assert draws[..|draws| - 1][..k] == draws[..k];
      RefusalStays(b, snapshot, draws[..|draws| - 1], k);
    }
  }

  /** The rows of a new request: total and reservations are built line by line. */
  method CollectLines(draws: seq<I.Draw>) returns (total: int, positive: bool, distinct: bool, lines: map<Id, Reservation>)
    ensures total == I.SumDraws(draws) && lines == I.LinesOf(draws)
    ensures positive <==> !(exists k :: 0 <= k < |draws| && draws[k].amount <= 0)
    ensures distinct <==> I.NoDuplicates(draws)
  {
    total, positive, distinct, lines := 0, true, true, map[];
    for k := 0 to |draws|
      invariant total == I.SumDraws(draws[..k]) && lines == I.LinesOf(draws[..k])
      invariant positive <==> forall j :: 0 <= j < k ==> 0 < draws[j].amount
      invariant distinct <==> I.NoDuplicates(draws[..k])
    {
      var d := draws[k];
      assert draws[..k + 1][..k] == draws[..k];
      P.LinesOfSound(draws[..k]);
      if d.amount <= 0 { positive := false; }
      if d.receivable in lines { distinct := false; }
      total := total + d.amount;
      lines := lines[d.receivable := Reservation(d.amount, 0, 0, Reserved, map[])];
      Distinct(draws, k);
    }
    assert draws[..|draws|] == draws;
  }

  lemma Distinct(draws: seq<I.Draw>, k: nat)
    requires k < |draws|
    ensures I.NoDuplicates(draws[..k + 1]) <==>
      I.NoDuplicates(draws[..k]) && !(exists j :: 0 <= j < k && draws[..k][j].receivable == draws[k].receivable)
  {
    var more, less := draws[..k + 1], draws[..k];
    assert forall j :: 0 <= j < k ==> more[j] == less[j];
    if I.NoDuplicates(more) {
      forall i, j | 0 <= i < j < k ensures less[i].receivable != less[j].receivable { assert more[i].receivable != more[j].receivable; }
      forall j | 0 <= j < k ensures less[j].receivable != draws[k].receivable { assert more[j].receivable != more[k].receivable; }
    }
    if I.NoDuplicates(less) && !(exists j :: 0 <= j < k && less[j].receivable == draws[k].receivable) {
      forall i, j | 0 <= i < j < k + 1 ensures more[i].receivable != more[j].receivable {
        assert less[i].receivable != draws[k].receivable;
        if j < k { assert less[i].receivable != less[j].receivable; }
      }
    }
  }

  method CreateInvoiceRequest(db: Database, i: I.RequestInput) returns (err: Option<Error>)
    modifies db
    ensures Commits(old(db.State()), db.State(), I.CreateRequest(old(db.State()), i), err)
  {
    var total, positive, distinct, lines := CollectLines(i.draws);
    if i.draws == [] || !B.WellFormed(i.bill) || !positive { return Some(Invalid); }
    if total != i.bill.gross { return Some(Invalid); }
    if i.snapshot !in db.con.snapshots || db.con.snapshots[i.snapshot].status != Effective { return Some(Invalid); }
    var refusal := CheckDraws(db.State(), i.snapshot, i.draws);
    if refusal.Some? { return refusal; }
    if i.id in db.inv.requests || !distinct { return Some(Conflict); }
    db.inv := db.inv.(requests := db.inv.requests[i.id := Request(i.snapshot, Submitted, 1, i.user, i.special, i.bill, lines)]);
    return None;
  }

  // ---------- approval, rejection, cancellation, recovery

  lemma LastUnique(attempts: map<Id, Attempt>, q: Id, x: Id, y: Id)
    requires I.IsLast(attempts, q, x) && I.IsLast(attempts, q, y)
    ensures x == y
  {
    assert I.NotNewer(attempts, x, y) && I.NotNewer(attempts, y, x);
  }

  /** `ORDER BY attempt_no DESC LIMIT 1` over the attempts of a request. */
  method LatestAttempt(attempts: map<Id, Attempt>, q: Id) returns (last: Option<Id>)
    ensures last == I.LastAttempt(attempts, q)
  {
    last := None;
    var rest := attempts.Keys;
    while rest != {}
      invariant rest <= attempts.Keys
      invariant last.None? ==> forall x :: x in attempts && x !in rest ==> attempts[x].request != q
      invariant last.Some? ==> last.value in attempts && attempts[last.value].request == q
      invariant last.Some? ==> forall x :: x in attempts && x !in rest && attempts[x].request == q ==> I.NotNewer(attempts, x, last.value)
      decreases |rest|
    {
      var x :| x in rest;
      rest := rest - {x};
      if attempts[x].request == q && (last.None? || I.NotNewer(attempts, last.value, x)) { last := Some(x); }
    }
    if last.Some? {
      assert I.IsLast(attempts, q, last.value);
      LastUnique(attempts, q, last.value, I.LastAttempt(attempts, q).value);
    }
  }

  /** `createApprovedInvoiceAttempt` */
  method CreateApprovedAttempt(db: Database, q: Id, i: I.AttemptInput) returns (err: Option<Error>)
    requires q in db.inv.requests
    modifies db
    ensures Commits(old(db.State()), db.State(), I.CreateAttempt(old(db.State()), q, i), err)
  {
    if I.HasConflict(db.inv, q) { return Some(Conflict); }
    if i.id in db.inv.attempts || (i.channel == TaxAdapter && i.command in db.inv.commands) { return Some(Conflict); }
    var last := LatestAttempt(db.inv.attempts, q);
    var number := if last.None? then 1 else db.inv.attempts[last.value].number + 1;
    var request, command, commands := db.inv.requests[q], None, db.inv.commands;
    if i.channel == TaxAdapter {
      command := Some(i.command);
      commands := commands[i.command := Command(false, i.id, CommandPending)];
    }
    db.inv := db.inv.(
      requests := db.inv.requests[q := request.(status := IssuePending, version := request.version + 1)],
      attempts := db.inv.attempts[i.id := Attempt(q, number, i.channel, i.provider, AttemptPending, false, 0, false, command)],
      commands := commands);
    return None;
  }

  method ApproveInvoiceRequest(db: Database, q: Id, version: int, user: Id, i: I.AttemptInput) returns (err: Option<Error>)
    modifies db
    ensures Commits(old(db.State()), db.State(), I.ApproveRequest(old(db.State()), q, version, user, i), err)
  {
    if q !in db.inv.requests { return Some(Conflict); }
    var request := db.inv.requests[q];
    if request.status != Submitted || request.version != version { return Some(Conflict); }
    if request.applicant == user { return Some(Invalid); }
    if request.special {
      db.inv := db.inv.(requests := db.inv.requests[q := request.(status := SpecialReview, version := version + 1)]);
      return None;
    }
    err := CreateApprovedAttempt(db, q, i);
  }

  /** `UPDATE ... SET released=reserved-invoiced WHERE status='RESERVED'`, row by row; a rejection sets
      released=reserved, the same amount on a line that is not invoiced. */
  method ReleaseAllocations(lines: map<Id, Reservation>) returns (released: map<Id, Reservation>)
    ensures released == I.ReleaseAll(lines)
  {
    released := lines;
    var rest := lines.Keys;
    while rest != {}
      invariant rest <= lines.Keys && released.Keys == lines.Keys
      invariant forall r :: r in lines ==> released[r] == if r in rest then lines[r] else I.Release(lines[r])
      decreases |rest|
    {
      var r :| r in rest;
      rest := rest - {r};
      var l := released[r];
      if l.status == Reserved { released := released[r := l.(released := l.reserved - l.invoiced, status := Released)]; }
    }
  }

  method RejectInvoiceRequest(db: Database, q: Id, version: int, user: Id) returns (err: Option<Error>)
    modifies db
    ensures Commits(old(db.State()), db.State(), I.RejectRequest(old(db.State()), q, version, user), err)
  {
    if q !in db.inv.requests { return Some(Conflict); }
    var request := db.inv.requests[q];
    if request.status != Submitted || request.version != version { return Some(Conflict); }
    if request.applicant == user { return Some(Invalid); }
    var lines := ReleaseAllocations(request.lines);
    db.inv := db.inv.(requests := db.inv.requests[q := request.(status := Rejected, version := version + 1, lines := lines)]);
    return None;
  }

  method ReviewSpecialInvoice(db: Database, q: Id, version: int, user: Id, approve: bool, i: I.AttemptInput) returns (err: Option<Error>)
    modifies db
    ensures Commits(old(db.State()), db.State(), I.ReviewSpecial(old(db.State()), q, version, user, approve, i), err)
  {
    if q !in db.inv.requests { return Some(Conflict); }
    var request := db.inv.requests[q];
    if request.status != SpecialReview || request.version != version { return Some(Conflict); }
    if request.applicant == user { return Some(Forbidden); }
    if approve {
      err := CreateApprovedAttempt(db, q, i);
      return;
    }
    var lines := ReleaseAllocations(request.lines);
    db.inv := db.inv.(requests := db.inv.requests[q := request.(status := Rejected, version := version + 1, lines := lines)]);
    return None;
  }

  method CancelInvoiceRequest(db: Database, q: Id, version: int, user: Id) returns (err: Option<Error>)
    modifies db
    ensures Commits(old(db.State()), db.State(), I.CancelRequest(old(db.State()), q, version, user), err)
  {
    var last := LatestAttempt(db.inv.attempts, q);
    if last.Some? {
      var attempt := db.inv.attempts[last.value];
      if attempt.command.Some?
         && (attempt.command.value !in db.inv.commands || db.inv.commands[attempt.command.value].status != CommandDeadLetter) {
        return Some(Conflict);
      }
      if attempt.accepted || attempt.status !in {AttemptPending, AttemptFailed} { return Some(Conflict); }
    }
    if q !in db.inv.requests { return Some(NotFound); }
    var request := db.inv.requests[q];
    if request.status !in {IssuePending, IssueFailed} || request.version != version { return Some(Conflict); }
    if request.applicant == user { return Some(Invalid); }
    if (exists i :: i in db.inv.invoices && db.inv.invoices[i].request == q) || I.HasConflict(db.inv, q) { return Some(Conflict); }
    if last.Some? {
      db.inv := db.inv.(attempts := db.inv.attempts[last.value := db.inv.attempts[last.value].(status := AttemptAbandoned)]);
    }
    var lines := ReleaseAllocations(request.lines);
    db.inv := db.inv.(requests := db.inv.requests[q := request.(status := Cancelled, version := request.version + 1, lines := lines)]);
    return None;
  }

  method RecoverFailedInvoice(db: Database, q: Id, version: int, user: Id, provider: Id) returns (err: Option<Error>)
    modifies db
    ensures Commits(old(db.State()), db.State(), I.RecoverRequest(old(db.State()), q, version, user, provider), err)
  {
    if q !in db.inv.requests { return Some(NotFound); }
    var request := db.inv.requests[q];
    if request.status != IssueFailed || request.version != version { return Some(Conflict); }
    if request.applicant == user { return Some(Invalid); }
    var last := LatestAttempt(db.inv.attempts, q);
    if last.None? { return Some(Conflict); }
    var a := db.inv.attempts[last.value];
    if !(a.status == AttemptFailed && a.channel == TaxAdapter && 0 < a.sequence && a.reported && a.provider == provider) { return Some(Conflict); }
    if exists i :: i in db.inv.invoices && db.inv.invoices[i].request == q { return Some(Conflict); }
    if exists e :: e in db.inv.inbox && db.inv.inbox[e].verdict == ProviderConflict && !db.inv.inbox[e].callback.redFlush
                   && db.inv.inbox[e].callback.attempt == last.value { return Some(Conflict); }
    db.inv := db.inv.(requests := db.inv.requests[q := request.(status := Submitted, version := version + 1)]);
    return None;
  }

  // ---------- issuing

  /** `finalizeInvoiceAllocations`: every reserved line becomes invoiced and raises its receivable. */
  method FinalizeAllocations(ar: Ledger, lines: map<Id, Reservation>) returns (r: Outcome<(Ledger, map<Id, Reservation>)>)
    ensures r == if I.AllPresent(ar, lines) then Done((I.IssueLines(ar, lines), I.FinalizeAll(lines))) else Refused(NotFound)
  {
    var ledger, done := ar, lines;
    var rest := lines.Keys;
    while rest != {}
      invariant rest <= lines.Keys && ledger.Keys == ar.Keys && done.Keys == lines.Keys
      invariant forall x :: x in lines && x !in rest ==> x in ar
      invariant forall x :: x in ar ==>
        ledger[x] == if x in lines && x !in rest && lines[x].status == Reserved then I.IncrementInvoiced(ar[x], lines[x].reserved) else ar[x]
      invariant forall x :: x in lines ==> done[x] == if x in rest then lines[x] else I.Finalize(lines[x])
      decreases |rest|
    {
      var x :| x in rest;
      rest := rest - {x};
      if x !in ledger { return Refused(NotFound); }
      if done[x].status == Reserved {
        ledger := ledger[x := I.IncrementInvoiced(ledger[x], done[x].reserved)];
        done := done[x := done[x].(invoiced := done[x].reserved, status := Invoiced)];
      }
    }
    assert ledger == I.IssueLines(ar, lines);
    assert done == I.FinalizeAll(lines);
    r := Done((ledger, done));
  }

  method RegisterManualInvoice(db: Database, q: Id, id: Id) returns (err: Option<Error>)
    modifies db
    ensures Commits(old(db.State()), db.State(), I.RegisterManual(old(db.State()), q, id), err)
  {
    if q !in db.inv.requests || db.inv.requests[q].status != IssuePending { return Some(Conflict); }
    if !(exists a :: a in db.inv.attempts && I.ManualPendingFor(db.inv, a, q)) { return Some(Conflict); }
    if id in db.inv.invoices { return Some(Conflict); }
    var request := db.inv.requests[q];
    var issued := FinalizeAllocations(db.ar, request.lines);
    if issued.Refused? { return Some(issued.error); }
    var attempts := map a | a in db.inv.attempts ::
      if I.ManualPendingFor(db.inv, a, q) then db.inv.attempts[a].(status := AttemptIssued) else db.inv.attempts[a];
    db.ar := issued.value.0;
    db.inv := db.inv.(
      invoices := db.inv.invoices[id := Invoice(q, InvoiceIssued, B.HeaderOnly(request.bill), None)],
      requests := db.inv.requests[q := request.(status := Issued, version := request.version + 1, lines := issued.value.1)],
      attempts := attempts);
    return None;
  }

  // ---------- provider callbacks

  /** A decided callback: the tables are those of the specification, and so is the verdict. */
  ghost predicate Decides(before: Books, after: Books, spec: Outcome<I.Handled>, r: Outcome<Verdict>) {
    match spec
    case Done(h) => after == h.books && r == Done(h.verdict)
    case Refused(x) => after == before && r == Refused(x)
  }

  method MarkAttempt(db: Database, a: Id, sequence: nat, status: AttemptStatus, request: RequestStatus)
    requires a in db.inv.attempts && db.inv.attempts[a].request in db.inv.requests
    modifies db
    ensures db.State() == I.ReportOn(old(db.State()), a, sequence, status, request)
  {
    var attempt := db.inv.attempts[a];
    db.inv := db.inv.(attempts := db.inv.attempts[a := attempt.(status := status, sequence := sequence, reported := true)]);
    var row := db.inv.requests[attempt.request];
    if row.status in {IssuePending, IssueUnknown} {
      db.inv := db.inv.(requests := db.inv.requests[attempt.request := row.(status := request, version := row.version + 1)]);
    }
  }

  /** `recordLateIssueCallbackAfterCancel` */
  method RecordLateIssueCallback(db: Database, e: Callback) returns (verdict: Verdict)
    requires e.attempt in db.inv.attempts
    modifies db
    ensures if e.kind == ReportFailed then db.State() == old(db.State()) && verdict == IgnoredTerminal
            else db.State() == I.RaiseSequence(old(db.State()), e.attempt, e.sequence) && verdict == ProviderConflict
  {
    if e.kind == ReportFailed { return IgnoredTerminal; }
    var attempt := db.inv.attempts[e.attempt];
    db.inv := db.inv.(attempts := db.inv.attempts[e.attempt := attempt.(sequence := e.sequence, reported := true)]);
    verdict := ProviderConflict;
  }

  method IssueFromCallback(db: Database, e: Callback, id: Id) returns (err: Option<Error>)
    requires e.attempt in db.inv.attempts && db.inv.attempts[e.attempt].request in db.inv.requests
    modifies db
    ensures var before := old(db.State()); var q := before.inv.requests[before.inv.attempts[e.attempt].request];
      if e.bill != q.bill || id in before.inv.invoices then err == Some(Conflict) && db.State() == before
      else if !I.AllPresent(before.ar, q.lines) then err == Some(NotFound) && db.State() == before
      else err == None && db.State() == I.IssueInvoice(before, e.attempt, e.sequence, id)
  {
    var attempt := db.inv.attempts[e.attempt];
    var request := db.inv.requests[attempt.request];
    if e.bill != request.bill || id in db.inv.invoices { return Some(Conflict); }
    var issued := FinalizeAllocations(db.ar, request.lines);
    if issued.Refused? { return Some(issued.error); }
    db.inv := db.inv.(invoices := db.inv.invoices[id := Invoice(attempt.request, InvoiceIssued, request.bill, None)]);
    MarkAttempt(db, e.attempt, e.sequence, AttemptIssued, Issued);
    var moved := db.inv.requests[attempt.request];
    db.inv := db.inv.(requests := db.inv.requests[attempt.request := moved.(lines := issued.value.1)]);
    db.ar := issued.value.0;
    return None;
  }

  method ApplyInvoiceIssueCallback(db: Database, e: Callback, id: Id) returns (r: Outcome<Verdict>)
    modifies db
    ensures Decides(old(db.State()), db.State(), I.ApplyIssueCallback(old(db.State()), e, id), r)
  {
    if e.attempt !in db.inv.attempts || db.inv.attempts[e.attempt].channel != TaxAdapter { return Refused(NotFound); }
    var a := db.inv.attempts[e.attempt];
    if a.request !in db.inv.requests { return Refused(NotFound); }
    var q := db.inv.requests[a.request];
    if e.externalRequest != e.attempt || e.provider != a.provider { return Refused(Conflict); }
    if e.sequence <= a.sequence { return Done(IgnoredStale); }
    if a.status == AttemptIssued || q.status == Issued { return Done(IgnoredTerminal); }
    if a.status == AttemptFailed || q.status == IssueFailed {
      return Done(if e.kind == ReportIssued then ProviderConflict else IgnoredTerminal);
    }
    if a.status == AttemptAbandoned || q.status == Cancelled {
      var verdict := RecordLateIssueCallback(db, e);
      return Done(verdict);
    }
    match e.kind
    case ReportUnknown =>
      MarkAttempt(db, e.attempt, e.sequence, AttemptUnknown, IssueUnknown);
      return Done(Applied);
    case ReportFailed =>
      if !e.failureCode { return Refused(Invalid); }
      MarkAttempt(db, e.attempt, e.sequence, AttemptFailed, IssueFailed);
      return Done(Applied);
    case ReportIssued =>
      var err := IssueFromCallback(db, e, id);
      return if err.Some? then Refused(err.value) else Done(Applied);
  }

  /** `reverseInvoiceAllocations`: every invoiced line that no red flush took back lowers its receivable. */
  method ReverseAllocations(ar: Ledger, lines: map<Id, Reservation>, red: Id) returns (r: Outcome<(Ledger, map<Id, Reservation>)>)
    ensures r == if I.AllPresent(ar, lines) && !(exists x :: x in lines && I.TakenBackTwice(lines[x], red))
                 then Done((I.FlushLines(ar, lines, red), I.TakeBackAll(lines, red))) else Refused(Conflict)
  {
    var ledger, done := ar, lines;
    var rest := lines.Keys;
    while rest != {}
      invariant rest <= lines.Keys && ledger.Keys == ar.Keys && done.Keys == lines.Keys
      invariant forall x :: x in lines && x !in rest ==> x in ar && !I.TakenBackTwice(lines[x], red)
      invariant forall x :: x in ar ==>
        ledger[x] == if x in lines && x !in rest && lines[x].status == Invoiced && lines[x].reversals.Keys <= {red}
                     then I.DecrementInvoiced(ar[x], lines[x].invoiced) else ar[x]
      invariant forall x :: x in lines ==> done[x] == if x in rest then lines[x] else I.TakeBack(lines[x], red)
      decreases |rest|
    {
      var x :| x in rest;
      rest := rest - {x};
      if x !in ledger || I.TakenBackTwice(lines[x], red) { return Refused(Conflict); }
      var l := done[x];
      if l.status == Invoiced && l.reversals.Keys <= {red} {
        ledger := ledger[x := I.DecrementInvoiced(ledger[x], l.invoiced)];
        done := done[x := l.(reversals := l.reversals[red := l.invoiced])];
      }
    }
    FlushedIs(ar, lines, red, ledger, done);
    r := Done((ledger, done));
  }

  lemma FlushedIs(ar: Ledger, lines: map<Id, Reservation>, red: Id, ledger: Ledger, done: map<Id, Reservation>)
    requires ledger.Keys == ar.Keys && done.Keys == lines.Keys
    requires forall x :: x in ar ==>
      ledger[x] == if x in lines && lines[x].status == Invoiced && lines[x].reversals.Keys <= {red}
                   then I.DecrementInvoiced(ar[x], lines[x].invoiced) else ar[x]
    requires forall x :: x in lines ==> done[x] == I.TakeBack(lines[x], red)
    ensures ledger == I.FlushLines(ar, lines, red) && done == I.TakeBackAll(lines, red)
  {
  }

  /** Moves the attempt, and the named request if there is one. */
  method MarkRed(db: Database, a: Id, named: Id, sequence: nat, attempt: AttemptStatus, status: RedStatus)
    requires a in db.inv.redAttempts
    modifies db
    ensures db.State() == I.RedReportOn(old(db.State()), a, named, sequence, attempt, status)
  {
    var x := db.inv.redAttempts[a];
    db.inv := db.inv.(redAttempts := db.inv.redAttempts[a := x.(status := attempt, sequence := sequence)]);
    if named in db.inv.redRequests {
      var f := db.inv.redRequests[named];
      db.inv := db.inv.(redRequests := db.inv.redRequests[named := f.(status := status, version := f.version + 1)]);
    }
  }

  method FlushFromCallback(db: Database, e: Callback, named: Id, id: Id) returns (err: Option<Error>)
    requires e.attempt in db.inv.redAttempts && db.inv.redAttempts[e.attempt].invoice in db.inv.invoices
    requires db.inv.invoices[db.inv.redAttempts[e.attempt].invoice].request in db.inv.requests && id !in db.inv.invoices
    modifies db
    ensures var before := old(db.State()); var x := before.inv.redAttempts[e.attempt];
      var lines := before.inv.requests[before.inv.invoices[x.invoice].request].lines;
      if I.AllPresent(before.ar, lines) && I.MayFlush(before.inv, named, lines)
      then err == None && db.State() == I.FlushInvoice(before, e.attempt, named, e.sequence, id)
      else err == Some(Conflict) && db.State() == before
  {
    var x := db.inv.redAttempts[e.attempt];
    var o := db.inv.invoices[x.invoice];
    var q := db.inv.requests[o.request];
    if named !in db.inv.redRequests || db.inv.redRequests[named].relation.Some? { return Some(Conflict); }
    var taken := ReverseAllocations(db.ar, q.lines, named);
    if taken.Refused? { return Some(taken.error); }
    var red := Invoice(o.request, InvoiceIssued, B.RedBill(o.bill, q.bill.lines), Some(x.invoice));
    db.ar := taken.value.0;
    db.inv := db.inv.(
      invoices := db.inv.invoices[x.invoice := o.(status := InvoiceRedFlushed)][id := red],
      requests := db.inv.requests[o.request := q.(lines := taken.value.1)]);
    MarkRed(db, e.attempt, named, e.sequence, AttemptIssued, RedFlushed);
    db.inv := db.inv.(redRequests := db.inv.redRequests[named := db.inv.redRequests[named].(relation := Some(id))]);
    return None;
  }

  method ApplyRedFlushCallback(db: Database, e: Callback, id: Id) returns (r: Outcome<Verdict>)
    modifies db
    ensures Decides(old(db.State()), db.State(), I.ApplyRedCallback(old(db.State()), e, id), r)
  {
    if e.attempt !in db.inv.redAttempts { return Refused(NotFound); }
    var x := db.inv.redAttempts[e.attempt];
    if x.red !in db.inv.redRequests || x.invoice !in db.inv.invoices { return Refused(NotFound); }
    var f, o := db.inv.redRequests[x.red], db.inv.invoices[x.invoice];
    if o.request !in db.inv.requests { return Refused(NotFound); }
    if e.externalRequest != e.attempt || e.provider != x.provider { return Refused(Conflict); }
    if e.sequence <= x.sequence { return Done(IgnoredStale); }
    if f.status == RedFlushed || o.status != InvoiceIssued { return Done(IgnoredTerminal); }
    if f.status == RedFailed { return Done(if e.kind == ReportIssued then ProviderConflict else IgnoredTerminal); }
    if f.status !in {RedPending, RedUnknown} || !I.Live(x.status) { return Refused(Conflict); }
    var named := if e.red.None? then x.red else e.red.value;
    match e.kind
    case ReportUnknown =>
      MarkRed(db, e.attempt, named, e.sequence, AttemptUnknown, RedUnknown);
      return Done(Applied);
    case ReportFailed =>
      if !e.failureCode { return Refused(Invalid); }
      MarkRed(db, e.attempt, named, e.sequence, AttemptFailed, RedFailed);
      return Done(Applied);
    case ReportIssued =>
      if !B.HeaderOf(e.bill, o.bill, false) || e.bill.lines != db.inv.requests[o.request].bill.lines || id in db.inv.invoices { return Refused(Conflict); }
      var err := FlushFromCallback(db, e, named, id);
      return if err.Some? then Refused(err.value) else Done(Applied);
  }

  method ApplyTaxCallback(db: Database, e: Callback, id: Id) returns (err: Option<Error>)
    modifies db
    ensures Commits(old(db.State()), db.State(), I.ApplyCallback(old(db.State()), e, id), err)
  {
    if e.sequence == 0 { return Some(Invalid); }
    if e.event in db.inv.inbox {
      return if db.inv.inbox[e.event].callback == e then None else Some(Conflict);
    }
    var decided: Outcome<Verdict>;
    if e.redFlush { decided := ApplyRedFlushCallback(db, e, id); } else { decided := ApplyInvoiceIssueCallback(db, e, id); }
    if decided.Refused? { return Some(decided.error); }
    db.inv := db.inv.(inbox := db.inv.inbox[e.event := InboxRow(e, decided.value)]);
    return None;
  }

  // ---------- delivery, dead letters and red-flush requests

  /** The delivery record of a tax command also accepts its attempt if that is still pending. */
  method RecordDelivery(db: Database, c: Id) returns (err: Option<Error>)
    modifies db
    ensures Commits(old(db.State()), db.State(), I.MoveCommand(old(db.State()), c, CommandDelivered), err)
  {
    if c !in db.inv.commands { return Some(NotFound); }
    var command := db.inv.commands[c];
    if command.status != CommandProcessing { return Some(Conflict); }
    db.inv := db.inv.(commands := db.inv.commands[c := command.(status := CommandDelivered)]);
    if command.redFlush {
      db.inv := db.inv.(redAttempts := I.AcceptRed(db.inv.redAttempts, command.attempt));
    } else {
      db.inv := db.inv.(attempts := I.Accept(db.inv.attempts, command.attempt));
    }
    return None;
  }

  /** The outbox worker moves a command row: claim, failure, dead letter, delivery. */
  method MoveCommand(db: Database, c: Id, to: CommandStatus) returns (err: Option<Error>)
    modifies db
    ensures Commits(old(db.State()), db.State(), I.MoveCommand(old(db.State()), c, to), err)
  {
    if to == CommandDelivered {
      err := RecordDelivery(db, c);
      return;
    }
    if c !in db.inv.commands { return Some(NotFound); }
    var row := db.inv.commands[c];
    var claims := to == CommandProcessing && row.status in {CommandPending, CommandRetryWait, CommandProcessing};
    var fails := row.status == CommandProcessing && to in {CommandRetryWait, CommandDeadLetter};
    if !claims && !fails { return Some(Conflict); }
    db.inv := db.inv.(commands := db.inv.commands[c := row.(status := to)]);
    return None;
  }

  /** `RetryOutboxEvent` on a tax command. */
  method RetryOutboxCommand(db: Database, c: Id) returns (err: Option<Error>)
    modifies db
    ensures Commits(old(db.State()), db.State(), I.RetryOutbox(old(db.State()), c), err)
  {
    if c !in db.inv.commands { return Some(NotFound); }
    var command := db.inv.commands[c];
    if command.status != CommandDeadLetter { return Some(Conflict); }
    db.inv := db.inv.(commands := db.inv.commands[c := command.(status := CommandPending)]);
    return None;
  }

  method RetryTaxCommandDeadLetter(db: Database, c: Id) returns (err: Option<Error>)
    modifies db
    ensures Commits(old(db.State()), db.State(), I.RetryDeadLetter(old(db.State()), c), err)
  {
    if c !in db.inv.commands { return Some(NotFound); }
    var command := db.inv.commands[c];
    if command.status != CommandDeadLetter { return Some(Conflict); }
    var retryable := if command.redFlush then I.RetryableRed(db.inv, c, command.attempt) else I.RetryableIssue(db.inv, c, command.attempt);
    if !retryable { return Some(Conflict); }
    db.inv := db.inv.(commands := db.inv.commands[c := command.(status := CommandPending)]);
    return None;
  }

  method RequestInvoiceRedFlush(db: Database, id: Id, invoice: Id, user: Id) returns (err: Option<Error>)
    modifies db
    ensures Commits(old(db.State()), db.State(), I.RequestRedFlush(old(db.State()), id, invoice, user), err)
  {
    if invoice !in db.inv.invoices { return Some(NotFound); }
    if db.inv.invoices[invoice].status != InvoiceIssued { return Some(Conflict); }
    if exists x :: x in db.inv.redRequests && db.inv.redRequests[x].invoice == invoice
                   && db.inv.redRequests[x].status in {RedSubmitted, RedPending, RedUnknown} { return Some(Conflict); }
    if id in db.inv.redRequests { return Some(Conflict); }
    db.inv := db.inv.(redRequests := db.inv.redRequests[id := RedRequest(invoice, RedSubmitted, 1, user, NOBODY, None)]);
    return None;
  }

  method ReviewInvoiceRedFlush(db: Database, id: Id, version: int, user: Id, approve: bool, i: I.AttemptInput) returns (err: Option<Error>)
    modifies db
    ensures Commits(old(db.State()), db.State(), I.ReviewRedFlush(old(db.State()), id, version, user, approve, i), err)
  {
    if id !in db.inv.redRequests { return Some(NotFound); }
    var f := db.inv.redRequests[id];
    if approve && f.status == RedPending && f.reviewedBy == user { return None; }
    if f.status != RedSubmitted || f.version != version || f.requestedBy == user { return Some(Conflict); }
    if !approve {
      db.inv := db.inv.(redRequests := db.inv.redRequests[id := f.(status := RedRejected, reviewedBy := user, version := version + 1)]);
      return None;
    }
    if i.channel != TaxAdapter || i.id in db.inv.redAttempts || i.command in db.inv.commands { return Some(Conflict); }
    db.inv := db.inv.(
      redRequests := db.inv.redRequests[id := f.(status := RedPending, reviewedBy := user, version := version + 1)],
      redAttempts := db.inv.redAttempts[i.id := RedAttempt(id, f.invoice, i.provider, AttemptPending, false, 0, Some(i.command))],
      commands := db.inv.commands[i.command := Command(true, i.id, CommandPending)]);
    return None;
  }
}
