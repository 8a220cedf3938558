/** Invoice requests, issue attempts, provider callbacks, cancellation, recovery and red flush.
    internal/service: invoice_request.go, invoice_reservation.go, invoice_approval.go,
    invoice_manual.go, invoice_cancel.go, invoice_recovery.go, invoice_totals.go,
    tax_callback.go, tax_deadletter.go, invoice_redflush_request.go,
    invoice_redflush_review.go, outbox_action.go; internal/outbox/worker.go (delivery record). */
module Invoicing {
  import opened Tables
  import opened Totals
  import opened Billing

  // ---------- reservations and invoiced amounts

  predicate Live(s: AttemptStatus) {
    s in {AttemptPending, AttemptAccepted, AttemptUnknown}
  }

  /** The status every reservation of a request has, given the request's status. */
  function LineStatus(s: RequestStatus): ReservationStatus {
    match s
    case Issued => Invoiced
    case Rejected => Released
    case Cancelled => Released
    case _ => Reserved
  }

  function Outstanding(l: Reservation): int {
    if l.status == Reserved then l.reserved - l.invoiced - l.released else 0
  }

  /** Invoiced and not taken back by a red flush. */
  function Standing(l: Reservation): int {
    if l.status == Invoiced && l.reversals == map[] then l.invoiced else 0
  }

  function OutstandingOn(q: Request, r: Id): int {
    if r in q.lines then Outstanding(q.lines[r]) else 0
  }

  function StandingOn(q: Request, r: Id): int {
    if r in q.lines then Standing(q.lines[r]) else 0
  }

  ghost function ReservedTotal(requests: map<Id, Request>, r: Id): int {
    Total(map q | q in requests :: OutstandingOn(requests[q], r))
  }

  ghost function InvoicedTotal(requests: map<Id, Request>, r: Id): int {
    Total(map q | q in requests :: StandingOn(requests[q], r))
  }

  // ---------- the invariant

  predicate LineSound(redRequests: map<Id, RedRequest>, q: Request, r: Id)
    requires r in q.lines
  {
    var l := q.lines[r];
    && 0 < l.reserved
    && l.status == LineStatus(q.status)
    && l.invoiced == (if l.status == Invoiced then l.reserved else 0)
    && l.released == (if l.status == Released then l.reserved else 0)
    && (forall k :: k in l.reversals ==>
          l.status == Invoiced && l.reversals[k] == l.reserved && k in redRequests && redRequests[k].relation.Some?)
    && (forall k, j :: k in l.reversals && j in l.reversals ==> k == j)
  }

  predicate LiveFor(attempts: map<Id, Attempt>, a: Id, q: Id) {
    a in attempts && attempts[a].request == q && Live(attempts[a].status)
  }

  predicate BlueFor(invoices: map<Id, Invoice>, i: Id, q: Id) {
    i in invoices && invoices[i].request == q && invoices[i].redOf == None
  }

  ghost predicate RequestSound(t: InvoiceTables, ar: Ledger, q: Id)
    requires q in t.requests
  {
    var row := t.requests[q];
    && WellFormed(row.bill)
    && (forall r :: r in row.lines ==> r in ar && LineSound(t.redRequests, row, r))
    && (row.status in {IssuePending, IssueUnknown} ==> exists a :: LiveFor(t.attempts, a, q))
    && (row.status == Issued ==> exists i :: BlueFor(t.invoices, i, q))
  }

  /** ORDER BY attempt_no, id */
  predicate NotNewer(attempts: map<Id, Attempt>, x: Id, a: Id)
    requires x in attempts && a in attempts
  {
    attempts[x].number < attempts[a].number || (attempts[x].number == attempts[a].number && x.n <= a.n)
  }

  predicate Newest(attempts: map<Id, Attempt>, a: Id)
    requires a in attempts
  {
    forall x :: x in attempts && attempts[x].request == attempts[a].request ==> NotNewer(attempts, x, a)
  }

  ghost predicate AttemptSound(t: InvoiceTables, a: Id)
    requires a in t.attempts
  {
    var row := t.attempts[a];
    && row.request in t.requests
    && 1 <= row.number
    && (forall x :: x in t.attempts && t.attempts[x].request == row.request && t.attempts[x].number == row.number ==> x == a)
    && (Live(row.status) ==>
          && t.requests[row.request].status == (if row.status == AttemptUnknown then IssueUnknown else IssuePending)
          && Newest(t.attempts, a))
  }

  ghost predicate InvoiceSound(t: InvoiceTables, i: Id)
    requires i in t.invoices
  {
    var row := t.invoices[i];
    && row.request in t.requests
    && t.requests[row.request].status == Issued
    && (HeaderOf(row.bill, t.requests[row.request].bill, false) || HeaderOf(row.bill, t.requests[row.request].bill, true))
    && match row.redOf
       case None =>
         && IsFaceOf(row.bill, t.requests[row.request].bill)
         && forall j :: BlueFor(t.invoices, j, row.request) ==> j == i
       case Some(o) =>
         && o in t.invoices && t.invoices[o].request == row.request
         && row.bill == RedBill(t.invoices[o].bill, t.requests[row.request].bill.lines)
  }

  /** Stored invoiced amount = standing invoiced reservations, and together with what is
      still reserved it never exceeds the receivable. */
  ghost predicate CapacitySound(requests: map<Id, Request>, ar: Ledger, r: Id)
    requires r in ar
  {
    && ar[r].invoiced == InvoicedTotal(requests, r)
    && ar[r].invoiced + ReservedTotal(requests, r) <= ar[r].original
  }

  /** A red-flush request has at most one attempt, and none before it is approved. */
  predicate RedAttemptSound(t: InvoiceTables, x: Id)
    requires x in t.redAttempts
  {
    var row := t.redAttempts[x];
    && row.red in t.redRequests
    && t.redRequests[row.red].invoice == row.invoice && t.redRequests[row.red].status != RedSubmitted
    && row.invoice in t.invoices
    && (forall y :: y in t.redAttempts && t.redAttempts[y].red == row.red ==> y == x)
  }

  predicate RedRequestSound(t: InvoiceTables, x: Id)
    requires x in t.redRequests
  {
    t.redRequests[x].invoice in t.invoices
  }

  ghost predicate InvoiceInv(t: InvoiceTables, ar: Ledger) {
    && (forall q {:trigger RequestSound(t, ar, q)} :: q in t.requests ==> RequestSound(t, ar, q))
    && (forall a {:trigger AttemptSound(t, a)} :: a in t.attempts ==> AttemptSound(t, a))
    && (forall i {:trigger InvoiceSound(t, i)} :: i in t.invoices ==> InvoiceSound(t, i))
    && (forall r {:trigger CapacitySound(t.requests, ar, r)} :: r in ar ==> CapacitySound(t.requests, ar, r))
    && (forall x {:trigger RedAttemptSound(t, x)} :: x in t.redAttempts ==> RedAttemptSound(t, x))
    && (forall x {:trigger RedRequestSound(t, x)} :: x in t.redRequests ==> RedRequestSound(t, x))
  }

  // ---------- selections

  ghost predicate IsLast(attempts: map<Id, Attempt>, q: Id, a: Id) {
    a in attempts && attempts[a].request == q && Newest(attempts, a)
  }

  /** The attempt with the highest number, if the request has any. */
  ghost function LastAttempt(attempts: map<Id, Attempt>, q: Id): (r: Option<Id>)
    ensures r.Some? ==> IsLast(attempts, q, r.value)
  {
    if exists a :: IsLast(attempts, q, a) then
      var a :| IsLast(attempts, q, a);
      Some(a)
    else None
  }

  lemma {:induction false} LastExists(attempts: map<Id, Attempt>, q: Id, of: set<Id>)
    requires of != {} && forall a :: a in of ==> a in attempts && attempts[a].request == q
    ensures exists a :: a in of && forall x :: x in of ==> NotNewer(attempts, x, a)
    decreases |of|
  {
    var a :| a in of;
    var rest := of - {a};
    if rest != {} {
      LastExists(attempts, q, rest);
      var best :| best in rest && forall x :: x in rest ==> NotNewer(attempts, x, best);
      var top := if NotNewer(attempts, a, best) then best else a;
      forall x | x in of ensures NotNewer(attempts, x, top) {
        assert x != a ==> NotNewer(attempts, x, best);
      }
      assert top in of;
    } else {
      forall x | x in of ensures NotNewer(attempts, x, a) { assert x != a ==> x in rest; }
    }
  }

  lemma LastOf(attempts: map<Id, Attempt>, a: Id)
    requires a in attempts
    ensures LastAttempt(attempts, attempts[a].request).Some?
  {
    var q := attempts[a].request;
    var of := set x | x in attempts && attempts[x].request == q;
    assert a in of;
    LastExists(attempts, q, of);
    var top :| top in of && forall x :: x in of ==> NotNewer(attempts, x, top);
    assert IsLast(attempts, q, top);
  }

  ghost function NextNumber(attempts: map<Id, Attempt>, q: Id): int {
    match LastAttempt(attempts, q)
    case None => 1
    case Some(a) => attempts[a].number + 1
  }

  /** A provider-conflict result was filed against some attempt of the request. */
  predicate HasConflict(t: InvoiceTables, q: Id) {
    exists e :: e in t.inbox && t.inbox[e].verdict == ProviderConflict && !t.inbox[e].callback.redFlush
                && t.inbox[e].callback.attempt in t.attempts && t.attempts[t.inbox[e].callback.attempt].request == q
  }

  // ---------- effects on lines and receivables

  function Finalize(l: Reservation): Reservation {
    if l.status == Reserved then l.(invoiced := l.reserved, status := Invoiced) else l
  }

  /** A cancellation releases what is reserved and not invoiced, a rejection the whole reserved amount
      (internal/service/invoice_approval.go).  A reserved line has nothing invoiced (`LineSound`), so the
      two are the same amount. */
  function Release(l: Reservation): Reservation {
    if l.status == Reserved then l.(released := l.reserved - l.invoiced, status := Released) else l
  }

  /** Skipped when any other red flush already took the line back. */
  function TakeBack(l: Reservation, red: Id): Reservation {
    if l.status == Invoiced && l.reversals.Keys <= {red} then l.(reversals := l.reversals[red := l.invoiced]) else l
  }

  /** The reversal row of this red flush exists already: its unique key refuses a second one. */
  predicate TakenBackTwice(l: Reservation, red: Id) {
    l.status == Invoiced && red in l.reversals && l.reversals.Keys <= {red}
  }

  function FinalizeAll(lines: map<Id, Reservation>): map<Id, Reservation> {
    map r | r in lines :: Finalize(lines[r])
  }

  function ReleaseAll(lines: map<Id, Reservation>): map<Id, Reservation> {
    map r | r in lines :: Release(lines[r])
  }

  function TakeBackAll(lines: map<Id, Reservation>, red: Id): map<Id, Reservation> {
    map r | r in lines :: TakeBack(lines[r], red)
  }

  function IncrementInvoiced(row: Receivable, amount: int): Receivable {
    var next := row.invoiced + amount;
    row.(invoiced := next, mark := if next >= row.original then FullyInvoiced else PartiallyInvoiced)
  }

  /** The stored amount is clamped at zero. */
  function DecrementInvoiced(row: Receivable, amount: int): Receivable {
    var next := if row.invoiced - amount < 0 then 0 else row.invoiced - amount;
    row.(invoiced := next,
         mark := if next == 0 then NotInvoiced else if next >= row.original then FullyInvoiced else PartiallyInvoiced)
  }

  function IssueLines(ar: Ledger, lines: map<Id, Reservation>): Ledger {
    map r | r in ar :: if r in lines && lines[r].status == Reserved then IncrementInvoiced(ar[r], lines[r].reserved) else ar[r]
  }

  function FlushLines(ar: Ledger, lines: map<Id, Reservation>, red: Id): Ledger {
    map r | r in ar ::
      if r in lines && lines[r].status == Invoiced && lines[r].reversals.Keys <= {red}
      then DecrementInvoiced(ar[r], lines[r].invoiced) else ar[r]
  }

  predicate AllPresent(ar: Ledger, lines: map<Id, Reservation>) {
    forall r :: r in lines ==> r in ar
  }

  // ---------- transactions

  datatype Draw = Draw(receivable: Id, amount: int)

  predicate NoDuplicates(draws: seq<Draw>) {
    forall i, j :: 0 <= i < j < |draws| ==> draws[i].receivable != draws[j].receivable
  }

  function SumDraws(draws: seq<Draw>): int {
    if draws == [] then 0 else SumDraws(draws[..|draws| - 1]) + draws[|draws| - 1].amount
  }

  function LinesOf(draws: seq<Draw>): (m: map<Id, Reservation>)
  {
    if draws == [] then map[]
    else
      var d := draws[|draws| - 1];
      LinesOf(draws[..|draws| - 1])[d.receivable := Reservation(d.amount, 0, 0, Reserved, map[])]
  }

  predicate Overdrawn(requests: map<Id, Request>, r: Id) {
    exists q :: q in requests && OutstandingOn(requests[q], r) < 0
  }

  /** `invoiceAvailableForUpdate` */
  ghost function InvoiceAvailable(b: Books, snapshot: Id, r: Id): Outcome<int> {
    if r !in b.ar || b.ar[r].snapshot != snapshot then Refused(NotFound)
    else
      var available := b.ar[r].original - b.ar[r].invoiced - ReservedTotal(b.inv.requests, r);
      if Overdrawn(b.inv.requests, r) || available < 0 then Refused(Conflict) else Done(available)
  }

  ghost function Refusal(b: Books, snapshot: Id, d: Draw): Option<Error> {
    var available := InvoiceAvailable(b, snapshot, d.receivable);
    if available.Refused? then Some(available.error) else if d.amount > available.value then Some(Conflict) else None
  }

  /** Every line is checked on its own; the first that does not fit decides. */
  ghost function FirstRefusal(b: Books, snapshot: Id, draws: seq<Draw>): Option<Error> {
    if draws == [] then None
    else
      var before := FirstRefusal(b, snapshot, draws[..|draws| - 1]);
      if before.Some? then before else Refusal(b, snapshot, draws[|draws| - 1])
  }

  lemma {:induction false} AllFit(b: Books, snapshot: Id, draws: seq<Draw>, k: nat)
    requires FirstRefusal(b, snapshot, draws) == None && k < |draws|
    ensures Refusal(b, snapshot, draws[k]) == None
  {
    if k < |draws| - 1 { AllFit(b, snapshot, draws[..|draws| - 1], k); }
  }

  datatype RequestInput = RequestInput(id: Id, snapshot: Id, user: Id, special: bool, bill: Bill, draws: seq<Draw>)

  /** A line that does not fit is refused before anything is written, and a receivable drawn
      on twice violates the unique key of the reservation table. */
  ghost function CreateRequest(b: Books, i: RequestInput): Outcome<Books> {
    if i.draws == [] || !WellFormed(i.bill) || (exists k :: 0 <= k < |i.draws| && i.draws[k].amount <= 0) then Refused(Invalid)
    else if SumDraws(i.draws) != i.bill.gross then Refused(Invalid)
    else if i.snapshot !in b.con.snapshots || b.con.snapshots[i.snapshot].status != Effective then Refused(Invalid)
    else if FirstRefusal(b, i.snapshot, i.draws).Some? then Refused(FirstRefusal(b, i.snapshot, i.draws).value)
    else if i.id in b.inv.requests || !NoDuplicates(i.draws) then Refused(Conflict)
    else
      Done(b.(inv := b.inv.(requests := b.inv.requests[i.id :=
        Request(i.snapshot, Submitted, 1, i.user, i.special, i.bill, LinesOf(i.draws))])))
  }

  datatype AttemptInput = AttemptInput(id: Id, channel: Channel, provider: Id, command: Id)

  /** `createApprovedInvoiceAttempt` */
  ghost function CreateAttempt(b: Books, q: Id, i: AttemptInput): Outcome<Books>
    requires q in b.inv.requests
  {
    var t := b.inv;
    if HasConflict(t, q) then Refused(Conflict)
    else if i.id in t.attempts || (i.channel == TaxAdapter && i.command in t.commands) then Refused(Conflict)
    else
      var row := t.requests[q];
      var tax := i.channel == TaxAdapter;
      Done(b.(inv := t.(
        requests := t.requests[q := row.(status := IssuePending, version := row.version + 1)],
        attempts := t.attempts[i.id := Attempt(q, NextNumber(t.attempts, q), i.channel, i.provider, AttemptPending,
                                               false, 0, false, if tax then Some(i.command) else None)],
        commands := if tax then t.commands[i.command := Command(false, i.id, CommandPending)] else t.commands)))
  }

  ghost function ApproveRequest(b: Books, q: Id, version: int, user: Id, i: AttemptInput): Outcome<Books> {
    var t := b.inv;
    if q !in t.requests || t.requests[q].status != Submitted || t.requests[q].version != version then Refused(Conflict)
    else if t.requests[q].applicant == user then Refused(Invalid)
    else if t.requests[q].special then
      Done(b.(inv := t.(requests := t.requests[q := t.requests[q].(status := SpecialReview, version := version + 1)])))
    else CreateAttempt(b, q, i)
  }

  function ReleaseRequest(b: Books, q: Id, status: RequestStatus): Books
    requires q in b.inv.requests
  {
    var row := b.inv.requests[q];
    b.(inv := b.inv.(requests := b.inv.requests[q :=
      row.(status := status, version := row.version + 1, lines := ReleaseAll(row.lines))]))
  }

  function RejectRequest(b: Books, q: Id, version: int, user: Id): Outcome<Books> {
    var t := b.inv;
    if q !in t.requests || t.requests[q].status != Submitted || t.requests[q].version != version then Refused(Conflict)
    else if t.requests[q].applicant == user then Refused(Invalid)
    else Done(ReleaseRequest(b, q, Rejected))
  }

  ghost function ReviewSpecial(b: Books, q: Id, version: int, user: Id, approve: bool, i: AttemptInput): Outcome<Books> {
    var t := b.inv;
    if q !in t.requests || t.requests[q].status != SpecialReview || t.requests[q].version != version then Refused(Conflict)
    else if t.requests[q].applicant == user then Refused(Forbidden)
    else if approve then CreateAttempt(b, q, i)
    else Done(ReleaseRequest(b, q, Rejected))
  }

  /** `CancelInvoiceRequest`: only when the newest attempt was provably never accepted. */
  ghost function CancelRequest(b: Books, q: Id, version: int, user: Id): Outcome<Books> {
    var t := b.inv;
    var last := LastAttempt(t.attempts, q);
    if last.Some? && t.attempts[last.value].command.Some?
       && (t.attempts[last.value].command.value !in t.commands
           || t.commands[t.attempts[last.value].command.value].status != CommandDeadLetter) then Refused(Conflict)
    else if last.Some? && (t.attempts[last.value].accepted
                           || t.attempts[last.value].status !in {AttemptPending, AttemptFailed}) then Refused(Conflict)
    else if q !in t.requests then Refused(NotFound)
    else if t.requests[q].status !in {IssuePending, IssueFailed} || t.requests[q].version != version then Refused(Conflict)
    else if t.requests[q].applicant == user then Refused(Invalid)
    else if (exists i :: i in t.invoices && t.invoices[i].request == q) || HasConflict(t, q) then Refused(Conflict)
    else
      var n := ReleaseRequest(b, q, Cancelled);
      Done(match last
           case None => n
           case Some(a) => n.(inv := n.inv.(attempts := t.attempts[a := t.attempts[a].(status := AttemptAbandoned)])))
  }

  /** `RecoverFailedInvoice`: back to the approval queue, without a new command. */
  ghost function RecoverRequest(b: Books, q: Id, version: int, user: Id, provider: Id): Outcome<Books> {
    var t := b.inv;
    if q !in t.requests then Refused(NotFound)
    else if t.requests[q].status != IssueFailed || t.requests[q].version != version then Refused(Conflict)
    else if t.requests[q].applicant == user then Refused(Invalid)
    else
      var last := LastAttempt(t.attempts, q);
      if last.None? then Refused(Conflict)
      else
        var a := t.attempts[last.value];
        if !(a.status == AttemptFailed && a.channel == TaxAdapter && 0 < a.sequence && a.reported && a.provider == provider)
        then Refused(Conflict)
        else if (exists i :: i in t.invoices && t.invoices[i].request == q)
                || (exists e :: e in t.inbox && t.inbox[e].verdict == ProviderConflict && !t.inbox[e].callback.redFlush
                                && t.inbox[e].callback.attempt == last.value)
        then Refused(Conflict)
        else Done(b.(inv := t.(requests := t.requests[q := t.requests[q].(status := Submitted, version := version + 1)])))
  }

  predicate ManualPendingFor(t: InvoiceTables, a: Id, q: Id) {
    a in t.attempts && t.attempts[a].request == q && t.attempts[a].channel == Manual && t.attempts[a].status == AttemptPending
  }

  /** `RegisterManualInvoice` */
  function RegisterManual(b: Books, q: Id, id: Id): Outcome<Books> {
    var t := b.inv;
    if q !in t.requests || t.requests[q].status != IssuePending
       || !(exists a :: a in t.attempts && ManualPendingFor(t, a, q)) then Refused(Conflict)
    else if id in t.invoices then Refused(Conflict)
    else if !AllPresent(b.ar, t.requests[q].lines) then Refused(NotFound)
    else
      var row := t.requests[q];
      Done(b.(
        ar := IssueLines(b.ar, row.lines),
        inv := t.(
          invoices := t.invoices[id := Invoice(q, InvoiceIssued, HeaderOnly(row.bill), None)],
          requests := t.requests[q := row.(status := Issued, version := row.version + 1, lines := FinalizeAll(row.lines))],
          attempts := map a | a in t.attempts ::
            if ManualPendingFor(t, a, q) then t.attempts[a].(status := AttemptIssued) else t.attempts[a])))
  }

  // ---------- provider callbacks

  /** What one callback decides: the new state without the inbox row, and the verdict. */
  datatype Handled = Handled(books: Books, verdict: Verdict)

  /** `UPDATE ... WHERE status IN ('ISSUE_PENDING','ISSUE_UNKNOWN')`, affected rows unchecked. */
  function MoveRequest(requests: map<Id, Request>, q: Id, status: RequestStatus): map<Id, Request>
    requires q in requests
  {
    if requests[q].status in {IssuePending, IssueUnknown}
    then requests[q := requests[q].(status := status, version := requests[q].version + 1)] else requests
  }

  /** The provider does not know, or has failed: attempt and request move together. */
  function ReportOn(b: Books, a: Id, sequence: nat, attempt: AttemptStatus, request: RequestStatus): Books
    requires a in b.inv.attempts && b.inv.attempts[a].request in b.inv.requests
  {
    var t := b.inv;
    b.(inv := t.(
      attempts := t.attempts[a := t.attempts[a].(status := attempt, sequence := sequence, reported := true)],
      requests := MoveRequest(t.requests, t.attempts[a].request, request)))
  }

  /** A late report on a cancelled request is only noted. */
  function RaiseSequence(b: Books, a: Id, sequence: nat): Books
    requires a in b.inv.attempts
  {
    b.(inv := b.inv.(attempts := b.inv.attempts[a := b.inv.attempts[a].(sequence := sequence, reported := true)]))
  }

  /** The accepted issue report: the invoice, the attempt, the request and every reservation. */
  function IssueInvoice(b: Books, a: Id, sequence: nat, id: Id): Books
    requires a in b.inv.attempts && b.inv.attempts[a].request in b.inv.requests
  {
    var t, q := b.inv, b.inv.attempts[a].request;
    var moved := MoveRequest(t.requests, q, Issued);
    b.(ar := IssueLines(b.ar, t.requests[q].lines),
       inv := t.(
         invoices := t.invoices[id := Invoice(q, InvoiceIssued, t.requests[q].bill, None)],
         attempts := t.attempts[a := t.attempts[a].(status := AttemptIssued, sequence := sequence, reported := true)],
         requests := moved[q := moved[q].(lines := FinalizeAll(t.requests[q].lines))]))
  }

  function ApplyIssueCallback(b: Books, e: Callback, id: Id): Outcome<Handled> {
    var t := b.inv;
    if e.attempt !in t.attempts || t.attempts[e.attempt].channel != TaxAdapter then Refused(NotFound)
    else
      var a := t.attempts[e.attempt];
      if a.request !in t.requests then Refused(NotFound)
      else
        var q := t.requests[a.request];
        if e.externalRequest != e.attempt || e.provider != a.provider then Refused(Conflict)
        else if e.sequence <= a.sequence then Done(Handled(b, IgnoredStale))
        else if a.status == AttemptIssued || q.status == Issued then Done(Handled(b, IgnoredTerminal))
        else if a.status == AttemptFailed || q.status == IssueFailed then
          Done(Handled(b, if e.kind == ReportIssued then ProviderConflict else IgnoredTerminal))
        else if a.status == AttemptAbandoned || q.status == Cancelled then
          if e.kind == ReportFailed then Done(Handled(b, IgnoredTerminal))
          else Done(Handled(RaiseSequence(b, e.attempt, e.sequence), ProviderConflict))
        else match e.kind
          case ReportUnknown =>
            Done(Handled(ReportOn(b, e.attempt, e.sequence, AttemptUnknown, IssueUnknown), Applied))
          case ReportFailed =>
            if !e.failureCode then Refused(Invalid)
            else Done(Handled(ReportOn(b, e.attempt, e.sequence, AttemptFailed, IssueFailed), Applied))
          case ReportIssued =>
            if e.bill != q.bill || id in t.invoices then Refused(Conflict)
            else if !AllPresent(b.ar, q.lines) then Refused(NotFound)
            else Done(Handled(IssueInvoice(b, e.attempt, e.sequence, id), Applied))
  }

  /** The red-flush request a report writes to: the one it names, and that of its attempt only when it
      names none.  The two are never compared (internal/service/tax_callback.go:300-304). */
  function NamedRed(t: InvoiceTables, e: Callback): Id
    requires e.attempt in t.redAttempts
  {
    if e.red.Some? then e.red.value else t.redAttempts[e.attempt].red
  }

  /** `UPDATE ... WHERE id=?`, affected rows unchecked. */
  function MoveRed(rows: map<Id, RedRequest>, named: Id, status: RedStatus): map<Id, RedRequest> {
    if named in rows then rows[named := rows[named].(status := status, version := rows[named].version + 1)] else rows
  }

  /** The provider does not know, or has failed: the attempt moves, and so does the named request. */
  function RedReportOn(b: Books, a: Id, named: Id, sequence: nat, attempt: AttemptStatus, status: RedStatus): Books
    requires a in b.inv.redAttempts
  {
    var t := b.inv;
    b.(inv := t.(
      redAttempts := t.redAttempts[a := t.redAttempts[a].(status := attempt, sequence := sequence)],
      redRequests := MoveRed(t.redRequests, named, status)))
  }

  /** The accepted red-flush report: the red invoice, the original, the relation and reversal rows of
      the named request, and every line. */
  function FlushInvoice(b: Books, a: Id, named: Id, sequence: nat, id: Id): Books
    requires a in b.inv.redAttempts && named in b.inv.redRequests
    requires b.inv.redAttempts[a].invoice in b.inv.invoices
    requires b.inv.invoices[b.inv.redAttempts[a].invoice].request in b.inv.requests
  {
    var t := b.inv;
    var x, f := t.redAttempts[a], t.redRequests[named];
    var o := t.invoices[x.invoice];
    var q := t.requests[o.request];
    b.(ar := FlushLines(b.ar, q.lines, named),
       inv := t.(
         invoices := t.invoices[x.invoice := o.(status := InvoiceRedFlushed)]
                               [id := Invoice(o.request, InvoiceIssued, RedBill(o.bill, q.bill.lines), Some(x.invoice))],
         redRequests := t.redRequests[named := f.(status := RedFlushed, version := f.version + 1, relation := Some(id))],
         redAttempts := t.redAttempts[a := x.(status := AttemptIssued, sequence := sequence)],
         requests := t.requests[o.request := q.(lines := TakeBackAll(q.lines, named))]))
  }

  /** The keys of the relation and reversal tables: the named request exists and has no relation row
      yet, and it has not taken back any of these lines. */
  predicate MayFlush(t: InvoiceTables, named: Id, lines: map<Id, Reservation>) {
    && named in t.redRequests && t.redRequests[named].relation.None?
    && !(exists r :: r in lines && TakenBackTwice(lines[r], named))
  }

  function ApplyRedCallback(b: Books, e: Callback, id: Id): Outcome<Handled> {
    var t := b.inv;
    if e.attempt !in t.redAttempts then Refused(NotFound)
    else
      var x, named := t.redAttempts[e.attempt], NamedRed(t, e);
      if x.red !in t.redRequests || x.invoice !in t.invoices || t.invoices[x.invoice].request !in t.requests then Refused(NotFound)
      else
        var f, o := t.redRequests[x.red], t.invoices[x.invoice];
        var q := t.requests[o.request];
        if e.externalRequest != e.attempt || e.provider != x.provider then Refused(Conflict)
        else if e.sequence <= x.sequence then Done(Handled(b, IgnoredStale))
        else if f.status == RedFlushed || o.status != InvoiceIssued then Done(Handled(b, IgnoredTerminal))
        else if f.status == RedFailed then
          Done(Handled(b, if e.kind == ReportIssued then ProviderConflict else IgnoredTerminal))
        else if f.status !in {RedPending, RedUnknown} || !Live(x.status) then Refused(Conflict)
        else match e.kind
          case ReportUnknown =>
            Done(Handled(RedReportOn(b, e.attempt, named, e.sequence, AttemptUnknown, RedUnknown), Applied))
          case ReportFailed =>
            if !e.failureCode then Refused(Invalid)
            else Done(Handled(RedReportOn(b, e.attempt, named, e.sequence, AttemptFailed, RedFailed), Applied))
          case ReportIssued =>
            if !HeaderOf(e.bill, o.bill, false) || e.bill.lines != q.bill.lines || id in t.invoices then Refused(Conflict)
            else if !AllPresent(b.ar, q.lines) || !MayFlush(t, named, q.lines) then Refused(Conflict)
            else Done(Handled(FlushInvoice(b, e.attempt, named, e.sequence, id), Applied))
  }

  /** `ApplyTaxCallback`: one inbox row per event id; a repeated id with other content is refused. */
  function ApplyCallback(b: Books, e: Callback, id: Id): Outcome<Books> {
    if e.sequence == 0 then Refused(Invalid)
    else if e.event in b.inv.inbox then
      if b.inv.inbox[e.event].callback == e then Done(b) else Refused(Conflict)
    else
      var h := if e.redFlush then ApplyRedCallback(b, e, id) else ApplyIssueCallback(b, e, id);
      match h
      case Refused(x) => Refused(x)
      case Done(v) => Done(v.books.(inv := v.books.inv.(inbox := v.books.inv.inbox[e.event := InboxRow(e, v.verdict)])))
  }

  // ---------- tax commands in the outbox

  function Accept(attempts: map<Id, Attempt>, a: Id): map<Id, Attempt> {
    if a in attempts && attempts[a].status == AttemptPending
    then attempts[a := attempts[a].(status := AttemptAccepted, accepted := true)] else attempts
  }

  function AcceptRed(attempts: map<Id, RedAttempt>, a: Id): map<Id, RedAttempt> {
    if a in attempts && attempts[a].status == AttemptPending
    then attempts[a := attempts[a].(status := AttemptAccepted, accepted := true)] else attempts
  }

  /** Claim or re-claim, retry, dead-letter, deliver. */
  predicate MayMove(from: CommandStatus, to: CommandStatus) {
    || (to == CommandProcessing && from in {CommandPending, CommandRetryWait, CommandProcessing})
    || (from == CommandProcessing && to in {CommandRetryWait, CommandDeadLetter, CommandDelivered})
  }

  /** A delivery also marks a still pending attempt as accepted. */
  function MovedCommand(t: InvoiceTables, c: Id, to: CommandStatus): InvoiceTables
    requires c in t.commands
  {
    var row := t.commands[c];
    var sent := t.(commands := t.commands[c := row.(status := to)]);
    if to != CommandDelivered then sent
    else if row.redFlush then sent.(redAttempts := AcceptRed(t.redAttempts, row.attempt))
    else sent.(attempts := Accept(t.attempts, row.attempt))
  }

  /** The outbox worker moves a command. */
  function MoveCommand(b: Books, c: Id, to: CommandStatus): Outcome<Books> {
    if c !in b.inv.commands then Refused(NotFound)
    else if !MayMove(b.inv.commands[c].status, to) then Refused(Conflict)
    else Done(b.(inv := MovedCommand(b.inv, c, to)))
  }

  /** `RetryOutboxEvent`: any dead command may be requeued. */
  function RetryOutbox(b: Books, c: Id): Outcome<Books> {
    if c !in b.inv.commands then Refused(NotFound)
    else if b.inv.commands[c].status != CommandDeadLetter then Refused(Conflict)
    else Done(b.(inv := b.inv.(commands := b.inv.commands[c := b.inv.commands[c].(status := CommandPending)])))
  }

  /** `requireRetryableIssueCommandTx` */
  predicate RetryableIssue(t: InvoiceTables, c: Id, a: Id) {
    && a in t.attempts && t.attempts[a].request in t.requests
    && t.attempts[a].status == AttemptPending && !t.attempts[a].accepted
    && t.requests[t.attempts[a].request].status == IssuePending
    && t.attempts[a].command == Some(c)
    && !(exists x :: x in t.attempts && t.attempts[x].request == t.attempts[a].request && t.attempts[x].number > t.attempts[a].number)
  }

  /** `requireRetryableRedFlushCommandTx` */
  predicate RetryableRed(t: InvoiceTables, c: Id, x: Id) {
    && x in t.redAttempts && t.redAttempts[x].red in t.redRequests && t.redAttempts[x].invoice in t.invoices
    && t.redAttempts[x].status == AttemptPending && !t.redAttempts[x].accepted
    && t.redRequests[t.redAttempts[x].red].status == RedPending
    && t.invoices[t.redAttempts[x].invoice].status == InvoiceIssued
    && t.redAttempts[x].command == Some(c)
  }

  /** `RetryTaxCommandDeadLetter` */
  function RetryDeadLetter(b: Books, c: Id): Outcome<Books> {
    var t := b.inv;
    if c !in t.commands then Refused(NotFound)
    else if t.commands[c].status != CommandDeadLetter then Refused(Conflict)
    else if !(if t.commands[c].redFlush then RetryableRed(t, c, t.commands[c].attempt) else RetryableIssue(t, c, t.commands[c].attempt))
    then Refused(Conflict)
    else Done(b.(inv := t.(commands := t.commands[c := t.commands[c].(status := CommandPending)])))
  }

  // ---------- red flush requests

  function RequestRedFlush(b: Books, id: Id, invoice: Id, user: Id): Outcome<Books> {
    var t := b.inv;
    if invoice !in t.invoices then Refused(NotFound)
    else if t.invoices[invoice].status != InvoiceIssued then Refused(Conflict)
    else if exists x :: x in t.redRequests && t.redRequests[x].invoice == invoice
                        && t.redRequests[x].status in {RedSubmitted, RedPending, RedUnknown} then Refused(Conflict)
    else if id in t.redRequests then Refused(Conflict)
    else Done(b.(inv := t.(redRequests := t.redRequests[id := RedRequest(invoice, RedSubmitted, 1, user, NOBODY, None)])))
  }

  function ReviewRedFlush(b: Books, id: Id, version: int, user: Id, approve: bool, i: AttemptInput): Outcome<Books> {
    var t := b.inv;
    if id !in t.redRequests then Refused(NotFound)
    else
      var f := t.redRequests[id];
      if approve && f.status == RedPending && f.reviewedBy == user then Done(b)
      else if f.status != RedSubmitted || f.version != version || f.requestedBy == user then Refused(Conflict)
      else if !approve then
        Done(b.(inv := t.(redRequests := t.redRequests[id := f.(status := RedRejected, reviewedBy := user, version := version + 1)])))
      else if i.channel != TaxAdapter || i.id in t.redAttempts || i.command in t.commands then Refused(Conflict)
      else Done(b.(inv := t.(
        redRequests := t.redRequests[id := f.(status := RedPending, reviewedBy := user, version := version + 1)],
        redAttempts := t.redAttempts[i.id := RedAttempt(id, f.invoice, i.provider, AttemptPending, false, 0, Some(i.command))],
        commands := t.commands[i.command := Command(true, i.id, CommandPending)])))
  }
}
