/** Historical import of one contract: HOLD, restored facts, reconciliation and release.
    internal/service/contract_import.go, import_reconciliation.go, role_scope.go */
module ImportGate {
  import opened Tables
  import opened Totals
  import opened Cash
  import opened Invoicing
  import opened Contracts
  import opened ContractProofs
  import opened Settlement
  import opened Histories
  import InvoicingProofs

  datatype FactKind = ReceiptFact | AllocationFact | OtherFact

  datatype Fact = Fact(source: Id, kind: FactKind, external: Id)

  // ---------- the manifest

  predicate ValidManifest(facts: seq<Fact>) {
    && (forall k :: 0 <= k < |facts| ==> facts[k].kind != OtherFact)
    && (forall j, k :: 0 <= j < k < |facts| ==> facts[j] != facts[k])
  }

  /** The loop of `validateImportCommand` over the declared facts. */
  method ValidateManifest(facts: seq<Fact>) returns (r: Outcome<()>)
    ensures r.Done? <==> ValidManifest(facts)
    ensures r == Refused(Blocked) ==> exists k :: 0 <= k < |facts| && facts[k].kind == OtherFact
  {
    var seen: set<Fact> := {};
    for k := 0 to |facts|
      invariant forall f :: f in seen <==> f in facts[..k]
      invariant ValidManifest(facts[..k])
    {
      var fact := facts[k];
      if fact.kind == OtherFact { return Refused(Blocked); }
      if fact in seen { return Refused(Invalid); }
      assert facts[..k + 1] == facts[..k] + [fact];
      seen := seen + {fact};
    }
    assert facts[..|facts|] == facts;
    r := Done(());
  }

  function SetOf(facts: seq<Fact>): set<Fact> {
    set f | f in facts
  }

  lemma {:induction false} ManifestSize(facts: seq<Fact>)
    requires ValidManifest(facts)
    ensures |SetOf(facts)| == |facts|
  {
    if facts != [] {
      var k := |facts| - 1;
      ManifestSize(facts[..k]);
      assert facts == facts[..k] + [facts[k]];
      assert SetOf(facts) == SetOf(facts[..k]) + {facts[k]};
    }
  }

  lemma {:induction false} SubsetOfSize<T>(a: set<T>, b: set<T>)
    requires a <= b && |a| == |b|
    ensures a == b
    decreases |a|
  {
    if x :| x in a {
      SubsetOfSize(a - {x}, b - {x});
      assert a == (a - {x}) + {x} && b == (b - {x}) + {x};
    } else {
      assert a == {};
    }
  }

  /** The loops of `importBalances` that build the restored set and compare it with the manifest:
      counting and looking up each declared fact decides equality of the two sets. */
  method RestoredMatches(rows: seq<Fact>, manifest: seq<Fact>) returns (ok: bool)
    requires ValidManifest(manifest)
    ensures ok <==> SetOf(rows) == SetOf(manifest)
  {
    var restored: set<Fact> := {};
    for k := 0 to |rows|
      invariant restored == SetOf(rows[..k])
    {
      assert rows[..k + 1] == rows[..k] + [rows[k]];
      restored := restored + {rows[k]};
    }
    assert rows[..|rows|] == rows;
    ManifestSize(manifest);
    if |restored| != |manifest| { return false; }
    for k := 0 to |manifest|
      invariant forall j :: 0 <= j < k ==> manifest[j] in restored
    {
      if manifest[k] !in restored {
        assert manifest[k] in SetOf(manifest);
        return false;
      }
    }
    SubsetOfSize(SetOf(manifest), restored);
    ok := true;
  }

  // ---------- what a reconciliation reads

  function PlansOf(b: Books, s: Id): map<Id, Plan> {
    map p | p in b.con.plans && b.con.plans[p].snapshot == s :: b.con.plans[p]
  }

  predicate OwedUnder(ar: Ledger, r: Id, s: Id) {
    r in ar && ar[r].snapshot == s
  }

  function LedgerOf(b: Books, s: Id): Ledger {
    map r | r in b.ar && OwedUnder(b.ar, r, s) :: b.ar[r]
  }

  predicate PaidUnder(b: Books, a: Id, s: Id) {
    a in b.cash.allocations && OwedUnder(b.ar, b.cash.allocations[a].receivable, s)
  }

  function PaymentsOf(b: Books, s: Id): map<Id, Allocation> {
    map a | a in b.cash.allocations && PaidUnder(b, a, s) :: b.cash.allocations[a]
  }

  /** The rows of the snapshot and of its restored receipts. */
  datatype View = View(plans: map<Id, Plan>, ledger: Ledger, payments: map<Id, Allocation>, receipts: map<Fact, int>, facts: set<Fact>)

  datatype Statement = Statement(
    planned: int, confirmed: int, received: int, open: int, receipts: int, invoiced: int, facts: nat)

  /** A stored reconciliation; `view` is what it read, kept as history. */
  datatype Certificate = Certificate(version: nat, statement: Statement, view: View)

  datatype Import = Import(
    books: Books, snapshot: Id, hold: bool, version: nat, closed: bool, manifest: seq<Fact>,
    facts: map<Fact, Id>, certificates: map<Id, Certificate>, current: Option<Id>)

  function ViewOf(b: Books, s: Id, facts: map<Fact, Id>): View {
    View(PlansOf(b, s), LedgerOf(b, s), PaymentsOf(b, s),
         map f | f in facts && f.kind == ReceiptFact && facts[f] in b.cash.receipts :: b.cash.receipts[facts[f]].amount,
         facts.Keys)
  }

  function Seen(i: Import): View {
    ViewOf(i.books, i.snapshot, i.facts)
  }

  // column sums

  ghost function SumPlanned(plans: map<Id, Plan>): int {
    Total(map p | p in plans :: plans[p].amount)
  }

  ghost function SumOriginal(ledger: Ledger): int {
    Total(map r | r in ledger :: ledger[r].original)
  }

  ghost function SumReceived(ledger: Ledger): int {
    Total(map r | r in ledger :: ledger[r].received)
  }

  ghost function SumOpen(ledger: Ledger): int {
    Total(map r | r in ledger :: ledger[r].open)
  }

  ghost function SumInvoiced(ledger: Ledger): int {
    Total(map r | r in ledger :: ledger[r].invoiced)
  }

  ghost function SumWrittenOff(ledger: Ledger): int {
    Total(map r | r in ledger :: ledger[r].writeOff)
  }

  ghost function SumNet(payments: map<Id, Allocation>): int {
    Total(map a | a in payments :: NetPart(payments[a]))
  }

  /** `importBalances` on what it reads. */
  ghost function BalancesOf(v: View, amount: int, closed: bool, manifest: seq<Fact>): Outcome<Statement> {
    var planned, paid := SumPlanned(v.plans), SumNet(v.payments);
    var confirmed, received, open := SumOriginal(v.ledger), SumReceived(v.ledger), SumOpen(v.ledger);
    var invoiced, writeOff := SumInvoiced(v.ledger), SumWrittenOff(v.ledger);
    if (exists p :: p in v.plans && v.plans[p].status != PlanConfirmed) || planned != amount then Refused(Conflict)
    else if confirmed != amount || open + received + writeOff != confirmed || paid != received then Refused(Conflict)
    else if |v.facts| != |manifest| || !(forall f :: f in manifest ==> f in v.facts) then Refused(Blocked)
    else if closed && open != 0 then Refused(Conflict)
    else if invoiced != 0 then Refused(Blocked)
    else Done(Statement(planned, confirmed, received, open, Total(v.receipts), invoiced, |v.facts|))
  }

  ghost function Balances(i: Import): Outcome<Statement> {
    if i.snapshot !in i.books.con.snapshots || !i.hold then Refused(NotFound)
    else BalancesOf(Seen(i), AmountOf(i.books, i.snapshot), i.closed, i.manifest)
  }

  function AmountOf(b: Books, s: Id): int {
    if s in b.con.snapshots then b.con.snapshots[s].amount else 0
  }

  // ---------- the gate in front of ordinary transactions

  predicate RestoredAs(facts: map<Fact, Id>, f: Fact, receipt: Id) {
    f in facts && f.kind == ReceiptFact && facts[f] == receipt
  }

  predicate Restored(facts: map<Fact, Id>, receipt: Id) {
    exists f :: f in facts && RestoredAs(facts, f, receipt)
  }

  predicate PlanUnder(b: Books, p: Id, s: Id) {
    p in b.con.plans && b.con.plans[p].snapshot == s
  }

  predicate Resizes(b: Books, i: PlanInput) {
    i.id in b.con.plans
    && ((i.due.Some? && i.due.value != b.con.plans[i.id].due) || (i.amount.Some? && i.amount.value != b.con.plans[i.id].amount))
  }

  predicate SameContract(b: Books, s: Id, c: Id) {
    s in b.con.snapshots && b.con.snapshots[s].contract == Some(c)
  }

  /** Transactions refused while the snapshot is on hold. */
  predicate HeldBack(i: Import, c: Cmd) {
    var b, s := i.books, i.snapshot;
    match c
    case OfCash(ConfirmAllocationCmd(x)) => OwedUnder(b.ar, x.receivable, s) || Restored(i.facts, x.receipt)
    case OfCash(ReverseAllocationCmd(x)) => x.allocation in b.cash.allocations && Restored(i.facts, b.cash.allocations[x.allocation].receipt)
    case OfCash(CreateDifferenceCmd(x)) => Restored(i.facts, x.receipt)
    case OfInvoices(CreateRequestCmd(x)) => x.snapshot == s
    case OfContracts(IngestCmd(e)) => SameContract(b, s, e.contract) && e.event !in b.con.events
    case OfContracts(CreatePlanCmd(x)) => x.snapshot == s
    case OfContracts(AdjustPlanCmd(x)) => PlanUnder(b, x.id, s)
    case OfContracts(ConfirmPlanCmd(x, _)) => PlanUnder(b, x.id, s) && Resizes(b, x)
    case _ => false
  }

  /** The only ordinary transaction that writes to a held snapshot. */
  predicate WritesHeld(i: Import, c: Cmd) {
    c.OfContracts? && c.con.ConfirmPlanCmd? && PlanUnder(i.books, c.con.plan.id, i.snapshot)
  }

  /** `lockImportWrite`: the version rises and a reconciliation is withdrawn. */
  function LockWrite(i: Import): Import {
    i.(version := i.version + 1, current := None)
  }

  datatype ImportCmd =
    | Ordinary(cmd: Cmd)
    | Access
    | RestoreReceipt(fact: Fact, receipt: Id, customer: Id, currency: Id, amount: int)
    | RestoreAllocation(fact: Fact, origin: Fact, installment: int, input: AllocationInput)
    | Reconcile(id: Id, open: int, receipts: int, invoiced: int)
    | Release(id: Id, expected: nat, ownerAgrees: bool)

  ghost function Ordinarily(i: Import, c: Cmd): Outcome<Import> {
    if i.hold && HeldBack(i, c) then Refused(Blocked)
    else
      var r := Transaction(i.books, c);
      if r.Refused? then Refused(r.error)
      else
        var locked := if i.hold && WritesHeld(i, c) then LockWrite(i) else i;
        Done(locked.(books := r.value))
  }

  /** `claimImportFact`: only declared facts, each once. */
  function Claim(i: Import, fact: Fact, id: Id): Outcome<Import> {
    if !i.hold then Refused(Conflict)
    else if fact in i.facts then Refused(Conflict)
    else if fact !in i.manifest then Refused(Blocked)
    else Done(LockWrite(i).(facts := i.facts[fact := id]))
  }

  /** A receipt restored from the source system. */
  function RestoredReceipt(i: Import, fact: Fact, receipt: Id, customer: Id, currency: Id, amount: int): Outcome<Import> {
    var claimed := Claim(i, fact, receipt);
    if fact.kind != ReceiptFact then Refused(Invalid)
    else if claimed.Refused? then claimed
    else
      var r := CreateReceipt(i.books, receipt, customer, currency, amount);
      if r.Refused? then Refused(r.error) else Done(claimed.value.(books := r.value))
  }

  /** An allocation restored from the source system: it must pay a receivable of this snapshot,
      at the original installment, out of a restored receipt of the same source. */
  function RestoredAllocation(i: Import, fact: Fact, origin: Fact, installment: int, input: AllocationInput): Outcome<Import> {
    var b := i.books;
    var claimed := Claim(i, fact, input.id);
    if fact.kind != AllocationFact || !OwedUnder(b.ar, input.receivable, i.snapshot) then Refused(Invalid)
    else if claimed.Refused? then claimed
    else if origin.source != fact.source || !RestoredAs(i.facts, origin, input.receipt) then Refused(Invalid)
    else if b.ar[input.receivable].plan !in b.con.plans || b.con.plans[b.ar[input.receivable].plan].installment != installment then Refused(Invalid)
    else
      var r := ConfirmAllocation(b, input);
      if r.Refused? then Refused(r.error) else Done(LockWrite(claimed.value).(books := r.value))
  }

  /** `ReconcileContractImport` */
  ghost function Certify(i: Import, id: Id, open: int, receipts: int, invoiced: int): Outcome<Import> {
    var s := Balances(i);
    if open < 0 || receipts < 0 || invoiced < 0 then Refused(Invalid)
    else if s.Refused? then Refused(s.error)
    else if open != s.value.open || receipts != s.value.receipts || invoiced != s.value.invoiced || id in i.certificates then Refused(Conflict)
    else Done(i.(certificates := i.certificates[id := Certificate(i.version, s.value, Seen(i))], current := Some(id)))
  }

  /** `ReleaseContractImport` */
  ghost function Let(i: Import, id: Id, expected: nat, ownerAgrees: bool): Outcome<Import> {
    if i.current != Some(id) || !i.hold || id !in i.certificates then Refused(Conflict)
    else
      var s, c := Balances(i), i.certificates[id];
      if s.Refused? then Refused(s.error)
      else if c.version != i.version || c.version != expected || c.statement != s.value then Refused(Conflict)
      else if !i.closed && !ownerAgrees then Refused(Conflict)
      else Done(i.(hold := false))
  }

  ghost function Next(i: Import, c: ImportCmd): Import {
    var r := match c
      case Ordinary(cmd) => Ordinarily(i, cmd)
      case Access => Done(if i.hold then LockWrite(i) else i)
      case Reconcile(id, open, receipts, invoiced) => Certify(i, id, open, receipts, invoiced)
      case Release(id, expected, ownerAgrees) => Let(i, id, expected, ownerAgrees)
      case RestoreReceipt(fact, receipt, customer, currency, amount) => RestoredReceipt(i, fact, receipt, customer, currency, amount)
      case RestoreAllocation(fact, origin, installment, input) => RestoredAllocation(i, fact, origin, installment, input);
    if r.Done? then r.value else i
  }

  // ---------- the invariant

  predicate FromRestored(b: Books, s: Id, facts: map<Fact, Id>, a: Id) {
    PaidUnder(b, a, s) ==> Restored(facts, b.cash.allocations[a].receipt)
  }

  predicate DrawsElsewhere(b: Books, s: Id, q: Id)
    requires q in b.inv.requests
  {
    forall r :: r in b.inv.requests[q].lines ==> !OwedUnder(b.ar, r, s)
  }

  ghost predicate CertificateSound(i: Import, k: Id)
    requires k in i.certificates
  {
    var c := i.certificates[k];
    && c.version <= i.version
    && (i.hold && c.version == i.version ==>
          c.view == Seen(i) && BalancesOf(c.view, AmountOf(i.books, i.snapshot), i.closed, i.manifest) == Done(c.statement))
  }

  /** A restored fact was declared, and a restored receipt exists. */
  predicate FactSound(facts: map<Fact, Id>, manifest: seq<Fact>, receipts: map<Id, Receipt>, f: Fact)
    requires f in facts
  {
    f in manifest && (f.kind == ReceiptFact ==> facts[f] in receipts)
  }

  ghost predicate FactsSound(facts: map<Fact, Id>, manifest: seq<Fact>, receipts: map<Id, Receipt>) {
    forall f {:trigger FactSound(facts, manifest, receipts, f)} :: f in facts ==> FactSound(facts, manifest, receipts, f)
  }

  /** What the books owe to the hold: payments on the snapshot come from restored receipts, and
      no invoice request draws on it. */
  ghost predicate Grounded(b: Books, s: Id, hold: bool, manifest: seq<Fact>, facts: map<Fact, Id>) {
    && Inv(b) && ValidManifest(manifest)
    && s in b.con.snapshots
    && b.con.snapshots[s].contract.Some?
    && (hold ==> b.con.snapshots[s].status == Effective)
    && (hold ==> forall a {:trigger FromRestored(b, s, facts, a)} :: FromRestored(b, s, facts, a))
    && (hold ==> forall q {:trigger DrawsElsewhere(b, s, q)} :: q in b.inv.requests ==> DrawsElsewhere(b, s, q))
    && FactsSound(facts, manifest, b.cash.receipts)
  }

  ghost predicate ImportInv(i: Import) {
    && Grounded(i.books, i.snapshot, i.hold, i.manifest, i.facts)
    && (forall k {:trigger CertificateSound(i, k)} :: k in i.certificates ==> CertificateSound(i, k))
  }

  // ---------- ordinary transactions leave a held snapshot alone

  ghost predicate SamePart(b: Books, n: Books, s: Id) {
    && PlansOf(n, s) == PlansOf(b, s) && LedgerOf(n, s) == LedgerOf(b, s) && PaymentsOf(n, s) == PaymentsOf(b, s)
    && (forall p :: p in b.cash.receipts ==> p in n.cash.receipts && n.cash.receipts[p].amount == b.cash.receipts[p].amount)
    && s in b.con.snapshots && s in n.con.snapshots && n.con.snapshots[s] == b.con.snapshots[s]
  }

  lemma CashLeaves(b: Books, c: CashCmd, s: Id)
    requires CashTransaction(b, c).Done? && s in b.con.snapshots
    requires c.ConfirmAllocationCmd? ==> !OwedUnder(b.ar, c.allocation.receivable, s)
    requires c.ReverseAllocationCmd? && c.reversal.allocation in b.cash.allocations ==>
      !OwedUnder(b.ar, b.cash.allocations[c.reversal.allocation].receivable, s)
    ensures SamePart(b, CashTransaction(b, c).value, s)
  {
    var n := CashTransaction(b, c).value;
    CashStepFrame(b, c);
    match c
    case ConfirmAllocationCmd(i) => ConfirmLeaves(b, i, s);
    case ReverseAllocationCmd(i) => ReverseLeaves(b, i, s);
    case _ => assert n.ar == b.ar && n.cash.allocations == b.cash.allocations; MoneyStays(b, n, s);
  }

  lemma MoneyStays(b: Books, n: Books, s: Id)
    requires n.con == b.con && s in b.con.snapshots
    requires forall r :: OwedUnder(n.ar, r, s) <==> OwedUnder(b.ar, r, s)
    requires forall r :: OwedUnder(b.ar, r, s) ==> r in n.ar && n.ar[r] == b.ar[r]
    requires forall a :: PaidUnder(n, a, s) <==> PaidUnder(b, a, s)
    requires forall a :: PaidUnder(b, a, s) ==> a in n.cash.allocations && n.cash.allocations[a] == b.cash.allocations[a]
    requires forall p :: p in b.cash.receipts ==> p in n.cash.receipts && n.cash.receipts[p].amount == b.cash.receipts[p].amount
    ensures SamePart(b, n, s)
  {
    assert PlansOf(n, s) == PlansOf(b, s);
    assert LedgerOf(n, s) == LedgerOf(b, s);
    assert PaymentsOf(n, s) == PaymentsOf(b, s);
  }

  lemma ConfirmLeaves(b: Books, i: AllocationInput, s: Id)
    requires ConfirmAllocation(b, i).Done? && s in b.con.snapshots && !OwedUnder(b.ar, i.receivable, s)
    ensures SamePart(b, ConfirmAllocation(b, i).value, s)
  {
    MoneyStays(b, ConfirmAllocation(b, i).value, s);
  }

  lemma ReverseLeaves(b: Books, i: ReversalInput, s: Id)
    requires ReverseAllocation(b, i).Done? && s in b.con.snapshots
    requires i.allocation in b.cash.allocations && !OwedUnder(b.ar, b.cash.allocations[i.allocation].receivable, s)
    ensures SamePart(b, ReverseAllocation(b, i).value, s)
  {
    MoneyStays(b, ReverseAllocation(b, i).value, s);
  }

  /** An invoice step touches only receivables that some request draws on. */
  lemma UndrawnStays(b: Books, c: InvoiceCmd, r: Id)
    requires InvoiceTransaction(b, c).Done? && r in b.ar
    requires forall q :: q in b.inv.requests ==> r !in b.inv.requests[q].lines
    ensures r in InvoiceTransaction(b, c).value.ar && InvoiceTransaction(b, c).value.ar[r] == b.ar[r]
  {
    match c
    case CallbackCmd(e, id) =>
      if e.event !in b.inv.inbox { if e.redFlush { UndrawnStaysRed(b, e, id, r); } else { UndrawnStaysIssue(b, e, id, r); } }
    case RegisterManualCmd(q, id) =>
    case CreateRequestCmd(i) =>
    case _ =>
      if c.ApproveCmd? || c.ReviewSpecialCmd? || c.RejectCmd? || c.CancelCmd? || c.RecoverCmd? { ReviewFrame(b, c); } else { OtherFrame(b, c); }
  }

  lemma UndrawnStaysIssue(b: Books, e: Callback, id: Id, r: Id)
    requires ApplyIssueCallback(b, e, id).Done? && r in b.ar
    requires forall q :: q in b.inv.requests ==> r !in b.inv.requests[q].lines
    ensures var n := ApplyIssueCallback(b, e, id).value.books; r in n.ar && n.ar[r] == b.ar[r]
  {
  }

  lemma UndrawnStaysRed(b: Books, e: Callback, id: Id, r: Id)
    requires ApplyRedCallback(b, e, id).Done? && r in b.ar
    requires forall q :: q in b.inv.requests ==> r !in b.inv.requests[q].lines
    ensures var n := ApplyRedCallback(b, e, id).value.books; r in n.ar && n.ar[r] == b.ar[r]
  {
  }

  lemma InvoiceLeaves(b: Books, c: InvoiceCmd, s: Id)
    requires InvoiceTransaction(b, c).Done? && s in b.con.snapshots
    requires forall q {:trigger DrawsElsewhere(b, s, q)} :: q in b.inv.requests ==> DrawsElsewhere(b, s, q)
    ensures SamePart(b, InvoiceTransaction(b, c).value, s)
  {
    hide InvoiceTransaction;
    var n := InvoiceTransaction(b, c).value;
    InvoiceStepFrame(b, c);
    assert forall r :: OwedUnder(n.ar, r, s) <==> OwedUnder(b.ar, r, s);
    forall r | OwedUnder(b.ar, r, s) ensures n.ar[r] == b.ar[r] {
      forall q | q in b.inv.requests ensures r !in b.inv.requests[q].lines { assert DrawsElsewhere(b, s, q); }
      UndrawnStays(b, c, r);
    }
    assert PlansOf(n, s) == PlansOf(b, s);
    assert LedgerOf(n, s) == LedgerOf(b, s);
    assert PaymentsOf(n, s) == PaymentsOf(b, s);
  }

  lemma AdjustLeaves(b: Books, i: PlanInput, s: Id)
    requires Inv(b) && AdjustPlan(b, i).Done? && s in b.con.snapshots && !PlanUnder(b, i.id, s)
    ensures SamePart(b, AdjustPlan(b, i).value, s)
  {
    var n := AdjustPlan(b, i).value;
    var owed := ReceivableOf(b.ar, i.id).value;
    assert ReceivableSound(b.con, b.ar, owed);
    assert n.ar == b.ar[owed := n.ar[owed]];
    PartStays(b, n, s);
  }

  lemma CreateNativeLeaves(b: Books, i: NativeInput, s: Id)
    requires Inv(b) && CreateNative(b, i).Done? && s in b.con.snapshots
    ensures SamePart(b, CreateNative(b, i).value, s)
  {
    InsertedRows(b.con.plans, i.id, i.terms, i.ids);
    PartStays(b, CreateNative(b, i).value, s);
  }

  lemma PlanEditLeaves(b: Books, c: ContractCmd, s: Id)
    requires Inv(b) && ContractTransaction(b, c).Done? && s in b.con.snapshots && b.con.snapshots[s].contract.Some? && !c.IngestCmd?
    requires c.CreatePlanCmd? ==> c.manual.snapshot != s
    requires c.AdjustPlanCmd? || c.ConfirmPlanCmd? ==> !PlanUnder(b, c.plan.id, s)
    ensures SamePart(b, ContractTransaction(b, c).value, s)
  {
    hide AdjustPlan, CreateNative, RequireCoverage, Consumed;
    match c
    case AdjustPlanCmd(i) => AdjustLeaves(b, i, s);
    case ConfirmPlanCmd(i, r) => PartStays(b, ConfirmPlan(b, i, r).value, s);
    case CreatePlanCmd(i) => PartStays(b, CreateManualPlan(b, i).value, s);
    case DunCmd(p) => PartStays(b, Dun(b, p).value, s);
    case CreateNativeCmd(i) => CreateNativeLeaves(b, i, s);
    case VoidNativeCmd(id, version) => PartStays(b, VoidNative(b, id, version).value, s);
  }

  /** New rows elsewhere and unchanged rows here make the same part. */
  lemma PartStays(b: Books, n: Books, s: Id)
    requires CashInv(b.cash, b.ar) && n.cash == b.cash && s in b.con.snapshots && s in n.con.snapshots && n.con.snapshots[s] == b.con.snapshots[s]
    requires forall p :: PlanUnder(n, p, s) <==> PlanUnder(b, p, s)
    requires forall p :: PlanUnder(b, p, s) ==> p in n.con.plans && n.con.plans[p] == b.con.plans[p]
    requires forall r :: OwedUnder(n.ar, r, s) <==> OwedUnder(b.ar, r, s)
    requires forall r :: OwedUnder(b.ar, r, s) ==> r in n.ar && n.ar[r] == b.ar[r]
    ensures SamePart(b, n, s)
  {
    assert forall p :: p in PlansOf(n, s) <==> PlanUnder(n, p, s);
    assert PlansOf(n, s) == PlansOf(b, s);
    assert LedgerOf(n, s) == LedgerOf(b, s);
    assert PaymentsOf(n, s) == PaymentsOf(b, s);
  }

  lemma MergeLeaves(b: Books, prior: Id, e: ContractEvent, s: Id)
    requires Inv(b) && prior in b.con.snapshots && Merge(b, prior, e).Done? && s in b.con.snapshots && s != prior
    ensures SamePart(b, Merge(b, prior, e).value, s)
  {
    var n := Merge(b, prior, e).value;
    InsertedRows(MovedPlans(b, prior, e), e.snapshot, NewTerms(b.con.plans, prior, e.terms), e.ids);
    forall r | r in b.ar ensures OwedUnder(n.ar, r, s) <==> OwedUnder(b.ar, r, s) { assert ReceivableSound(b.con, b.ar, r); }
    forall r | OwedUnder(b.ar, r, s) ensures n.ar[r] == b.ar[r] { assert ReceivableSound(b.con, b.ar, r); }
    forall p ensures PlanUnder(n, p, s) <==> PlanUnder(b, p, s) {}
    PartStays(b, n, s);
  }

  lemma IngestLeaves(b: Books, e: ContractEvent, s: Id)
    requires Inv(b) && Ingest(b, e).Done? && s in b.con.snapshots
    requires !SameContract(b, s, e.contract) || e.event in b.con.events
    ensures SamePart(b, Ingest(b, e).value, s)
  {
    var n := Ingest(b, e).value;
    if e.event in b.con.events || (e.contract in b.con.streams && SumTerms(e.terms) != e.amount) {
      PartStays(b, n, s);
    } else if e.contract !in b.con.streams {
      InsertedRows(b.con.plans, e.snapshot, e.terms, e.ids);
      PartStays(b, n, s);
    } else {
      var prior := CurrentOf(b.con, e.contract).value;
      assert Ingest(b, e) == Merge(b, prior, e);
      MergeLeaves(b, prior, e, s);
    }
  }

  lemma OrdinaryLeaves(i: Import, c: Cmd)
    requires ImportInv(i) && i.hold && !HeldBack(i, c) && !WritesHeld(i, c) && Transaction(i.books, c).Done?
    ensures SamePart(i.books, Transaction(i.books, c).value, i.snapshot)
  {
    match c
    case OfCash(x) =>
      if x.ReverseAllocationCmd? { assert FromRestored(i.books, i.snapshot, i.facts, x.reversal.allocation); }
      CashLeaves(i.books, x, i.snapshot);
    case OfInvoices(x) => InvoiceLeaves(i.books, x, i.snapshot);
    case OfContracts(x) => if x.IngestCmd? { IngestLeaves(i.books, x.event, i.snapshot); } else { PlanEditLeaves(i.books, x, i.snapshot); }
  }

  // ---------- every step keeps the invariant, and changes the view only with the version

  ghost predicate Steps(i: Import, n: Import) {
    && ImportInv(n) && n.snapshot == i.snapshot && n.closed == i.closed && n.manifest == i.manifest
    && i.version <= n.version && (!i.hold ==> !n.hold)
    && (i.hold && n.version == i.version ==> Seen(n) == Seen(i) && AmountOf(n.books, n.snapshot) == AmountOf(i.books, i.snapshot))
  }

  lemma SameView(i: Import, n: Import)
    requires ImportInv(i) && n.snapshot == i.snapshot && n.facts == i.facts && SamePart(i.books, n.books, i.snapshot)
    ensures Seen(n) == Seen(i) && FactsSound(n.facts, i.manifest, n.books.cash.receipts)
  {
    forall f | f in n.facts ensures FactSound(n.facts, i.manifest, n.books.cash.receipts, f) {
      assert FactSound(i.facts, i.manifest, i.books.cash.receipts, f);
    }
    assert Seen(n).receipts == Seen(i).receipts by {
      forall f | f in i.facts && f.kind == ReceiptFact
        ensures i.facts[f] in i.books.cash.receipts && i.facts[f] in n.books.cash.receipts
             && n.books.cash.receipts[i.facts[f]].amount == i.books.cash.receipts[i.facts[f]].amount
      {
        assert FactSound(i.facts, i.manifest, i.books.cash.receipts, f);
      }
    }
  }

  /** Requests keep the receivables they draw on; a new one draws on its own snapshot. */
  lemma LinesStay(b: Books, c: InvoiceCmd, q: Id, r: Id)
    requires InvoiceInv(b.inv, b.ar) && InvoiceTransaction(b, c).Done? && q in InvoiceTransaction(b, c).value.inv.requests
    requires r in InvoiceTransaction(b, c).value.inv.requests[q].lines
    ensures (q in b.inv.requests && r in b.inv.requests[q].lines) || (c.CreateRequestCmd? && OwedUnder(b.ar, r, c.input.snapshot))
  {
    if q in b.inv.requests {
      InvoiceStepLater(b, c);
      assert RequestMoves(b.inv, InvoiceTransaction(b, c).value.inv, q);
    } else {
      InvoiceStepFrame(b, c);
      DrawnUnder(b, c.input, r);
    }
  }

  lemma DrawnUnder(b: Books, i: RequestInput, r: Id)
    requires CreateRequest(b, i).Done? && r in LinesOf(i.draws)
    ensures OwedUnder(b.ar, r, i.snapshot)
  {
    InvoicingProofs.LinesOfSound(i.draws);
    var k :| 0 <= k < |i.draws| && i.draws[k].receivable == r;
    AllFit(b, i.snapshot, i.draws, k);
  }

  lemma DrawsStayElsewhere(i: Import, c: InvoiceCmd)
    requires ImportInv(i) && i.hold && !HeldBack(i, OfInvoices(c)) && InvoiceTransaction(i.books, c).Done?
    ensures var n := InvoiceTransaction(i.books, c).value;
      forall q {:trigger DrawsElsewhere(n, i.snapshot, q)} :: q in n.inv.requests ==> DrawsElsewhere(n, i.snapshot, q)
  {
    var b, n := i.books, InvoiceTransaction(i.books, c).value;
    InvoiceStepFrame(b, c);
    forall q | q in n.inv.requests ensures DrawsElsewhere(n, i.snapshot, q) {
      forall r | r in n.inv.requests[q].lines ensures !OwedUnder(n.ar, r, i.snapshot) {
        LinesStay(b, c, q, r);
        if q in b.inv.requests { assert DrawsElsewhere(b, i.snapshot, q); }
      }
    }
  }

  /** An accepted ordinary transaction that does not write to the held snapshot. */
  lemma ElsewhereSteps(i: Import, c: Cmd)
    requires ImportInv(i) && i.hold && !HeldBack(i, c) && !WritesHeld(i, c) && Transaction(i.books, c).Done?
    ensures Steps(i, i.(books := Transaction(i.books, c).value))
  {
    hide Transaction, Inv, BalancesOf;
    var n := i.(books := Transaction(i.books, c).value);
    OrdinaryLeaves(i, c);
    SameView(i, n);
    assert Step(i.books, c) == n.books;
    StepKeeps(i.books, c);
    ElsewhereFromRestored(i, n);
    ElsewhereDraws(i, c);
    CertificatesStay(i, n);
  }

  lemma ElsewhereFromRestored(i: Import, n: Import)
    requires ImportInv(i) && i.hold && n == i.(books := n.books) && SamePart(i.books, n.books, i.snapshot)
    ensures forall a {:trigger FromRestored(n.books, n.snapshot, n.facts, a)} :: FromRestored(n.books, n.snapshot, n.facts, a)
  {
    forall a ensures FromRestored(n.books, n.snapshot, n.facts, a) {
      assert FromRestored(i.books, i.snapshot, i.facts, a);
      assert PaidUnder(n.books, a, i.snapshot) <==> a in PaymentsOf(n.books, i.snapshot);
      assert PaidUnder(i.books, a, i.snapshot) <==> a in PaymentsOf(i.books, i.snapshot);
      if PaidUnder(n.books, a, i.snapshot) {
        assert PaymentsOf(n.books, i.snapshot)[a] == PaymentsOf(i.books, i.snapshot)[a];
      }
    }
  }

  lemma ElsewhereDraws(i: Import, c: Cmd)
    requires ImportInv(i) && i.hold && !HeldBack(i, c) && !WritesHeld(i, c) && Transaction(i.books, c).Done?
    requires SamePart(i.books, Transaction(i.books, c).value, i.snapshot)
    ensures var n := Transaction(i.books, c).value;
      forall q {:trigger DrawsElsewhere(n, i.snapshot, q)} :: q in n.inv.requests ==> DrawsElsewhere(n, i.snapshot, q)
  {
    var b, n, s := i.books, Transaction(i.books, c).value, i.snapshot;
    if c.OfInvoices? {
      DrawsStayElsewhere(i, c.inv);
    } else {
      if c.OfCash? { CashStepFrame(b, c.cash); } else { ContractStepLater(b, c.con); }
      forall q | q in n.inv.requests ensures DrawsElsewhere(n, s, q) {
        assert DrawsElsewhere(b, s, q);
        forall r | r in n.inv.requests[q].lines ensures !OwedUnder(n.ar, r, s) {
          assert r in LedgerOf(n, s) <==> OwedUnder(n.ar, r, s);
          assert r in LedgerOf(b, s) <==> OwedUnder(b.ar, r, s);
        }
      }
    }
  }

  lemma CertificatesStay(i: Import, n: Import)
    requires ImportInv(i) && n == i.(books := n.books) && SamePart(i.books, n.books, i.snapshot) && Seen(n) == Seen(i)
    ensures forall k {:trigger CertificateSound(n, k)} :: k in n.certificates ==> CertificateSound(n, k)
  {
    forall k | k in n.certificates ensures CertificateSound(n, k) { assert CertificateSound(i, k); }
  }

  /** Any step under the write lock: the version rises, so every older reconciliation is stale. */
  lemma LockedSteps(i: Import, n: Import)
    requires ImportInv(i) && i.hold && n.hold && i.version < n.version && n.certificates == i.certificates
    requires n.snapshot == i.snapshot && n.closed == i.closed && n.manifest == i.manifest
    requires Grounded(n.books, n.snapshot, true, n.manifest, n.facts)
    ensures Steps(i, n)
  {
    forall k | k in n.certificates ensures CertificateSound(n, k) { assert CertificateSound(i, k); }
  }

  /** Confirming a plan of the held snapshot adds a receivable without payments or requests. */
  lemma ConfirmPlanSteps(i: Import, x: PlanInput, r: Id)
    requires ImportInv(i) && i.hold && PlanUnder(i.books, x.id, i.snapshot) && ConfirmPlan(i.books, x, r).Done?
    ensures Steps(i, LockWrite(i).(books := ConfirmPlan(i.books, x, r).value))
  {
    var b, s := i.books, i.snapshot;
    var n := LockWrite(i).(books := ConfirmPlan(b, x, r).value);
    assert ContractTransaction(b, ConfirmPlanCmd(x, r)) == Done(n.books);
    ContractStepKeeps(b, ConfirmPlanCmd(x, r));
    NewReceivableIsBare(b, n.books, s, i.facts, r);
    LockedSteps(i, n);
  }

  lemma NewReceivableIsBare(b: Books, n: Books, s: Id, facts: map<Fact, Id>, r: Id)
    requires Inv(b) && r !in b.ar && r in n.ar && n.ar == b.ar[r := n.ar[r]] && n.cash == b.cash && n.inv == b.inv
    requires forall a {:trigger FromRestored(b, s, facts, a)} :: FromRestored(b, s, facts, a)
    requires forall q {:trigger DrawsElsewhere(b, s, q)} :: q in b.inv.requests ==> DrawsElsewhere(b, s, q)
    ensures forall a {:trigger FromRestored(n, s, facts, a)} :: FromRestored(n, s, facts, a)
    ensures forall q {:trigger DrawsElsewhere(n, s, q)} :: q in n.inv.requests ==> DrawsElsewhere(n, s, q)
  {
    forall a ensures FromRestored(n, s, facts, a) {
      assert FromRestored(b, s, facts, a);
      if a in b.cash.allocations { assert AllocationSound(b.cash, b.ar, a); }
    }
    forall q | q in n.inv.requests ensures DrawsElsewhere(n, s, q) {
      assert DrawsElsewhere(b, s, q) && RequestSound(b.inv, b.ar, q);
    }
  }

  /** Payments on the held snapshot stay payments from restored receipts when facts are added. */
  lemma MoreFacts(b: Books, n: Books, s: Id, facts: map<Fact, Id>, more: map<Fact, Id>)
    requires forall a {:trigger FromRestored(b, s, facts, a)} :: FromRestored(b, s, facts, a)
    requires forall f :: f in facts ==> f in more && more[f] == facts[f]
    requires forall r :: OwedUnder(n.ar, r, s) <==> OwedUnder(b.ar, r, s)
    requires forall a :: a in n.cash.allocations ==>
      || (a in b.cash.allocations && n.cash.allocations[a] == b.cash.allocations[a])
      || Restored(more, n.cash.allocations[a].receipt)
    ensures forall a {:trigger FromRestored(n, s, more, a)} :: FromRestored(n, s, more, a)
  {
    forall a ensures FromRestored(n, s, more, a) {
      assert FromRestored(b, s, facts, a);
      if a in b.cash.allocations && Restored(facts, b.cash.allocations[a].receipt) {
        var f :| f in facts && RestoredAs(facts, f, b.cash.allocations[a].receipt);
        assert RestoredAs(more, f, b.cash.allocations[a].receipt);
      }
    }
  }

  lemma MoreFactsSound(facts: map<Fact, Id>, manifest: seq<Fact>, receipts: map<Id, Receipt>, fact: Fact, id: Id, more: map<Id, Receipt>)
    requires FactsSound(facts, manifest, receipts) && fact in manifest && (fact.kind == ReceiptFact ==> id in more)
    requires forall p :: p in receipts ==> p in more
    ensures FactsSound(facts[fact := id], manifest, more)
  {
    var next := facts[fact := id];
    forall f | f in next ensures FactSound(next, manifest, more, f) {
      if f != fact { assert FactSound(facts, manifest, receipts, f); }
    }
  }

  lemma SameDraws(b: Books, n: Books, s: Id)
    requires forall q {:trigger DrawsElsewhere(b, s, q)} :: q in b.inv.requests ==> DrawsElsewhere(b, s, q)
    requires n.inv == b.inv && forall r :: OwedUnder(n.ar, r, s) <==> OwedUnder(b.ar, r, s)
    ensures forall q {:trigger DrawsElsewhere(n, s, q)} :: q in n.inv.requests ==> DrawsElsewhere(n, s, q)
  {
    forall q | q in n.inv.requests ensures DrawsElsewhere(n, s, q) { assert DrawsElsewhere(b, s, q); }
  }

  lemma RestoreReceiptSteps(i: Import, fact: Fact, receipt: Id, customer: Id, currency: Id, amount: int)
    requires ImportInv(i) && RestoredReceipt(i, fact, receipt, customer, currency, amount).Done?
    ensures Steps(i, RestoredReceipt(i, fact, receipt, customer, currency, amount).value)
  {
    var b, n := i.books, RestoredReceipt(i, fact, receipt, customer, currency, amount).value;
    var cmd := CreateReceiptCmd(receipt, customer, currency, amount);
    assert CashTransaction(b, cmd) == Done(n.books);
    CashStepKeeps(b, cmd);
    MoreFacts(b, n.books, i.snapshot, i.facts, n.facts);
    MoreFactsSound(i.facts, i.manifest, b.cash.receipts, fact, receipt, n.books.cash.receipts);
    SameDraws(b, n.books, i.snapshot);
    LockedSteps(i, n);
  }

  lemma PaymentGrounds(b: Books, s: Id, manifest: seq<Fact>, facts: map<Fact, Id>, fact: Fact, origin: Fact, input: AllocationInput)
    requires Grounded(b, s, true, manifest, facts) && ConfirmAllocation(b, input).Done?
    requires RestoredAs(facts, origin, input.receipt) && fact in manifest && fact.kind == AllocationFact && fact !in facts
    ensures Grounded(ConfirmAllocation(b, input).value, s, true, manifest, facts[fact := input.id])
  {
    hide CashInv, InvoiceInv, ContractInv;
    var n, more := ConfirmAllocation(b, input).value, facts[fact := input.id];
    assert CashTransaction(b, ConfirmAllocationCmd(input)) == Done(n);
    CashStepKeeps(b, ConfirmAllocationCmd(input));
    CashStepFrame(b, ConfirmAllocationCmd(input));
    assert RestoredAs(more, origin, input.receipt);
    MoreFacts(b, n, s, facts, more);
    MoreFactsSound(facts, manifest, b.cash.receipts, fact, input.id, n.cash.receipts);
    SameDraws(b, n, s);
  }

  lemma RestoreAllocationSteps(i: Import, fact: Fact, origin: Fact, installment: int, input: AllocationInput)
    requires ImportInv(i) && RestoredAllocation(i, fact, origin, installment, input).Done?
    ensures Steps(i, RestoredAllocation(i, fact, origin, installment, input).value)
  {
    PaymentGrounds(i.books, i.snapshot, i.manifest, i.facts, fact, origin, input);
    LockedSteps(i, RestoredAllocation(i, fact, origin, installment, input).value);
  }

  /** After the release the gate is open: only what does not depend on the hold remains. */
  lemma ReleasedSteps(i: Import, c: Cmd)
    requires ImportInv(i) && !i.hold && Transaction(i.books, c).Done?
    ensures Steps(i, i.(books := Transaction(i.books, c).value))
  {
    hide Transaction, Inv, BalancesOf, ViewOf;
    var n := i.(books := Transaction(i.books, c).value);
    assert Step(i.books, c) == n.books;
    StepKeeps(i.books, c);
    RowsStay(i.books, c, i.snapshot);
    forall f | f in n.facts ensures FactSound(n.facts, n.manifest, n.books.cash.receipts, f) {
      assert FactSound(i.facts, i.manifest, i.books.cash.receipts, f);
    }
    forall k | k in n.certificates ensures CertificateSound(n, k) { assert CertificateSound(i, k); }
  }

  lemma RowsStay(b: Books, c: Cmd, s: Id)
    requires Transaction(b, c).Done?
    ensures var n := Transaction(b, c).value;
      && (s in b.con.snapshots ==> s in n.con.snapshots && n.con.snapshots[s].contract == b.con.snapshots[s].contract)
      && (forall p :: p in b.cash.receipts ==> p in n.cash.receipts)
  {
    hide InvoiceTransaction, ContractTransaction;
    match c
    case OfCash(x) => CashStepFrame(b, x);
    case OfInvoices(x) => InvoiceStepFrame(b, x);
    case OfContracts(x) => SnapshotsStay(b, x, s);
  }

  lemma SnapshotsStay(b: Books, c: ContractCmd, s: Id)
    requires ContractTransaction(b, c).Done?
    ensures var n := ContractTransaction(b, c).value;
      (s in b.con.snapshots ==> s in n.con.snapshots && n.con.snapshots[s].contract == b.con.snapshots[s].contract) && n.cash == b.cash
  {
  }

  lemma CertificateAdded(i: Import, n: Import, id: Id, c: Certificate)
    requires ImportInv(i) && n == i.(certificates := i.certificates[id := c], current := Some(id))
    requires c.version == i.version && c.view == Seen(i)
    requires BalancesOf(c.view, AmountOf(i.books, i.snapshot), i.closed, i.manifest) == Done(c.statement)
    ensures Steps(i, n)
  {
    forall k | k in n.certificates ensures CertificateSound(n, k) {
      if k != id { assert CertificateSound(i, k); }
    }
  }

  lemma CertifySteps(i: Import, id: Id, open: int, receipts: int, invoiced: int)
    requires ImportInv(i) && Certify(i, id, open, receipts, invoiced).Done?
    ensures Steps(i, Certify(i, id, open, receipts, invoiced).value)
  {
    hide BalancesOf, ViewOf;
    CertificateAdded(i, Certify(i, id, open, receipts, invoiced).value, id, Certificate(i.version, Balances(i).value, Seen(i)));
  }

  lemma WritesHeldIs(b: Books, c: Cmd)
    ensures c.OfContracts? && c.con.ConfirmPlanCmd? ==> Transaction(b, c) == ConfirmPlan(b, c.con.plan, c.con.receivable)
  {
  }

  lemma OrdinarySteps(i: Import, c: Cmd)
    requires ImportInv(i) && Ordinarily(i, c).Done?
    ensures Steps(i, Ordinarily(i, c).value)
  {
    hide Transaction, Inv, BalancesOf, ViewOf;
    assert i.hold && WritesHeld(i, c) ==> Transaction(i.books, c) == ConfirmPlan(i.books, c.con.plan, c.con.receivable) by { WritesHeldIs(i.books, c); }
    if !i.hold {
      ReleasedSteps(i, c);
    } else if WritesHeld(i, c) {
      ConfirmPlanSteps(i, c.con.plan, c.con.receivable);
    } else {
      ElsewhereSteps(i, c);
    }
  }

  lemma NextSteps(i: Import, c: ImportCmd)
    requires ImportInv(i)
    ensures Steps(i, Next(i, c))
  {
    hide Transaction, Inv, BalancesOf, ViewOf;
    match c
    case Ordinary(cmd) => if Ordinarily(i, cmd).Done? { OrdinarySteps(i, cmd); }
    case Access => if i.hold { AccessSteps(i); }
    case RestoreReceipt(fact, receipt, customer, currency, amount) =>
      if RestoredReceipt(i, fact, receipt, customer, currency, amount).Done? { RestoreReceiptSteps(i, fact, receipt, customer, currency, amount); }
    case RestoreAllocation(fact, origin, installment, input) =>
      if RestoredAllocation(i, fact, origin, installment, input).Done? { RestoreAllocationSteps(i, fact, origin, installment, input); }
    case Reconcile(id, open, receipts, invoiced) => if Certify(i, id, open, receipts, invoiced).Done? { CertifySteps(i, id, open, receipts, invoiced); }
    case Release(id, expected, ownerAgrees) => if Let(i, id, expected, ownerAgrees).Done? { LetSteps(i, id, expected, ownerAgrees); }
  }

  lemma AccessSteps(i: Import)
    requires ImportInv(i) && i.hold
    ensures Steps(i, LockWrite(i))
  {
    var n := LockWrite(i);
    LockedSteps(i, n);
  }

  lemma LetSteps(i: Import, id: Id, expected: nat, ownerAgrees: bool)
    requires ImportInv(i) && Let(i, id, expected, ownerAgrees).Done?
    ensures Steps(i, Let(i, id, expected, ownerAgrees).value)
  {
    var n := Let(i, id, expected, ownerAgrees).value;
    assert Seen(n) == Seen(i);
    forall k | k in n.certificates ensures CertificateSound(n, k) { assert CertificateSound(i, k); }
  }

  // ---------- the promises

  ghost function RunFrom(i: Import, cmds: seq<ImportCmd>): Import {
    if cmds == [] then i else Next(RunFrom(i, cmds[..|cmds| - 1]), cmds[|cmds| - 1])
  }

  /** While the snapshot is on hold, equal versions mean equal rows and equal balances, whatever was
      declared for the import being the same. */
  lemma {:induction false} VersionStandsForBalances(i: Import, cmds: seq<ImportCmd>)
    requires ImportInv(i) && i.hold
    ensures var n := RunFrom(i, cmds);
      && ImportInv(n) && n.snapshot == i.snapshot && n.closed == i.closed && n.manifest == i.manifest && i.version <= n.version
      && (n.hold && n.version == i.version ==>
            && Seen(n) == Seen(i) && AmountOf(n.books, n.snapshot) == AmountOf(i.books, i.snapshot)
            && Balances(n) == Balances(i))
  {
    hide Transaction, Inv, BalancesOf, ViewOf;
    if cmds != [] {
      var m := RunFrom(i, cmds[..|cmds| - 1]);
      VersionStandsForBalances(i, cmds[..|cmds| - 1]);
      NextSteps(m, cmds[|cmds| - 1]);
    }
  }

  /** Counting the restored facts and finding each declared one is enough. */
  lemma CountedFacts(facts: set<Fact>, manifest: seq<Fact>)
    requires ValidManifest(manifest) && |facts| == |manifest| && forall f :: f in manifest ==> f in facts
    ensures facts == SetOf(manifest)
  {
    ManifestSize(manifest);
    SubsetOfSize(SetOf(manifest), facts);
  }

  /** A release is accepted only when nothing was written since the named reconciliation, and
      the restored facts are then the declared ones. */
  lemma ReleaseIsFaithful(i: Import, id: Id, expected: nat, ownerAgrees: bool)
    requires ImportInv(i) && Let(i, id, expected, ownerAgrees).Done?
    ensures id in i.certificates && i.certificates[id].version == i.version
    ensures i.certificates[id].view == Seen(i)
    ensures i.facts.Keys == SetOf(i.manifest)
  {
    assert CertificateSound(i, id);
    CountedFacts(i.facts.Keys, i.manifest);
  }

  /** Comparing the stored statement adds nothing to comparing the version. */
  lemma VersionDecidesRelease(i: Import, id: Id, expected: nat, ownerAgrees: bool)
    requires ImportInv(i)
    ensures Let(i, id, expected, ownerAgrees).Done? <==>
      && i.hold && i.current == Some(id) && id in i.certificates
      && i.certificates[id].version == i.version && expected == i.version && (i.closed || ownerAgrees)
  {
    hide BalancesOf, ViewOf, Inv;
    if id in i.certificates { assert CertificateSound(i, id); }
  }

  /** A freshly prepared import satisfies the invariant. */
  lemma PrepareIsSound(b: Books, e: ContractEvent, closed: bool, manifest: seq<Fact>)
    requires Inv(b) && FirstVersion(b, e).Done? && e.contract !in b.con.streams && 0 < e.amount && 1 <= e.version && e.terms != [] && e.event !in b.con.events
    requires ValidManifest(manifest)
    ensures ImportInv(Import(FirstVersion(b, e).value, e.snapshot, true, 1, closed, manifest, map[], map[], None))
  {
    var i := Import(FirstVersion(b, e).value, e.snapshot, true, 1, closed, manifest, map[], map[], None);
    assert Ingest(b, e) == FirstVersion(b, e);
    assert Step(b, OfContracts(IngestCmd(e))) == i.books;
    StepKeeps(b, OfContracts(IngestCmd(e)));
    forall r | r in b.ar ensures !OwedUnder(i.books.ar, r, e.snapshot) { assert ReceivableSound(b.con, b.ar, r); }
    forall a ensures FromRestored(i.books, i.snapshot, i.facts, a) {}
    forall q | q in i.books.inv.requests ensures DrawsElsewhere(i.books, e.snapshot, q) {}
  }
}
