/** When a historical import is reconciled, said in sums over the books, and what its steps record. */
module ImportOutcomes {
  import opened Tables
  import opened Totals
  import opened Cash
  import opened Invoicing
  import opened Contracts
  import opened ContractProofs
  import opened Settlement
  import opened ImportGate

  // ---------- the sums a declaration is compared with

  /** The receivables of the snapshot. */
  function Under(b: Books, s: Id): Ledger {
    map r | r in b.ar && b.ar[r].snapshot == s :: b.ar[r]
  }

  /** Open, received, invoiced, written-off and original amounts over the receivables of the snapshot. */
  ghost function OpenUnder(b: Books, s: Id): int {
    Total(map r | r in Under(b, s) :: b.ar[r].open)
  }

  ghost function ReceivedUnder(b: Books, s: Id): int {
    Total(map r | r in Under(b, s) :: b.ar[r].received)
  }

  ghost function InvoicedUnder(b: Books, s: Id): int {
    Total(map r | r in Under(b, s) :: b.ar[r].invoiced)
  }

  ghost function OriginalUnder(b: Books, s: Id): int {
    Total(map r | r in Under(b, s) :: b.ar[r].original)
  }

  ghost function WrittenOffUnder(b: Books, s: Id): int {
    Total(map r | r in Under(b, s) :: b.ar[r].writeOff)
  }

  /** What the allocations on those receivables come to, reversals taken off. */
  ghost function PaidOn(b: Books, s: Id): int {
    Total(map a | a in b.cash.allocations && b.cash.allocations[a].receivable in Under(b, s) :: NetPart(b.cash.allocations[a]))
  }

  function ReceiptAmounts(facts: map<Fact, Id>, receipts: map<Id, Receipt>): map<Fact, int> {
    map f | f in facts && f.kind == ReceiptFact && facts[f] in receipts :: receipts[facts[f]].amount
  }

  /** The amounts of the restored receipts. */
  ghost function RestoredReceipts(i: Import): int {
    Total(ReceiptAmounts(i.facts, i.books.cash.receipts))
  }

  /** Every plan of the snapshot is confirmed, and plans and receivables both come to the contract amount. */
  ghost predicate FullyPlanned(b: Books, s: Id)
    requires s in b.con.snapshots
  {
    && (forall p :: PlanUnder(b, p, s) ==> b.con.plans[p].status == PlanConfirmed)
    && PlanTotal(b.con.plans, s) == b.con.snapshots[s].amount && OriginalUnder(b, s) == b.con.snapshots[s].amount
  }

  // ---------- the guards that cannot fire

  lemma {:induction false} TotalAdds<K(!new)>(a: map<K, int>, b: map<K, int>, c: map<K, int>)
    requires a.Keys == c.Keys && b.Keys == c.Keys && forall k :: k in c ==> c[k] == a[k] + b[k]
    ensures Total(c) == Total(a) + Total(b)
    decreases |c|
  {
    if k :| k in c {
      TotalPick(a, k);
      TotalPick(b, k);
      TotalPick(c, k);
      TotalAdds(a - {k}, b - {k}, c - {k});
    } else {
      assert a == map[] && b == map[] && c == map[];
      TotalEmpty<K>();
    }
  }

  /** The parts of the receivables add up as each of them does. */
  lemma PartsAddUp(b: Books, s: Id)
    requires Inv(b)
    ensures OpenUnder(b, s) + ReceivedUnder(b, s) + WrittenOffUnder(b, s) == OriginalUnder(b, s)
  {
    var open := map r | r in Under(b, s) :: b.ar[r].open;
    var received := map r | r in Under(b, s) :: b.ar[r].received;
    var off := map r | r in Under(b, s) :: b.ar[r].writeOff;
    var original := map r | r in Under(b, s) :: b.ar[r].original;
    var both := map r | r in Under(b, s) :: b.ar[r].open + b.ar[r].received;
    TotalAdds(open, received, both);
    forall r | r in original ensures original[r] == both[r] + off[r] { assert ReceivableBalanced(b.cash, b.ar, r); }
    TotalAdds(both, off, original);
  }

  ghost function PartsOf(allocations: map<Id, Allocation>, of: set<Id>): map<Id, int> {
    map a | a in allocations && allocations[a].receivable in of :: NetPart(allocations[a])
  }

  ghost function NetsOf(allocations: map<Id, Allocation>, of: set<Id>): map<Id, int> {
    map r | r in of :: NetOf(allocations, OfReceivable(r))
  }

  lemma PartsSplit(allocations: map<Id, Allocation>, of: set<Id>, r: Id)
    requires r in of
    ensures Total(PartsOf(allocations, of)) == NetOf(allocations, OfReceivable(r)) + Total(PartsOf(allocations, of - {r}))
  {
    hide NetPart;
    var mine := map a | a in allocations && Touches(allocations[a], OfReceivable(r)) :: NetPart(allocations[a]);
    var others := PartsOf(allocations, of - {r});
    TotalUnion(mine, others);
    assert PartsOf(allocations, of) == mine + others;
  }

  /** Netting per receivable and adding up is netting over all allocations at once. */
  lemma {:induction false} NetsAddUp(allocations: map<Id, Allocation>, of: set<Id>)
    ensures Total(NetsOf(allocations, of)) == Total(PartsOf(allocations, of))
    decreases |of|
  {
    hide NetOf;
    if r :| r in of {
      NetsAddUp(allocations, of - {r});
      TotalPick(NetsOf(allocations, of), r);
      assert NetsOf(allocations, of) - {r} == NetsOf(allocations, of - {r});
      PartsSplit(allocations, of, r);
    } else {
      assert NetsOf(allocations, of) == map[] && PartsOf(allocations, of) == map[];
      TotalEmpty<Id>();
    }
  }

  /** In sound books the received amounts are the net allocations. */
  lemma ReceivedIsPaid(b: Books, s: Id)
    requires Inv(b)
    ensures ReceivedUnder(b, s) == PaidOn(b, s)
  {
    hide NetPart;
    var of := Under(b, s).Keys;
    NetsAddUp(b.cash.allocations, of);
    forall r | r in of ensures b.ar[r].received == NetOf(b.cash.allocations, OfReceivable(r)) { assert ReceivableBalanced(b.cash, b.ar, r); }
    assert (map r | r in Under(b, s) :: b.ar[r].received) == NetsOf(b.cash.allocations, of);
    assert (map a | a in b.cash.allocations && b.cash.allocations[a].receivable in Under(b, s) :: NetPart(b.cash.allocations[a]))
        == PartsOf(b.cash.allocations, of);
  }

  /** While the snapshot is on hold nothing is invoiced on it. */
  lemma NothingInvoicedYet(i: Import)
    requires ImportInv(i) && i.hold
    ensures InvoicedUnder(i.books, i.snapshot) == 0
  {
    var b, s := i.books, i.snapshot;
    var column := map r | r in Under(b, s) :: b.ar[r].invoiced;
    forall r | r in column ensures column[r] == 0 {
      assert CapacitySound(b.inv.requests, b.ar, r);
      forall q | q in b.inv.requests ensures r !in b.inv.requests[q].lines { assert DrawsElsewhere(b, s, q) && OwedUnder(b.ar, r, s); }
      ZeroTotal(map q | q in b.inv.requests :: StandingOn(b.inv.requests[q], r));
    }
    ZeroTotal(column);
  }

  // ---------- reconciliation

  lemma ReceiptsNotNegative(b: Books, p: Id)
    requires Inv(b) && p in b.cash.receipts
    ensures 0 <= b.cash.receipts[p].amount
  {
    assert ReceiptBalanced(b.cash, p);
    var nets := map a | a in b.cash.allocations && Touches(b.cash.allocations[a], OfReceipt(p)) :: NetPart(b.cash.allocations[a]);
    forall a | a in nets ensures 0 <= nets[a] { assert AllocationSound(b.cash, b.ar, a); }
    TotalNonNegative(nets);
    var held := map d | d in b.cash.differences && HoldsFor(b.cash.differences[d], p) :: b.cash.differences[d].amount;
    forall d | d in held ensures 0 <= held[d] { assert DifferenceSound(b.cash, d); }
    TotalNonNegative(held);
  }

  lemma SumsNotNegative(i: Import)
    requires Inv(i.books)
    ensures 0 <= OpenUnder(i.books, i.snapshot) && 0 <= RestoredReceipts(i)
  {
    var b, s := i.books, i.snapshot;
    var open := map r | r in Under(b, s) :: b.ar[r].open;
    forall r | r in open ensures 0 <= open[r] { assert ReceivableBalanced(b.cash, b.ar, r); }
    TotalNonNegative(open);
    var receipts := ReceiptAmounts(i.facts, b.cash.receipts);
    forall f | f in receipts ensures 0 <= receipts[f] { ReceiptsNotNegative(b, i.facts[f]); }
    TotalNonNegative(receipts);
  }

  /** The columns a reconciliation reads are those of the books. */
  lemma LedgerColumnsAre(b: Books, s: Id)
    ensures var l := LedgerOf(b, s);
      && SumOriginal(l) == OriginalUnder(b, s) && SumReceived(l) == ReceivedUnder(b, s) && SumOpen(l) == OpenUnder(b, s)
      && SumInvoiced(l) == InvoicedUnder(b, s) && SumWrittenOff(l) == WrittenOffUnder(b, s)
  {
    var l := LedgerOf(b, s);
    assert l == Under(b, s);
    assert (map r | r in l :: l[r].original) == (map r | r in Under(b, s) :: b.ar[r].original);
    assert (map r | r in l :: l[r].received) == (map r | r in Under(b, s) :: b.ar[r].received);
    assert (map r | r in l :: l[r].open) == (map r | r in Under(b, s) :: b.ar[r].open);
    assert (map r | r in l :: l[r].invoiced) == (map r | r in Under(b, s) :: b.ar[r].invoiced);
    assert (map r | r in l :: l[r].writeOff) == (map r | r in Under(b, s) :: b.ar[r].writeOff);
  }

  lemma OtherColumnsAre(b: Books, s: Id)
    ensures SumPlanned(PlansOf(b, s)) == PlanTotal(b.con.plans, s) && SumNet(PaymentsOf(b, s)) == PaidOn(b, s)
  {
    hide NetPart;
    var plans, payments := PlansOf(b, s), PaymentsOf(b, s);
    assert (map p | p in plans :: plans[p].amount) == (map p | p in b.con.plans && b.con.plans[p].snapshot == s :: b.con.plans[p].amount);
    assert (map a | a in payments :: NetPart(payments[a]))
        == (map a | a in b.cash.allocations && b.cash.allocations[a].receivable in Under(b, s) :: NetPart(b.cash.allocations[a]));
  }

  /** The declared facts are restored. */
  lemma FactsMatchIff(facts: set<Fact>, manifest: seq<Fact>)
    requires ValidManifest(manifest)
    ensures |facts| == |manifest| && (forall f :: f in manifest ==> f in facts) <==> facts == SetOf(manifest)
  {
    ManifestSize(manifest);
    if |facts| == |manifest| && forall f :: f in manifest ==> f in facts { CountedFacts(facts, manifest); }
  }

  /** What a reconciliation certifies, in sums over the books. */
  ghost predicate Reconciles(i: Import) {
    && i.hold && i.snapshot in i.books.con.snapshots && FullyPlanned(i.books, i.snapshot)
    && i.facts.Keys == SetOf(i.manifest) && (i.closed ==> OpenUnder(i.books, i.snapshot) == 0)
  }

  lemma BalancesAre(i: Import)
    requires ImportInv(i)
    ensures Balances(i).Done? <==> Reconciles(i)
    ensures Balances(i).Done? ==> var s := Balances(i).value;
      && s.planned == PlanTotal(i.books.con.plans, i.snapshot) && s.confirmed == OriginalUnder(i.books, i.snapshot)
      && s.received == ReceivedUnder(i.books, i.snapshot) && s.open == OpenUnder(i.books, i.snapshot)
      && s.receipts == RestoredReceipts(i) && s.invoiced == InvoicedUnder(i.books, i.snapshot) && s.facts == |i.manifest|
  {
    hide Inv, OpenUnder, ReceivedUnder, InvoicedUnder, OriginalUnder, WrittenOffUnder, PaidOn, PlanTotal,
      SumPlanned, SumOriginal, SumReceived, SumOpen, SumInvoiced, SumWrittenOff, SumNet;
    LedgerColumnsAre(i.books, i.snapshot);
    OtherColumnsAre(i.books, i.snapshot);
    PartsAddUp(i.books, i.snapshot);
    ReceivedIsPaid(i.books, i.snapshot);
    if i.hold { NothingInvoicedYet(i); }
    FactsMatchIff(i.facts.Keys, i.manifest);
    ManifestSize(i.manifest);
    assert Seen(i).receipts == ReceiptAmounts(i.facts, i.books.cash.receipts);
    assert forall p :: p in Seen(i).plans <==> PlanUnder(i.books, p, i.snapshot);
  }

  /** A reconciliation is accepted if and only if the snapshot is on hold, its plans are confirmed and they and
      its receivables come to the contract amount, exactly the declared facts are restored, a closed import
      has nothing open, the certificate id is unused, and the declared sums are those of the books.  The
      stored statement then holds these sums under their names. */
  lemma ReconciliationAcceptedIff(i: Import, id: Id, open: int, receipts: int, invoiced: int)
    requires ImportInv(i)
    ensures Certify(i, id, open, receipts, invoiced).Done? <==>
      && Reconciles(i) && id !in i.certificates
      && open == OpenUnder(i.books, i.snapshot) && receipts == RestoredReceipts(i) && invoiced == InvoicedUnder(i.books, i.snapshot)
    ensures Certify(i, id, open, receipts, invoiced).Done? ==>
      var n := Certify(i, id, open, receipts, invoiced).value;
      && n == i.(certificates := n.certificates, current := Some(id)) && id in n.certificates
      && n.certificates == i.certificates[id := n.certificates[id]] && n.certificates[id].version == i.version
      && var s := n.certificates[id].statement;
      && s.open == open && s.receipts == receipts && s.invoiced == invoiced == 0
      && s.planned == s.confirmed == i.books.con.snapshots[i.snapshot].amount
      && s.received == ReceivedUnder(i.books, i.snapshot) == PaidOn(i.books, i.snapshot) && s.facts == |i.manifest|
  {
    hide Balances, Inv;
    BalancesAre(i);
    SumsNotNegative(i);
    if i.hold { NothingInvoicedYet(i); }
    ReceivedIsPaid(i.books, i.snapshot);
  }

  // ---------- restored facts

  /** A receipt is restored if and only if the import is on hold, the fact is a declared receipt that was not
      restored before, and the receipt is new; version and books move together and a reconciliation is
      withdrawn. */
  lemma RestoreReceiptOutcome(i: Import, fact: Fact, receipt: Id, customer: Id, currency: Id, amount: int)
    ensures RestoredReceipt(i, fact, receipt, customer, currency, amount).Done? <==>
      && i.hold && fact.kind == ReceiptFact && fact in i.manifest && fact !in i.facts
      && 0 < amount && receipt !in i.books.cash.receipts
    ensures RestoredReceipt(i, fact, receipt, customer, currency, amount).Done? ==>
      var n := RestoredReceipt(i, fact, receipt, customer, currency, amount).value;
      && n == i.(books := n.books, facts := i.facts[fact := receipt], version := i.version + 1, current := None)
      && n.books == i.books.(cash := i.books.cash.(receipts :=
           i.books.cash.receipts[receipt := Receipt(customer, currency, amount, amount, Available)]))
  {
  }

  lemma AmountsAfter(facts: map<Fact, Id>, receipts: map<Id, Receipt>, fact: Fact, id: Id, row: Receipt)
    requires fact !in facts && fact.kind == ReceiptFact && id !in receipts
    requires forall f :: f in facts && f.kind == ReceiptFact ==> facts[f] in receipts
    ensures ReceiptAmounts(facts[fact := id], receipts[id := row]) == ReceiptAmounts(facts, receipts)[fact := row.amount]
  {
  }

  /** A restored receipt raises the sum of restored receipts by its amount and nothing else the declaration
      is compared with. */
  lemma RestoringRaisesReceipts(i: Import, fact: Fact, receipt: Id, customer: Id, currency: Id, amount: int)
    requires ImportInv(i) && RestoredReceipt(i, fact, receipt, customer, currency, amount).Done?
    ensures var n := RestoredReceipt(i, fact, receipt, customer, currency, amount).value;
      RestoredReceipts(n) == RestoredReceipts(i) + amount && n.books.ar == i.books.ar && n.books.con == i.books.con
  {
    hide Inv, RestoredReceipt, ReceiptAmounts;
    RestoreReceiptOutcome(i, fact, receipt, customer, currency, amount);
    forall f | f in i.facts && f.kind == ReceiptFact ensures i.facts[f] in i.books.cash.receipts { assert FactSound(i.facts, i.manifest, i.books.cash.receipts, f); }
    AmountsAfter(i.facts, i.books.cash.receipts, fact, receipt, Receipt(customer, currency, amount, amount, Available));
    TotalSet(ReceiptAmounts(i.facts, i.books.cash.receipts), fact, amount);
    FactHasNoAmount(i.facts, i.books.cash.receipts, fact);
  }

  lemma FactHasNoAmount(facts: map<Fact, Id>, receipts: map<Id, Receipt>, fact: Fact)
    requires fact !in facts
    ensures fact !in ReceiptAmounts(facts, receipts)
  {
  }

  /** A restored allocation is a declared one that pays a receivable of the snapshot, at its installment, out of
      a restored receipt of the same source; it is posted like any other. */
  lemma RestoreAllocationOutcome(i: Import, fact: Fact, origin: Fact, installment: int, input: AllocationInput)
    requires ImportInv(i)
    ensures RestoredAllocation(i, fact, origin, installment, input).Done? <==>
      && i.hold && fact.kind == AllocationFact && fact in i.manifest && fact !in i.facts
      && input.receivable in i.books.ar && i.books.ar[input.receivable].snapshot == i.snapshot
      && i.books.ar[input.receivable].plan in i.books.con.plans && i.books.con.plans[i.books.ar[input.receivable].plan].installment == installment
      && origin.source == fact.source && origin.kind == ReceiptFact && origin in i.facts && i.facts[origin] == input.receipt
      && ConfirmAllocation(i.books, input).Done?
    ensures RestoredAllocation(i, fact, origin, installment, input).Done? ==>
      RestoredAllocation(i, fact, origin, installment, input).value ==
        i.(books := ConfirmAllocation(i.books, input).value, facts := i.facts[fact := input.id], version := i.version + 2, current := None)
  {
    hide ConfirmAllocation, Inv;
  }

  // ---------- the gate

  predicate IsRestored(i: Import, receipt: Id) {
    exists f :: f in i.facts && f.kind == ReceiptFact && i.facts[f] == receipt
  }

  predicate PaysHeld(i: Import, r: Id) {
    r in i.books.ar && i.books.ar[r].snapshot == i.snapshot
  }

  predicate PlanHeld(i: Import, p: Id) {
    p in i.books.con.plans && i.books.con.plans[p].snapshot == i.snapshot
  }

  /** An ordinary transaction that would be accepted is stopped by the hold if and only if it allocates to a held
      receivable, uses a restored receipt, asks to invoice the snapshot, revises its contract, or changes the
      amount or date of one of its plans. */
  lemma GateStopsIff(i: Import, c: Cmd)
    requires i.hold && Transaction(i.books, c).Done?
    ensures Ordinarily(i, c).Refused? <==>
      match c
      case OfCash(x) =>
        (match x
         case ConfirmAllocationCmd(a) => PaysHeld(i, a.receivable) || IsRestored(i, a.receipt)
         case ReverseAllocationCmd(v) => v.allocation in i.books.cash.allocations && IsRestored(i, i.books.cash.allocations[v.allocation].receipt)
         case CreateDifferenceCmd(d) => IsRestored(i, d.receipt)
         case _ => false)
      case OfInvoices(x) => x.CreateRequestCmd? && x.input.snapshot == i.snapshot
      case OfContracts(x) =>
        (match x
         case IngestCmd(e) =>
           i.snapshot in i.books.con.snapshots && i.books.con.snapshots[i.snapshot].contract == Some(e.contract) && e.event !in i.books.con.events
         case CreatePlanCmd(p) => p.snapshot == i.snapshot
         case AdjustPlanCmd(p) => PlanHeld(i, p.id)
         case ConfirmPlanCmd(p, _) =>
           PlanHeld(i, p.id) && ((p.due.Some? && p.due.value != i.books.con.plans[p.id].due) || (p.amount.Some? && p.amount.value != i.books.con.plans[p.id].amount))
         case _ => false)
    ensures Ordinarily(i, c).Done? ==> Ordinarily(i, c).value.books == Transaction(i.books, c).value
  {
    hide Transaction;
    forall receipt ensures IsRestored(i, receipt) <==> Restored(i.facts, receipt) {
      if f :| f in i.facts && f.kind == ReceiptFact && i.facts[f] == receipt { assert RestoredAs(i.facts, f, receipt); }
    }
  }

  /** After the release nothing is stopped. */
  lemma ReleasedGateIsOpen(i: Import, c: Cmd)
    requires !i.hold
    ensures Ordinarily(i, c).Done? <==> Transaction(i.books, c).Done?
    ensures Ordinarily(i, c).Done? ==> Ordinarily(i, c).value == i.(books := Transaction(i.books, c).value)
  {
    hide Transaction;
  }
}
