/** When cash transactions are accepted and what they leave in the rows, and which received money can
    still be allocated. */
module CashOutcomes {
  import opened Tables
  import opened Totals
  import opened Cash
  import opened Settlement

  // ---------- allocations

  /** Receipt and receivable belong together, and both have room for the amount. */
  predicate Fits(b: Books, i: AllocationInput) {
    && i.receipt in b.cash.receipts && i.receivable in b.ar
    && var p, r := b.cash.receipts[i.receipt], b.ar[i.receivable];
    && p.customer == r.customer && p.currency == r.currency
    && 0 < i.amount && i.amount <= p.unallocated && i.amount <= r.open
  }

  /** Neither the allocation id nor, where a credit fact is due, its event id is taken. */
  predicate FreshIds(b: Books, i: AllocationInput) {
    && i.id !in b.cash.allocations
    && (i.eligible && i.receivable in b.ar && i.amount == b.ar[i.receivable].open ==> i.event !in b.cash.credits)
  }

  /** An allocation is accepted if and only if it fits, its ids are unused, and the receipt is not marked as
      used up. */
  lemma AllocationAcceptedIff(b: Books, i: AllocationInput)
    requires CashInv(b.cash, b.ar)
    ensures ConfirmAllocation(b, i).Done? <==>
      Fits(b, i) && FreshIds(b, i) && b.cash.receipts[i.receipt].status != FullyAllocated
  {
    if i.receivable in b.ar { assert ReceivableBalanced(b.cash, b.ar, i.receivable); }
  }

  /** An accepted allocation moves exactly its amount from receipt to receivable; the receipt is marked as
      used up exactly when nothing is left, the receivable as settled exactly when nothing is open, and a
      credit fact is written exactly for an eligible settling allocation. */
  lemma AllocationOutcome(b: Books, i: AllocationInput)
    requires CashInv(b.cash, b.ar) && ConfirmAllocation(b, i).Done?
    ensures Fits(b, i)
    ensures var n := ConfirmAllocation(b, i).value; var p, r := b.cash.receipts[i.receipt], b.ar[i.receivable];
      && n == b.(ar := n.ar, cash := b.cash.(receipts := n.cash.receipts, allocations := n.cash.allocations, credits := n.cash.credits))
      && i.receipt in n.cash.receipts && n.cash.receipts == b.cash.receipts[i.receipt := n.cash.receipts[i.receipt]]
      && i.receivable in n.ar && n.ar == b.ar[i.receivable := n.ar[i.receivable]]
      && var p', r' := n.cash.receipts[i.receipt], n.ar[i.receivable];
      && p'.unallocated == p.unallocated - i.amount && p' == p.(unallocated := p'.unallocated, status := p'.status)
      && (p'.status == FullyAllocated <==> p'.unallocated == 0) && (p'.status == PartiallyAllocated <==> 0 < p'.unallocated)
      && r'.open == r.open - i.amount && r'.received == r.received + i.amount
      && r' == r.(open := r'.open, received := r'.received, collection := r'.collection)
      && (r'.collection == Settled <==> r'.open == 0) && (r'.collection == PartiallySettled <==> 0 < r'.open)
      && n.cash.allocations == b.cash.allocations[i.id := Allocation(i.receipt, i.receivable, i.amount, i.user, Confirmed, map[])]
      && (if r'.open == 0 && i.eligible
          then i.event in n.cash.credits && i.event !in b.cash.credits && n.cash.credits == b.cash.credits[i.event := n.cash.credits[i.event]]
               && n.cash.credits[i.event].Completed? && n.cash.credits[i.event].receivable == i.receivable && n.cash.credits[i.event].allocation == i.id
          else n.cash.credits == b.cash.credits)
  {
    AllocationAcceptedIff(b, i);
  }

  /** After an accepted allocation that leaves money on the receipt, any further allocation that fits is
      accepted. */
  lemma RestCanBeAllocated(b: Books, i: AllocationInput, j: AllocationInput)
    requires CashInv(b.cash, b.ar) && ConfirmAllocation(b, i).Done? && j.receipt == i.receipt
    requires var n := ConfirmAllocation(b, i).value; Fits(n, j) && FreshIds(n, j)
    ensures ConfirmAllocation(ConfirmAllocation(b, i).value, j).Done?
  {
    hide ConfirmAllocation, CashInv;
    AllocationOutcome(b, i);
    ConfirmAllocationKeeps(b, i);
    AllocationAcceptedIff(ConfirmAllocation(b, i).value, j);
  }

  // ---------- reversals

  /** An accepted reversal moves exactly its amount back; the receipt is available again exactly when all of
      it is unallocated, and the allocation is reversed exactly when nothing of it is left. */
  lemma ReversalOutcome(b: Books, i: ReversalInput)
    requires CashInv(b.cash, b.ar) && ReverseAllocation(b, i).Done?
    ensures i.allocation in b.cash.allocations
    ensures var n, a := ReverseAllocation(b, i).value, b.cash.allocations[i.allocation];
      && a.receipt in b.cash.receipts && a.receivable in b.ar
      && n == b.(ar := n.ar, cash := b.cash.(receipts := n.cash.receipts, allocations := n.cash.allocations, credits := n.cash.credits))
      && a.receipt in n.cash.receipts && n.cash.receipts == b.cash.receipts[a.receipt := n.cash.receipts[a.receipt]]
      && a.receivable in n.ar && n.ar == b.ar[a.receivable := n.ar[a.receivable]]
      && i.allocation in n.cash.allocations && n.cash.allocations == b.cash.allocations[i.allocation := n.cash.allocations[i.allocation]]
      && var p, r, p', r', a' := b.cash.receipts[a.receipt], b.ar[a.receivable], n.cash.receipts[a.receipt], n.ar[a.receivable], n.cash.allocations[i.allocation];
      && p'.unallocated == p.unallocated + i.amount && p' == p.(unallocated := p'.unallocated, status := p'.status)
      && (p'.status == Available <==> p'.unallocated == p.amount) && (p'.status == PartiallyAllocated <==> p'.unallocated != p.amount)
      && r'.open == r.open + i.amount && r'.received == r.received - i.amount
      && r' == r.(open := r'.open, received := r'.received, collection := r'.collection)
      && NetPart(a') == NetPart(a) - i.amount && (a'.status == Reversed <==> NetPart(a') == 0)
      && a' == a.(status := a'.status, reversals := a.reversals[i.id := i.amount])
  {
    var a := b.cash.allocations[i.allocation];
    assert AllocationSound(b.cash, b.ar, i.allocation);
    TotalSet(a.reversals, i.id, i.amount);
  }

  /** What was reversed can be allocated again. */
  lemma ReversedMoneyCanBeAllocated(b: Books, i: ReversalInput, j: AllocationInput)
    requires CashInv(b.cash, b.ar) && ReverseAllocation(b, i).Done? && j.receipt == b.cash.allocations[i.allocation].receipt
    requires var n := ReverseAllocation(b, i).value; Fits(n, j) && FreshIds(n, j)
    ensures ConfirmAllocation(ReverseAllocation(b, i).value, j).Done?
  {
    hide ReverseAllocation, ConfirmAllocation, CashInv;
    ReversalOutcome(b, i);
    ReverseAllocationKeeps(b, i);
    AllocationAcceptedIff(ReverseAllocation(b, i).value, j);
  }

  // ---------- differences

  /** A held difference takes its amount out of the balance, except a shortpayment, which has none. */
  lemma DifferenceOutcome(b: Books, i: DifferenceInput)
    ensures CreateDifference(b, i).Done? <==>
      && 0 < i.amount && i.receipt in b.cash.receipts && i.id !in b.cash.differences
      && (i.kind == Shortpayment || i.amount <= b.cash.receipts[i.receipt].unallocated)
    ensures CreateDifference(b, i).Done? ==>
      var n, p := CreateDifference(b, i).value, b.cash.receipts[i.receipt];
      && n.ar == b.ar && n.cash.allocations == b.cash.allocations
      && n.cash.receipts == (if i.kind == Shortpayment then b.cash.receipts else b.cash.receipts[i.receipt := p.(unallocated := p.unallocated - i.amount)])
      && n.cash.differences == b.cash.differences[i.id := Difference(i.receipt, i.kind, i.amount, Held, Undecided, i.user, NOBODY, NOBODY, 1)]
  {
  }

  /** A held difference is resolved by anyone at its version, a shortpayment only as matched; the resolution is
      approved by someone who neither asked for nor resolved it; only an approved refund is confirmed. */
  lemma DifferenceStepsAcceptedIff(b: Books, id: Id, version: int, resolution: Resolution, user: Id)
    requires CashInv(b.cash, b.ar) && id in b.cash.differences && b.cash.differences[id].version == version
    ensures var d := b.cash.differences[id];
      && (ResolveDifference(b, id, version, resolution, user).Done? <==>
            d.status == Held && resolution != Undecided && (d.kind == Shortpayment ==> resolution == Matched))
      && (ApproveDifference(b, id, version, user).Done? <==> d.status == ReviewPending && user != d.requestedBy && user != d.resolvedBy)
      && (ConfirmRefund(b, id, version).Done? <==>
            d.status == RefundPending && d.approvedBy != NOBODY && d.approvedBy != d.requestedBy && d.approvedBy != d.resolvedBy)
  {
    assert DifferenceSound(b.cash, id);
  }

  /** The decision of the resolver is what the approval carries out: a refund stays out of the balance and
      waits for its confirmation, anything else is approved and its money returns to the receipt. */
  lemma ResolutionIsCarriedOut(b: Books, id: Id, version: int, resolution: Resolution, user: Id, approver: Id)
    requires CashInv(b.cash, b.ar) && ResolveDifference(b, id, version, resolution, user).Done?
    requires ApproveDifference(ResolveDifference(b, id, version, resolution, user).value, id, version + 1, approver).Done?
    ensures id in b.cash.differences && b.cash.differences[id].receipt in b.cash.receipts
    ensures var d := b.cash.differences[id]; var p := b.cash.receipts[d.receipt];
      var n := ApproveDifference(ResolveDifference(b, id, version, resolution, user).value, id, version + 1, approver).value;
      && d.status == Held && user != approver && d.requestedBy != approver
      && n == b.(cash := b.cash.(receipts := n.cash.receipts, differences := n.cash.differences))
      && n.cash.differences == b.cash.differences[id := d.(
           status := if resolution == ToRefund then RefundPending else Approved,
           resolution := resolution, resolvedBy := user, approvedBy := approver, version := version + 2)]
      && n.cash.receipts == (if resolution == ToRefund || d.kind == Shortpayment then b.cash.receipts
                             else b.cash.receipts[d.receipt := p.(unallocated := p.unallocated + d.amount)])
  {
    assert DifferenceSound(b.cash, id);
    var m := ResolveDifference(b, id, version, resolution, user).value;
    var n := ApproveDifference(m, id, version + 1, approver).value;
    assert n.cash.differences == b.cash.differences[id := n.cash.differences[id]];
  }

  /** Only an approved refund is confirmed, and nothing else about it changes. */
  lemma RefundOutcome(b: Books, id: Id, version: int)
    requires ConfirmRefund(b, id, version).Done?
    ensures id in b.cash.differences && b.cash.differences[id].status == RefundPending && b.cash.differences[id].resolution == ToRefund
    ensures b.cash.differences[id].approvedBy !in {NOBODY, b.cash.differences[id].requestedBy, b.cash.differences[id].resolvedBy}
    ensures ConfirmRefund(b, id, version).value == b.(cash := b.cash.(differences :=
      b.cash.differences[id := b.cash.differences[id].(status := RefundConfirmed, version := version + 1)]))
  {
  }

  // ---------- money that cannot be allocated

  /** No receipt is marked as used up while it has money. */
  predicate Usable(c: CashTables) {
    forall p :: p in c.receipts && c.receipts[p].status == FullyAllocated ==> c.receipts[p].unallocated == 0
  }

  /** The approval gives money back to a receipt that is marked as used up, and leaves the mark. */
  predicate ReturnsToUsedUp(b: Books, c: CashCmd) {
    && c.ApproveDifferenceCmd? && c.id in b.cash.differences
    && var d := b.cash.differences[c.id];
    && d.resolution != ToRefund && d.kind != Shortpayment
    && d.receipt in b.cash.receipts && b.cash.receipts[d.receipt].status == FullyAllocated
  }

  /** While every receipt with money can be allocated, a step keeps it so if and only if it does not return a
      difference to a used-up receipt. */
  lemma StepKeepsUsableIff(b: Books, c: CashCmd)
    requires CashInv(b.cash, b.ar) && Usable(b.cash) && CashTransaction(b, c).Done?
    ensures Usable(CashTransaction(b, c).value.cash) <==> !ReturnsToUsedUp(b, c)
  {
    hide ConfirmAllocation, ReverseAllocation, CashInv;
    match c
    case ConfirmAllocationCmd(i) => AllocationOutcome(b, i);
    case ReverseAllocationCmd(i) => ReversalOutcome(b, i); ReversedIsPositive(b, i);
    case ApproveDifferenceCmd(id, version, user) => ApprovalUsable(b, id, version, user);
    case CreateDifferenceCmd(i) => DifferenceOutcome(b, i);
    case _ =>
  }

  lemma ReversedIsPositive(b: Books, i: ReversalInput)
    requires ReverseAllocation(b, i).Done?
    ensures 0 < i.amount
  {
  }

  lemma ApprovalUsable(b: Books, id: Id, version: int, user: Id)
    requires CashInv(b.cash, b.ar) && Usable(b.cash) && ApproveDifference(b, id, version, user).Done?
    ensures Usable(ApproveDifference(b, id, version, user).value.cash) <==> !ReturnsToUsedUp(b, ApproveDifferenceCmd(id, version, user))
  {
    assert DifferenceSound(b.cash, id);
    var n, p := ApproveDifference(b, id, version, user).value.cash, b.cash.differences[id].receipt;
    if ReturnsToUsedUp(b, ApproveDifferenceCmd(id, version, user)) {
      assert n.receipts[p].status == FullyAllocated && n.receipts[p].unallocated > 0;
    }
  }
}
