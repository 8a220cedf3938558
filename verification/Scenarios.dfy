/** Concrete runs from an empty store.  They show that the cases the service handles less well are
    reachable: each state is the result of the accepted transaction before it. */
module Scenarios {
  import opened Tables
  import opened Totals
  import opened Billing
  import opened Cash
  import opened Invoicing
  import opened Contracts
  import opened ContractProofs
  import opened Settlement
  import opened Revisions
  import opened CreditRuns
  import opened CashOutcomes

  // ---------- one contract of 200 with one confirmed plan

  const CONTRACT := Id(1)
  const SNAPSHOT := Id(2)
  const CUSTOMER := Id(3)
  const CURRENCY := Id(4)
  const ALICE := Id(5)
  const BOB := Id(6)
  const R := Id(7)
  const PLAN := Id(10)
  const PLAN_IDS: nat -> Id := (k: nat) => Id(10 + k)
  const OVERRIDE := Policy(5.0, 50.0, true)

  const SIGNED := ContractEvent(Id(100), CONTRACT, 1, 200, CUSTOMER, CURRENCY, [Term(1, 0, 200)], SNAPSHOT, PLAN_IDS, Id(101))

  const PLANNED := NOTHING.(con := ContractTables(
    map[CONTRACT := 1], map[SNAPSHOT := Snapshot(Some(CONTRACT), 1, 200, CUSTOMER, CURRENCY, Effective)],
    map[PLAN := Plan(SNAPSHOT, 1, 0, 200, false, PendingConfirmation, 1)], map[], {Id(100)}, {}))

  const CONFIRM := PlanInput(PLAN, 1, None, None, false, OVERRIDE)

  const OWED := Receivable(PLAN, SNAPSHOT, CUSTOMER, CURRENCY, 0, 200, 200, 0, 0, 0, Unpaid, NotInvoiced)

  const CONFIRMED := PLANNED.(
    ar := map[R := OWED],
    con := PLANNED.con.(plans := map[PLAN := Plan(SNAPSHOT, 1, 0, 200, false, PlanConfirmed, 2)]))

  lemma OneTerm(t: Term)
    ensures SumTerms([t]) == t.amount
  {
    assert [t][..0] == [];
  }

  lemma Signing()
    ensures Ingest(NOTHING, SIGNED) == Done(PLANNED)
  {
    OneTerm(SIGNED.terms[0]);
    assert SIGNED.terms[..0] == [];
    assert InsertTerms(map[], SNAPSHOT, [], PLAN_IDS) == Done(map[]);
    assert InsertTerms(map[], SNAPSHOT, SIGNED.terms, PLAN_IDS) == Done(PLANNED.con.plans);
    var n := Ingest(NOTHING, SIGNED).value.con;
    assert n.streams == PLANNED.con.streams && n.snapshots == PLANNED.con.snapshots && n.events == PLANNED.con.events;
  }

  /** The plan total of a table with one plan. */
  lemma OnePlan(plans: map<Id, Plan>, p: Id)
    requires plans.Keys == {p}
    ensures PlanTotal(plans, plans[p].snapshot) == plans[p].amount
  {
    var none: map<Id, Plan> := map[];
    EmptyTotal(none, plans[p].snapshot);
    PlanTotalAfter(none, p, plans[p], plans[p].snapshot);
    assert none[p := plans[p]] == plans;
  }

  lemma Confirming()
    ensures ConfirmPlan(PLANNED, CONFIRM, R) == Done(CONFIRMED)
  {
    OnePlan(PLANNED.con.plans, PLAN);
    var n := ConfirmPlan(PLANNED, CONFIRM, R).value;
    assert n.ar == CONFIRMED.ar && n.con.plans == CONFIRMED.con.plans;
  }

  lemma ConfirmedReachable()
    ensures Reachable(CONFIRMED)
  {
    hide Reachable, Ingest, ConfirmPlan, CreateManualPlan, AdjustPlan;
    NothingReachable();
    Signing();
    ContractReaches(NOTHING, IngestCmd(SIGNED), PLANNED);
    Confirming();
    ContractReaches(PLANNED, ConfirmPlanCmd(CONFIRM, R), CONFIRMED);
  }

  // ---------- a plan adjustment settles and unsettles a receivable

  const RECEIPT := Id(20)
  const PAYMENT := Id(21)
  const FACT := Id(22)

  const PAY := AllocationInput(PAYMENT, RECEIPT, R, 40, ALICE, true, FACT)

  const RECEIVED := CONFIRMED.(cash := CashTables(map[RECEIPT := Receipt(CUSTOMER, CURRENCY, 40, 40, Available)], map[], map[], map[]))

  const PAID_ROWS := CashTables(
    map[RECEIPT := Receipt(CUSTOMER, CURRENCY, 40, 0, FullyAllocated)],
    map[PAYMENT := Allocation(RECEIPT, R, 40, ALICE, Confirmed, map[])], map[], map[])

  const HALF_PAID := RECEIVED.(ar := map[R := OWED.(open := 160, received := 40, collection := PartiallySettled)], cash := PAID_ROWS)

  const CUT := PlanInput(PLAN, 2, Some(0), Some(40), true, OVERRIDE)

  const CUT_PLANS := map[PLAN := Plan(SNAPSHOT, 1, 0, 40, false, PlanConfirmed, 3)]

  const SETTLED_BY_CUT := HALF_PAID.(
    ar := map[R := OWED.(original := 40, open := 0, received := 40, collection := Settled)],
    con := HALF_PAID.con.(plans := CUT_PLANS))

  lemma Receiving()
    ensures CreateReceipt(CONFIRMED, RECEIPT, CUSTOMER, CURRENCY, 40) == Done(RECEIVED)
  {
    assert CreateReceipt(CONFIRMED, RECEIPT, CUSTOMER, CURRENCY, 40).value.cash.receipts == RECEIVED.cash.receipts;
  }

  lemma Paying()
    ensures ConfirmAllocation(RECEIVED, PAY) == Done(HALF_PAID)
  {
    var n := ConfirmAllocation(RECEIVED, PAY).value;
    assert n.ar == HALF_PAID.ar && n.cash.receipts == PAID_ROWS.receipts && n.cash.allocations == PAID_ROWS.allocations;
  }

  /** The one receivable of a plan. */
  lemma OwedIs(ar: Ledger, r: Id)
    requires ar.Keys == {r}
    ensures ReceivableOf(ar, ar[r].plan) == Some(r)
  {
    assert OwedOn(ar, r, ar[r].plan);
  }

  /** An accepted adjustment of the only plan and its only receivable. */
  lemma Adjusting(b: Books, i: PlanInput)
    requires b.con.plans.Keys == {PLAN} && b.ar.Keys == {R} && b.ar[R].plan == PLAN && b.inv.requests == map[]
    requires i.id == PLAN && i.due.Some? && i.amount.Some? && i.hasReason && i.policy == OVERRIDE
    requires 0 < i.amount.value && 1 <= i.version == b.con.plans[PLAN].version && b.con.plans[PLAN].status == PlanConfirmed
    requires var s := b.con.plans[PLAN].snapshot; s in b.con.snapshots && b.con.snapshots[s].status == Effective && i.amount.value <= b.con.snapshots[s].amount
    requires b.ar[R].received + b.ar[R].writeOff <= i.amount.value && b.ar[R].invoiced <= i.amount.value
    ensures AdjustPlan(b, i) == Done(b.(
      ar := map[R := Resized(b.ar[R], i.due.value, i.amount.value)],
      con := b.con.(plans := map[PLAN := b.con.plans[PLAN].(due := i.due.value, amount := i.amount.value, version := i.version + 1)])))
  {
    OnePlan(b.con.plans, PLAN);
    OwedIs(b.ar, R);
    UndrawnIsZero(b.inv.requests, R);
    var n := AdjustPlan(b, i).value;
    assert n.ar == map[R := Resized(b.ar[R], i.due.value, i.amount.value)];
    assert n.con.plans == map[PLAN := b.con.plans[PLAN].(due := i.due.value, amount := i.amount.value, version := i.version + 1)];
  }

  lemma Cutting()
    ensures AdjustPlan(HALF_PAID, CUT) == Done(SETTLED_BY_CUT)
  {
    hide AdjustPlan;
    Adjusting(HALF_PAID, CUT);
  }

  /** Cutting a half-paid plan down to what was paid settles the receivable without a credit fact. */
  lemma AdjustmentCanSettle()
    ensures Reachable(HALF_PAID) && Reachable(SETTLED_BY_CUT)
    ensures ContractTransaction(HALF_PAID, AdjustPlanCmd(CUT)) == Done(SETTLED_BY_CUT)
    ensures CreditAgrees(HALF_PAID, R) && !CreditSafe(HALF_PAID, OfContracts(AdjustPlanCmd(CUT)), R)
    ensures SETTLED_BY_CUT.ar[R].open == 0 && OpenFacts(SETTLED_BY_CUT.cash.credits, R) == {} && !CreditAgrees(SETTLED_BY_CUT, R)
  {
    hide Reachable, Ingest, ConfirmPlan, CreateManualPlan, AdjustPlan;
    ConfirmedReachable();
    Receiving();
    CashReaches(CONFIRMED, CreateReceiptCmd(RECEIPT, CUSTOMER, CURRENCY, 40), RECEIVED);
    Paying();
    CashReaches(RECEIVED, ConfirmAllocationCmd(PAY), HALF_PAID);
    Cutting();
    ContractReaches(HALF_PAID, AdjustPlanCmd(CUT), SETTLED_BY_CUT);
    assert OpenFacts(HALF_PAID.cash.credits, R) == {};
  }

  // the other direction: cut first, pay in full, then grow the plan again

  const SHRUNK := CONFIRMED.(
    ar := map[R := OWED.(original := 40, open := 40)], con := CONFIRMED.con.(plans := CUT_PLANS))

  const SHRUNK_RECEIVED := SHRUNK.(cash := RECEIVED.cash)

  const FULLY_PAID := SHRUNK.(
    ar := map[R := OWED.(original := 40, open := 0, received := 40, collection := Settled)],
    cash := PAID_ROWS.(credits := map[FACT := Completed(R, PAYMENT, 0, CreditPending)]))

  const GROW := PlanInput(PLAN, 3, Some(0), Some(200), true, OVERRIDE)

  const REOPENED := FULLY_PAID.(
    ar := map[R := OWED.(open := 160, received := 40, collection := PartiallySettled)],
    con := FULLY_PAID.con.(plans := map[PLAN := Plan(SNAPSHOT, 1, 0, 200, false, PlanConfirmed, 4)]))

  lemma Shrinking()
    ensures AdjustPlan(CONFIRMED, CUT) == Done(SHRUNK)
  {
    hide AdjustPlan;
    Adjusting(CONFIRMED, CUT);
  }

  lemma ReceivingAgain()
    ensures CreateReceipt(SHRUNK, RECEIPT, CUSTOMER, CURRENCY, 40) == Done(SHRUNK_RECEIVED)
  {
    assert CreateReceipt(SHRUNK, RECEIPT, CUSTOMER, CURRENCY, 40).value.cash.receipts == RECEIVED.cash.receipts;
  }

  lemma PayingInFull()
    ensures ConfirmAllocation(SHRUNK_RECEIVED, PAY) == Done(FULLY_PAID)
  {
    var n := ConfirmAllocation(SHRUNK_RECEIVED, PAY).value;
    assert n.ar == FULLY_PAID.ar && n.cash.receipts == PAID_ROWS.receipts && n.cash.allocations == PAID_ROWS.allocations;
    assert n.cash.credits == FULLY_PAID.cash.credits;
  }

  lemma Growing()
    ensures AdjustPlan(FULLY_PAID, GROW) == Done(REOPENED)
  {
    hide AdjustPlan;
    Adjusting(FULLY_PAID, GROW);
  }

  /** Growing a settled plan reopens the receivable while its credit fact stays open. */
  lemma AdjustmentCanUnsettle()
    ensures Reachable(FULLY_PAID) && Reachable(REOPENED)
    ensures ContractTransaction(FULLY_PAID, AdjustPlanCmd(GROW)) == Done(REOPENED)
    ensures CreditAgrees(FULLY_PAID, R) && !CreditSafe(FULLY_PAID, OfContracts(AdjustPlanCmd(GROW)), R)
    ensures REOPENED.ar[R].open != 0 && OpenFacts(REOPENED.cash.credits, R) == {FACT} && !CreditAgrees(REOPENED, R)
  {
    hide Reachable, Ingest, ConfirmPlan, CreateManualPlan, AdjustPlan;
    ConfirmedReachable();
    Shrinking();
    ContractReaches(CONFIRMED, AdjustPlanCmd(CUT), SHRUNK);
    ReceivingAgain();
    PayingInFull();
    CashReaches(SHRUNK, CreateReceiptCmd(RECEIPT, CUSTOMER, CURRENCY, 40), SHRUNK_RECEIVED);
    CashReaches(SHRUNK_RECEIVED, ConfirmAllocationCmd(PAY), FULLY_PAID);
    Growing();
    ContractReaches(FULLY_PAID, AdjustPlanCmd(GROW), REOPENED);
    assert OpenFacts(FULLY_PAID.cash.credits, R) == {FACT};
  }

  // ---------- a revision is refused for a payment that was reversed in full

  const TAKE_BACK := ReversalInput(Id(23), PAYMENT, 40, BOB, true, Id(24))

  const TAKEN_BACK := HALF_PAID.(
    ar := map[R := OWED],
    cash := PAID_ROWS.(
      receipts := map[RECEIPT := Receipt(CUSTOMER, CURRENCY, 40, 40, Available)],
      allocations := map[PAYMENT := Allocation(RECEIPT, R, 40, ALICE, Reversed, map[Id(23) := 40])]))

  const REVISED := ContractEvent(Id(102), CONTRACT, 2, 200, CUSTOMER, CURRENCY, [Term(2, 0, 200)], Id(103), (k: nat) => Id(30 + k), Id(104))

  lemma TakingBack()
    ensures ReverseAllocation(HALF_PAID, TAKE_BACK) == Done(TAKEN_BACK)
  {
    TotalEmpty<Id>();
    var n := ReverseAllocation(HALF_PAID, TAKE_BACK).value;
    assert n.ar == TAKEN_BACK.ar && n.cash.receipts == TAKEN_BACK.cash.receipts;
    assert (map[])[Id(23) := 40] == map[Id(23) := 40];
    assert n.cash.allocations == TAKEN_BACK.cash.allocations;
  }

  lemma NothingLeft()
    ensures StuckOn(TAKEN_BACK, REVISED, PLAN, R, PAYMENT) && FreshKeys(TAKEN_BACK, REVISED)
  {
    UndrawnIsZero(TAKEN_BACK.inv.requests, R);
  }

  /** A plan was paid and the payment reversed in full; the contract drops the installment.  No
      money is left on the plan, yet the revision is refused. */
  lemma ReversedPaymentBlocksRevision()
    ensures Reachable(TAKEN_BACK) && StuckOn(TAKEN_BACK, REVISED, PLAN, R, PAYMENT)
    ensures Ingest(TAKEN_BACK, REVISED).Refused?
  {
    hide Reachable, Ingest, StuckOn, FreshKeys, CashInv, InvoiceInv, ContractInv, Transaction;
    AdjustmentCanSettle();
    TakingBack();
    TakenBackReachable();
    NothingLeft();
    assert Stuck(TAKEN_BACK, REVISED);
    ReachableSound(TAKEN_BACK);
    OneTerm(REVISED.terms[0]);
    RevisionAcceptedIff(TAKEN_BACK, REVISED);
  }

  lemma TakenBackReachable()
    requires Reachable(HALF_PAID) && ReverseAllocation(HALF_PAID, TAKE_BACK) == Done(TAKEN_BACK)
    ensures Reachable(TAKEN_BACK)
  {
    hide Reachable, ReverseAllocation;
    CashReaches(HALF_PAID, ReverseAllocationCmd(TAKE_BACK), TAKEN_BACK);
  }

  // ---------- carried-forward money on a receipt that is marked as used up

  const CAROL := Id(9)
  const EXCESS := Id(25)

  const HOLD_BACK := DifferenceInput(EXCESS, RECEIPT, Overpayment, 60, ALICE)
  const HELD_BACK := Difference(RECEIPT, Overpayment, 60, Held, Undecided, ALICE, NOBODY, NOBODY, 1)

  const SIXTY := AllocationInput(Id(26), RECEIPT, R, 60, ALICE, true, Id(27))

  /** One receipt of 100 with a difference of 60, and whatever was paid on the receivable. */
  function Held60(ar: Ledger, allocations: map<Id, Allocation>, left: int, status: ReceiptStatus, d: Difference): Books {
    CONFIRMED.(ar := ar, cash := CashTables(map[RECEIPT := Receipt(CUSTOMER, CURRENCY, 100, left, status)], allocations, map[EXCESS := d], map[]))
  }

  const HUNDRED := CONFIRMED.(cash := CashTables(map[RECEIPT := Receipt(CUSTOMER, CURRENCY, 100, 100, Available)], map[], map[], map[]))
  const APART := Held60(CONFIRMED.ar, map[], 40, Available, HELD_BACK)
  const USED_UP := Held60(HALF_PAID.ar, PAID_ROWS.allocations, 0, FullyAllocated, HELD_BACK)
  const DECIDED := Held60(HALF_PAID.ar, PAID_ROWS.allocations, 0, FullyAllocated,
    HELD_BACK.(status := ReviewPending, resolution := CarryForward, resolvedBy := BOB, version := 2))
  const CARRIED := Held60(HALF_PAID.ar, PAID_ROWS.allocations, 60, FullyAllocated,
    HELD_BACK.(status := Approved, resolution := CarryForward, resolvedBy := BOB, approvedBy := CAROL, version := 3))

  lemma HoldingBack()
    ensures CreateReceipt(CONFIRMED, RECEIPT, CUSTOMER, CURRENCY, 100) == Done(HUNDRED)
    ensures CreateDifference(HUNDRED, HOLD_BACK) == Done(APART)
  {
    assert CreateReceipt(CONFIRMED, RECEIPT, CUSTOMER, CURRENCY, 100).value.cash.receipts == HUNDRED.cash.receipts;
    var n := CreateDifference(HUNDRED, HOLD_BACK).value.cash;
    assert n.receipts == APART.cash.receipts && n.differences == APART.cash.differences;
  }

  lemma UsingUp()
    ensures ConfirmAllocation(APART, PAY) == Done(USED_UP)
  {
    var n := ConfirmAllocation(APART, PAY).value;
    assert n.ar == HALF_PAID.ar && n.cash.receipts == USED_UP.cash.receipts && n.cash.allocations == PAID_ROWS.allocations;
  }

  lemma CarryingForward()
    ensures ResolveDifference(USED_UP, EXCESS, 1, CarryForward, BOB) == Done(DECIDED)
    ensures ApproveDifference(DECIDED, EXCESS, 2, CAROL) == Done(CARRIED)
  {
    assert ResolveDifference(USED_UP, EXCESS, 1, CarryForward, BOB).value.cash.differences == DECIDED.cash.differences;
    var n := ApproveDifference(DECIDED, EXCESS, 2, CAROL).value.cash;
    assert n.differences == CARRIED.cash.differences && n.receipts == CARRIED.cash.receipts;
  }

  /** Money that was held as a difference returns to a receipt whose rest was allocated in the meantime: 60 is
      unallocated, the receivable has 160 open, and the allocation of 60 is refused. */
  lemma CarriedMoneyIsLocked()
    ensures Reachable(DECIDED) && Reachable(CARRIED) && Usable(DECIDED.cash) && !Usable(CARRIED.cash)
    ensures ReturnsToUsedUp(DECIDED, ApproveDifferenceCmd(EXCESS, 2, CAROL))
    ensures Fits(CARRIED, SIXTY) && FreshIds(CARRIED, SIXTY) && ConfirmAllocation(CARRIED, SIXTY).Refused?
  {
    hide Reachable;
    CarriedReachable();
    assert RECEIPT in CARRIED.cash.receipts && CARRIED.cash.receipts[RECEIPT].status == FullyAllocated;
  }

  lemma CarriedReachable()
    ensures Reachable(DECIDED) && Reachable(CARRIED)
  {
    hide Reachable, CreateReceipt, CreateDifference, ConfirmAllocation, ResolveDifference, ApproveDifference, Held60;
    ConfirmedReachable();
    HoldingBack();
    CashReaches(CONFIRMED, CreateReceiptCmd(RECEIPT, CUSTOMER, CURRENCY, 100), HUNDRED);
    CashReaches(HUNDRED, CreateDifferenceCmd(HOLD_BACK), APART);
    UsingUp();
    CashReaches(APART, ConfirmAllocationCmd(PAY), USED_UP);
    CarryingForward();
    CashReaches(USED_UP, ResolveDifferenceCmd(EXCESS, 1, CarryForward, BOB), DECIDED);
    CashReaches(DECIDED, ApproveDifferenceCmd(EXCESS, 2, CAROL), CARRIED);
  }
}
