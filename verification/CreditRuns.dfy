/** Credit facts over whole runs: facts follow settlement exactly while every step is safe. */
module CreditRuns {
  import opened Tables
  import opened Totals
  import opened Cash
  import opened Invoicing
  import opened Contracts
  import opened ContractProofs
  import opened Settlement
  import opened Histories

  /** A fact belongs to an allocation of its receivable, so the receivable cannot be deleted. */
  predicate Grounded(c: CashTables, e: Id)
    requires e in c.credits
  {
    && c.credits[e].allocation in c.allocations
    && c.allocations[c.credits[e].allocation].receivable == c.credits[e].receivable
  }

  ghost predicate CreditInv(c: CashTables) {
    && CreditsSound(c.credits)
    && (forall e {:trigger Grounded(c, e)} :: e in c.credits ==> Grounded(c, e))
  }

  /** The steps that keep facts and settlement of a receivable in step. */
  ghost predicate CreditSafe(b: Books, c: Cmd, r: Id) {
    match c
    case OfCash(ConfirmAllocationCmd(i)) => i.receivable == r && r in b.ar && b.ar[r].open == i.amount ==> i.eligible
    case OfCash(ReverseAllocationCmd(i)) =>
      i.allocation in b.cash.allocations && b.cash.allocations[i.allocation].receivable == r && r in b.ar && b.ar[r].open == 0
      ==> Closable(b.cash.credits, r, i.subscribed)
    case OfContracts(AdjustPlanCmd(i)) =>
      r in b.ar && b.ar[r].plan == i.id && i.amount.Some? ==> (b.ar[r].open == 0 <==> i.amount.value == b.ar[r].received + b.ar[r].writeOff)
    case _ => true
  }

  // ---------- the invariant

  lemma ConfirmGrounds(b: Books, i: AllocationInput)
    requires CreditInv(b.cash) && ConfirmAllocation(b, i).Done?
    ensures CreditInv(ConfirmAllocation(b, i).value.cash)
  {
    var n := ConfirmAllocation(b, i).value.cash;
    if n.credits != b.cash.credits { OpenFactsAfterInsert(b.cash.credits, i.event, n.credits[i.event], i.receivable); }
    forall e | e in n.credits ensures Grounded(n, e) { assert e in b.cash.credits ==> Grounded(b.cash, e); }
  }

  lemma ReverseGrounds(b: Books, i: ReversalInput)
    requires CreditInv(b.cash) && ReverseAllocation(b, i).Done?
    ensures CreditInv(ReverseAllocation(b, i).value.cash)
  {
    var n := ReverseAllocation(b, i).value.cash;
    var target := b.cash.allocations[i.allocation].receivable;
    if b.ar[target].open == 0 {
      CompensateEffect(b.cash.credits, target, i.allocation, i.subscribed, i.event, target);
    }
    forall e | e in n.credits ensures Grounded(n, e) { assert e in b.cash.credits ==> Grounded(b.cash, e); }
  }

  lemma DeliverGrounds(b: Books, e: Id, status: CreditStatus)
    requires CreditInv(b.cash) && DeliverCredit(b, e, status).Done?
    ensures CreditInv(DeliverCredit(b, e, status).value.cash)
  {
    var n := DeliverCredit(b, e, status).value.cash;
    assert forall k, x :: Undoes(n.credits, k, x) <==> Undoes(b.cash.credits, k, x);
    forall x | x in n.credits ensures Grounded(n, x) { assert Grounded(b.cash, x); }
  }

  lemma DifferenceStepsGround(b: Books, c: CashCmd)
    requires CreditInv(b.cash) && CashTransaction(b, c).Done?
    requires !c.ConfirmAllocationCmd? && !c.ReverseAllocationCmd? && !c.DeliverCreditCmd?
    ensures var n := CashTransaction(b, c).value;
      CreditInv(n.cash) && n.cash.credits == b.cash.credits && n.ar == b.ar
  {
    var n := CashTransaction(b, c).value;
    assert n.cash.credits == b.cash.credits && n.cash.allocations == b.cash.allocations;
    forall e | e in n.cash.credits ensures Grounded(n.cash, e) { assert Grounded(b.cash, e); }
  }

  lemma CashStepCredits(b: Books, c: CashCmd, r: Id)
    requires Inv(b) && CreditInv(b.cash) && CashTransaction(b, c).Done?
    ensures CreditInv(CashTransaction(b, c).value.cash)
    ensures CreditAgrees(b, r) ==> (CreditAgrees(CashTransaction(b, c).value, r) <==> CreditSafe(b, OfCash(c), r))
  {
    match c
    case ConfirmAllocationCmd(i) =>
      ConfirmGrounds(b, i);
      if CreditAgrees(b, r) { ConfirmKeepsCreditIff(b, i, r); }
    case ReverseAllocationCmd(i) =>
      ReverseGrounds(b, i);
      assert ReceivableBalanced(b.cash, b.ar, b.cash.allocations[i.allocation].receivable);
      if CreditAgrees(b, r) { ReverseKeepsCreditIff(b, i, r); }
    case DeliverCreditCmd(e, status) =>
      DeliverGrounds(b, e, status);
      if CreditAgrees(b, r) { DeliverKeepsCredit(b, e, status, r); }
    case _ => DifferenceStepsGround(b, c);
  }

  // ---------- contract steps

  lemma NoFactsWithoutReceivable(b: Books, r: Id)
    requires Inv(b) && CreditInv(b.cash) && r !in b.ar
    ensures OpenFacts(b.cash.credits, r) == {}
  {
    forall e | e in b.cash.credits ensures b.cash.credits[e].receivable != r {
      assert Grounded(b.cash, e) && AllocationSound(b.cash, b.ar, b.cash.credits[e].allocation);
    }
  }

  /** A revision never settles or unsettles a receivable. */
  lemma MergeKeepsSettlement(b: Books, prior: Id, e: ContractEvent, r: Id)
    requires Inv(b) && NormalTerms(e.terms) && r in MovedLedger(b, prior, e)
    ensures r in b.ar && (MovedLedger(b, prior, e)[r].open == 0 <==> b.ar[r].open == 0)
  {
    assert ReceivableBalanced(b.cash, b.ar, r) && ReceivableSound(b.con, b.ar, r) && PlanSound(b.con, b.ar, b.ar[r].plan);
    assert OwedOn(b.ar, r, b.ar[r].plan);
  }

  lemma IngestKeepsSettlement(b: Books, e: ContractEvent, r: Id)
    requires Inv(b) && Ingest(b, e).Done? && r in Ingest(b, e).value.ar
    ensures r in b.ar && (Ingest(b, e).value.ar[r].open == 0 <==> b.ar[r].open == 0)
  {
    if e.event !in b.con.events && e.contract in b.con.streams && SumTerms(e.terms) == e.amount {
      var prior := CurrentOf(b.con, e.contract).value;
      assert Ingest(b, e) == Merge(b, prior, e);
      MergeKeepsSettlement(b, prior, e, r);
    } else {
      assert Ingest(b, e).value.ar == b.ar;
    }
  }

  lemma AdjustSettles(b: Books, i: PlanInput, r: Id)
    requires ContractInv(b.con, b.ar) && AdjustPlan(b, i).Done? && r in b.ar
    ensures var n := AdjustPlan(b, i).value;
      r in n.ar && (n.ar[r].open == 0 <==> if b.ar[r].plan == i.id then i.amount.value == b.ar[r].received + b.ar[r].writeOff else b.ar[r].open == 0)
  {
    assert ReceivableSound(b.con, b.ar, r);
    assert OwedOn(b.ar, r, b.ar[r].plan);
  }

  lemma ContractStepCredits(b: Books, c: ContractCmd, r: Id)
    requires Inv(b) && CreditInv(b.cash) && ContractTransaction(b, c).Done? && CreditAgrees(b, r)
    ensures CreditAgrees(ContractTransaction(b, c).value, r) <==> CreditSafe(b, OfContracts(c), r)
  {
    var n := ContractTransaction(b, c).value;
    if r !in b.ar { NoFactsWithoutReceivable(b, r); }
    match c
    case IngestCmd(e) =>
      IngestFrame(b, e);
      if r in n.ar { IngestKeepsSettlement(b, e, r); }
    case AdjustPlanCmd(i) => if r in b.ar { AdjustSettles(b, i, r); }
    case _ =>
  }

  // ---------- runs

  lemma StepCredits(b: Books, c: Cmd, r: Id)
    requires Inv(b) && CreditInv(b.cash)
    ensures CreditInv(Step(b, c).cash)
    ensures CreditAgrees(b, r) && Transaction(b, c).Done? ==> (CreditAgrees(Step(b, c), r) <==> CreditSafe(b, c, r))
  {
    if Transaction(b, c).Done? {
      match c
      case OfCash(x) => CashStepCredits(b, x, r);
      case OfInvoices(x) => InvoiceStepFrame(b, x);
      case OfContracts(x) =>
        if x.IngestCmd? { IngestFrame(b, x.event); } else { PlanStepFrame(b, x); }
        if CreditAgrees(b, r) { ContractStepCredits(b, x, r); }
    }
  }

  /** In every run a completed fact is compensated at most once. */
  lemma {:induction false} NeverCompensatedTwice(run: Run, k: nat)
    requires IsRun(run) && k < |run.states|
    ensures CreditInv(run.states[k].cash)
  {
    hide Transaction, Inv;
    if k > 0 {
      NeverCompensatedTwice(run, k - 1);
      RunSound(run, k - 1);
      assert Follows(run, k - 1);
      StepCredits(run.states[k - 1], run.cmds[k - 1], NOBODY);
    }
  }

  ghost predicate SafeAt(run: Run, j: nat, r: Id)
    requires IsRun(run) && j < |run.cmds|
  {
    Transaction(run.states[j], run.cmds[j]).Done? ==> CreditSafe(run.states[j], run.cmds[j], r)
  }

  /** Every accepted step up to the k-th is safe for the receivable. */
  ghost predicate SafeUntil(run: Run, k: nat, r: Id)
    requires IsRun(run) && k < |run.states|
  {
    forall j {:trigger SafeAt(run, j, r)} :: 0 <= j < k ==> SafeAt(run, j, r)
  }

  /** One open fact when settled, none otherwise, in every run of safe steps. */
  lemma {:induction false} FactsFollowSettlement(run: Run, k: nat, r: Id)
    requires IsRun(run) && k < |run.states| && SafeUntil(run, k, r)
    ensures CreditAgrees(run.states[k], r)
  {
    hide Transaction, CreditSafe, Inv;
    if k > 0 {
      assert SafeAt(run, k - 1, r);
      FactsFollowSettlement(run, k - 1, r);
      RunSound(run, k - 1);
      NeverCompensatedTwice(run, k - 1);
      assert Follows(run, k - 1);
      StepCredits(run.states[k - 1], run.cmds[k - 1], r);
    }
  }
}
