/** When a plan may be created, confirmed or adjusted, and what it then is.
    internal/service: plan_coverage.go, manual_plan.go, service.go (ConfirmPlan) */
module PlanOutcomes {
  import opened Tables
  import opened Totals
  import opened Invoicing
  import opened Contracts
  import opened ContractProofs
  import opened Settlement
  import opened Revisions

  /** The plans may leave this much of the contract open: the gap is at most `gapLimit` percent of it. */
  predicate GapAllowed(contract: int, total: int, policy: Policy) {
    ((contract - total) * 100) as real <= policy.gapLimit * contract as real
  }

  /** The plan falls by at most `dropLimit` percent of what it was. */
  predicate DropAllowed(previous: int, next: int, policy: Policy) {
    next < previous ==> ((previous - next) * 100) as real <= policy.dropLimit * previous as real
  }

  /** With the others, the plan stays within the contract, and within both limits unless the user may override. */
  predicate Covered(contract: int, others: int, previous: Option<int>, next: int, policy: Policy) {
    && others + next <= contract
    && (policy.override || (GapAllowed(contract, others + next, policy) && (previous.Some? ==> DropAllowed(previous.value, next, policy))))
  }

  lemma Quotient(x: real, y: real, limit: real)
    requires 0.0 < y
    ensures x / y <= limit <==> x <= limit * y
  {
    assert x == x / y * y;
    if x / y <= limit { Scaled(x / y, limit, y); }
    if limit < x / y { ScaledStrictly(limit, x / y, y); }
  }

  lemma Scaled(a: real, b: real, y: real)
    requires a <= b && 0.0 < y
    ensures a * y <= b * y
  {
  }

  lemma ScaledStrictly(a: real, b: real, y: real)
    requires a < b && 0.0 < y
    ensures a * y < b * y
  {
  }

  lemma PercentIff(part: int, whole: int, limit: real)
    requires 0 < whole
    ensures Percent(part, whole) <= limit <==> (part * 100) as real <= limit * whole as real
  {
    Quotient((part * 100) as real, whole as real, limit);
  }

  lemma CoverageIff(con: ContractTables, s: Id, others: int, next: int, previous: Option<int>, policy: Policy)
    requires s in con.snapshots && 0 < con.snapshots[s].amount && (previous.Some? ==> 0 < previous.value)
    ensures RequireCoverage(con, s, others, next, previous, policy) == None <==>
      con.snapshots[s].status == Effective && Covered(con.snapshots[s].amount, others, previous, next, policy)
  {
    hide Percent;
    var contract, total := con.snapshots[s].amount, others + next;
    if total <= contract {
      PercentIff(contract - total, contract, policy.gapLimit);
      if previous.Some? { PercentIff(previous.value - next, previous.value, policy.dropLimit); }
    }
  }

  // ---------- a new plan

  /** A manual plan is accepted if and only if it is covered under an effective snapshot and its place and id are
      free; it is then pending with exactly the given installment, date and amount. */
  lemma ManualPlanOutcome(b: Books, i: ManualInput)
    requires ContractInv(b.con, b.ar)
    ensures CreateManualPlan(b, i).Done? <==>
      && 1 <= i.installment && 0 < i.amount && i.snapshot in b.con.snapshots && b.con.snapshots[i.snapshot].status == Effective
      && Covered(b.con.snapshots[i.snapshot].amount, PlanTotal(b.con.plans, i.snapshot), None, i.amount, i.policy)
      && i.id !in b.con.plans
      && forall p :: p in b.con.plans && b.con.plans[p].snapshot == i.snapshot ==> b.con.plans[p].installment != i.installment
    ensures CreateManualPlan(b, i).Done? ==>
      CreateManualPlan(b, i).value == b.(con := b.con.(plans :=
        b.con.plans[i.id := Plan(i.snapshot, i.installment, i.due, i.amount, true, PendingConfirmation, 1)]))
  {
    hide RequireCoverage, Covered;
    if i.snapshot in b.con.snapshots {
      assert SnapshotSound(b.con, i.snapshot);
      CoverageIff(b.con, i.snapshot, PlanTotal(b.con.plans, i.snapshot), i.amount, None, i.policy);
    } else {
      NoSnapshot(b.con, i.snapshot, PlanTotal(b.con.plans, i.snapshot), i.amount, None, i.policy);
    }
    if p :| p in b.con.plans && b.con.plans[p].snapshot == i.snapshot && b.con.plans[p].installment == i.installment {
      assert Taken(b.con.plans, p, i.snapshot, i.installment);
    } else {
      forall p ensures !Taken(b.con.plans, p, i.snapshot, i.installment) {}
    }
  }

  lemma NoSnapshot(con: ContractTables, s: Id, others: int, next: int, previous: Option<int>, policy: Policy)
    requires s !in con.snapshots
    ensures RequireCoverage(con, s, others, next, previous, policy).Some?
  {
  }

  // ---------- confirmation

  function Chosen<T>(given: Option<T>, current: T): T {
    if given.Some? then given.value else current
  }

  /** The total of the other plans under the plan's snapshot. */
  ghost function Others(con: ContractTables, p: Id): int
    requires p in con.plans
  {
    PlanTotal(con.plans, con.plans[p].snapshot) - con.plans[p].amount
  }

  /** A pending plan is confirmed if and only if the version is current, the chosen amount is positive, a change
      has a reason, the plan stays covered and the receivable id is unused. */
  lemma ConfirmationAcceptedIff(b: Books, i: PlanInput, receivable: Id)
    requires ContractInv(b.con, b.ar)
    ensures ConfirmPlan(b, i, receivable).Done? <==>
      && 1 <= i.version && i.id in b.con.plans && b.con.plans[i.id].status == PendingConfirmation && b.con.plans[i.id].version == i.version
      && var row := b.con.plans[i.id]; var amount := Chosen(i.amount, row.amount);
      && row.snapshot in b.con.snapshots && 0 < amount && receivable !in b.ar
      && (amount != row.amount || Chosen(i.due, row.due) != row.due ==> i.hasReason)
      && Covered(b.con.snapshots[row.snapshot].amount, Others(b.con, i.id), Some(row.amount), amount, i.policy)
  {
    hide RequireCoverage, Covered;
    if i.id in b.con.plans {
      var row := b.con.plans[i.id];
      assert PlanSound(b.con, b.ar, i.id) && SnapshotSound(b.con, row.snapshot);
      CoverageIff(b.con, row.snapshot, Others(b.con, i.id), Chosen(i.amount, row.amount), Some(row.amount), i.policy);
    }
  }

  /** A confirmed plan has the chosen amount and date, and a receivable that owes all of it to the customer of the
      snapshot. */
  lemma ConfirmationOutcome(b: Books, i: PlanInput, receivable: Id)
    requires ContractInv(b.con, b.ar) && ConfirmPlan(b, i, receivable).Done?
    ensures i.id in b.con.plans && b.con.plans[i.id].snapshot in b.con.snapshots
    ensures var row := b.con.plans[i.id]; var s := b.con.snapshots[row.snapshot];
      var due, amount := Chosen(i.due, row.due), Chosen(i.amount, row.amount);
      ConfirmPlan(b, i, receivable).value == b.(
        con := b.con.(plans := b.con.plans[i.id := row.(due := due, amount := amount, status := PlanConfirmed, version := row.version + 1)]),
        ar := b.ar[receivable := Receivable(i.id, row.snapshot, s.customer, s.currency, due, amount, amount, 0, 0, 0, Unpaid, NotInvoiced)])
  {
    hide RequireCoverage;
  }

  // ---------- adjustment

  /** A confirmed plan is adjusted if and only if version, reason, date and amount are given, the amount covers what
      was received or written off and what is invoiced or reserved, and the plan stays covered. */
  lemma AdjustmentAcceptedIff(b: Books, i: PlanInput, r: Id)
    requires ContractInv(b.con, b.ar) && OwedOn(b.ar, r, i.id)
    ensures AdjustPlan(b, i).Done? <==>
      && 1 <= i.version && i.hasReason && i.due.Some? && i.amount.Some? && 0 < i.amount.value
      && i.id in b.con.plans && b.con.plans[i.id].status == PlanConfirmed && b.con.plans[i.id].version == i.version
      && b.ar[r].received + b.ar[r].writeOff <= i.amount.value
      && b.ar[r].invoiced + ReservedTotal(b.inv.requests, r) <= i.amount.value
      && b.con.plans[i.id].snapshot in b.con.snapshots
      && Covered(b.con.snapshots[b.con.plans[i.id].snapshot].amount, Others(b.con, i.id), Some(b.con.plans[i.id].amount), i.amount.value, i.policy)
  {
    hide RequireCoverage, Covered;
    OneOwed(b, i.id, r);
    var row := b.con.plans[i.id];
    assert PlanSound(b.con, b.ar, i.id) && SnapshotSound(b.con, row.snapshot);
    if i.amount.Some? { CoverageIff(b.con, row.snapshot, Others(b.con, i.id), i.amount.value, Some(row.amount), i.policy); }
  }

  lemma OneOwed(b: Books, p: Id, r: Id)
    requires ContractInv(b.con, b.ar) && OwedOn(b.ar, r, p)
    ensures ReceivableOf(b.ar, p) == Some(r) && p in b.con.plans
  {
    assert ReceivableSound(b.con, b.ar, r);
    assert OwedOn(b.ar, ReceivableOf(b.ar, p).value, p);
  }

  /** An adjusted plan and its receivable have the given amount and date; what was received stays, the rest is open. */
  lemma AdjustmentOutcome(b: Books, i: PlanInput, r: Id)
    requires ContractInv(b.con, b.ar) && OwedOn(b.ar, r, i.id) && AdjustPlan(b, i).Done?
    ensures i.id in b.con.plans && i.due.Some? && i.amount.Some?
    ensures var n := AdjustPlan(b, i).value; var row := b.con.plans[i.id];
      && n == b.(con := b.con.(plans := n.con.plans), ar := n.ar)
      && n.con.plans == b.con.plans[i.id := row.(due := i.due.value, amount := i.amount.value, version := row.version + 1)]
      && r in n.ar && n.ar == b.ar[r := n.ar[r]]
      && n.ar[r] == b.ar[r].(due := i.due.value, original := i.amount.value, open := n.ar[r].open, collection := n.ar[r].collection)
      && n.ar[r].open == i.amount.value - b.ar[r].received - b.ar[r].writeOff
      && (n.ar[r].collection == Settled <==> n.ar[r].open == 0)
  {
    hide RequireCoverage;
    OneOwed(b, i.id, r);
  }

  // ---------- local baselines

  /** A baseline is registered if and only if its one to a hundred terms are positive, have distinct installments
      and add up to its amount, the customer is known and the number and id are free. */
  lemma BaselineAcceptedIff(b: Books, i: NativeInput)
    requires ContractInv(b.con, b.ar) && 0 < i.amount
    requires forall k: nat :: k < |i.terms| ==> i.ids(k) !in b.con.plans
    requires forall j: nat, k: nat :: j < k < |i.terms| ==> i.ids(j) != i.ids(k)
    ensures CreateNative(b, i).Done? <==>
      && 1 <= |i.terms| <= 100 && NormalTerms(i.terms) && SumTerms(i.terms) == i.amount && i.known && i.numbered && i.id !in b.con.snapshots
    ensures CreateNative(b, i).Done? ==>
      var n := CreateNative(b, i).value;
      && n == b.(con := b.con.(snapshots := b.con.snapshots[i.id := Snapshot(None, 1, i.amount, i.customer, i.currency, Effective)], plans := n.con.plans))
      && (forall k: nat :: k < |i.terms| ==> PlannedAs(n.con.plans, i.ids(k), i.id, i.terms[k]))
  {
    if NormalTerms(i.terms) && i.id !in b.con.snapshots {
      forall k, p | 0 <= k < |i.terms| ensures !Taken(b.con.plans, p, i.id, i.terms[k].installment) {
        if p in b.con.plans { assert PlanSound(b.con, b.ar, p); }
      }
      InsertSucceeds(b.con.plans, i.id, i.terms, i.ids);
      InsertedRows(b.con.plans, i.id, i.terms, i.ids);
    }
  }

  /** A baseline is voided if and only if it is effective at that version, no plan of it was confirmed or dunned and
      no invoice was asked for; that it has no receivable follows. */
  lemma VoidAcceptedIff(b: Books, s: Id, version: int)
    requires ContractInv(b.con, b.ar)
    ensures VoidNative(b, s, version).Done? <==>
      && 1 <= version && s in b.con.snapshots && b.con.snapshots[s].contract == None
      && b.con.snapshots[s].status == Effective && b.con.snapshots[s].version == version
      && (forall p :: p in b.con.plans && b.con.plans[p].snapshot == s ==> b.con.plans[p].status != PlanConfirmed && p !in b.con.dunned)
      && (forall q :: q in b.inv.requests ==> b.inv.requests[q].snapshot != s)
    ensures VoidNative(b, s, version).Done? ==>
      var n := VoidNative(b, s, version).value;
      && n.con.snapshots == b.con.snapshots[s := b.con.snapshots[s].(status := Voided, version := version + 1)]
      && n.con.plans.Keys == b.con.plans.Keys
      && (forall p :: p in b.con.plans && b.con.plans[p].snapshot == s ==>
            n.con.plans[p] == b.con.plans[p].(status := PlanCancelled, version := b.con.plans[p].version + 1))
      && (forall p :: p in b.con.plans && b.con.plans[p].snapshot != s ==> n.con.plans[p] == b.con.plans[p])
  {
    forall p | p in b.con.plans ensures PlanSound(b.con, b.ar, p) {}
    forall r | r in b.ar ensures OwedOn(b.ar, r, b.ar[r].plan) && ReceivableSound(b.con, b.ar, r) {}
  }
}
