/** The promises of the service, stated of every run from an empty store. */
module Guarantees {
  import opened Tables
  import opened Totals
  import opened Billing
  import opened Cash
  import opened Invoicing
  import opened InvoicingProofs
  import opened Contracts
  import opened ContractProofs
  import opened Settlement
  import opened Histories

  // ---------- the money ledger

  lemma NetNonNegative(c: CashTables, ar: Ledger, side: Side)
    requires CashInv(c, ar)
    ensures 0 <= NetOf(c.allocations, side)
  {
    var parts := map a | a in c.allocations && Touches(c.allocations[a], side) :: NetPart(c.allocations[a]);
    forall a | a in parts ensures 0 <= parts[a] { assert AllocationSound(c, ar, a); }
    TotalNonNegative(parts);
  }

  lemma HeldNonNegative(c: CashTables, ar: Ledger, p: Id)
    requires CashInv(c, ar)
    ensures 0 <= HeldOfReceipt(c.differences, p)
  {
    var parts := map d | d in c.differences && HoldsFor(c.differences[d], p) :: c.differences[d].amount;
    forall d | d in parts ensures 0 <= parts[d] { assert DifferenceSound(c, d); }
    TotalNonNegative(parts);
  }

  /** Receipt side of the conservation law. */
  lemma ReceiptsConserved(run: Run, k: nat, p: Id)
    requires IsRun(run) && k < |run.states| && p in run.states[k].cash.receipts
    ensures var c := run.states[k].cash;
      && c.receipts[p].amount
         == c.receipts[p].unallocated + NetOf(c.allocations, OfReceipt(p)) + HeldOfReceipt(c.differences, p)
      && 0 <= c.receipts[p].unallocated && 0 <= NetOf(c.allocations, OfReceipt(p)) && 0 <= HeldOfReceipt(c.differences, p)
  {
    RunSound(run, k);
    var b := run.states[k];
    assert ReceiptBalanced(b.cash, p);
    NetNonNegative(b.cash, b.ar, OfReceipt(p));
    HeldNonNegative(b.cash, b.ar, p);
  }

  /** Receivable side of the conservation law, and the collection status read off the balances. */
  lemma ReceivablesConserved(run: Run, k: nat, r: Id)
    requires IsRun(run) && k < |run.states| && r in run.states[k].ar
    ensures var b := run.states[k];
      && b.ar[r].original == b.ar[r].open + b.ar[r].received + b.ar[r].writeOff
      && b.ar[r].received == NetOf(b.cash.allocations, OfReceivable(r))
      && 0 <= b.ar[r].open && 0 <= b.ar[r].received && 0 <= b.ar[r].writeOff
      && (b.ar[r].collection == Settled <==> b.ar[r].open == 0)
      && (b.ar[r].collection == PartiallySettled <==> b.ar[r].open != 0 && b.ar[r].received != 0)
  {
    RunSound(run, k);
    assert ReceivableBalanced(run.states[k].cash, run.states[k].ar, r);
  }

  /** Exactly when a reversal is accepted.  Neither the negative-received exit nor the exits
      for missing receipt or receivable rows take part: no reachable store triggers them. */
  lemma ReversalAcceptedIff(b: Books, i: ReversalInput)
    requires Inv(b)
    ensures ReverseAllocation(b, i).Done? <==>
      && 0 < i.amount && i.allocation in b.cash.allocations
      && var a := b.cash.allocations[i.allocation];
      && a.receivable in b.ar && i.amount <= NetPart(a) && a.confirmedBy != i.user && i.id !in a.reversals
      && (b.ar[a.receivable].open == 0 ==> CompensateCredit(b.cash.credits, a.receivable, i.allocation, i.subscribed, i.event).Done?)
  {
    if i.allocation in b.cash.allocations {
      assert AllocationSound(b.cash, b.ar, i.allocation);
      RemainderIsReceived(b.cash, b.ar, i.allocation);
    }
  }

  // ---------- requests, attempts and invoices in lock-step

  lemma LockStep(run: Run, k: nat, q: Id)
    requires IsRun(run) && k < |run.states| && q in run.states[k].inv.requests
    ensures var t := run.states[k].inv; var status := t.requests[q].status;
      && ((exists a :: LiveFor(t.attempts, a, q)) <==> status in {IssuePending, IssueUnknown})
      && (forall a :: LiveFor(t.attempts, a, q) ==> LastAttempt(t.attempts, q) == Some(a))
      && ((exists i :: BlueFor(t.invoices, i, q)) <==> status == Issued)
      && (forall i, j :: BlueFor(t.invoices, i, q) && BlueFor(t.invoices, j, q) ==> i == j)
      && (forall r :: r in t.requests[q].lines ==> t.requests[q].lines[r].status == LineStatus(status))
  {
    RunSound(run, k);
    var b := run.states[k];
    var t := b.inv;
    assert RequestSound(t, b.ar, q);
    forall a | LiveFor(t.attempts, a, q) ensures LastAttempt(t.attempts, q) == Some(a) && t.requests[q].status in {IssuePending, IssueUnknown} {
      OneLive(t, b.ar, q, a);
    }
    forall i | BlueFor(t.invoices, i, q) ensures t.requests[q].status == Issued && forall j :: BlueFor(t.invoices, j, q) ==> i == j {
      assert InvoiceSound(t, i);
    }
  }

  /** Stored invoiced amount, capacity, and at most one reversal per line over all red flushes. */
  lemma InvoicedIsStanding(run: Run, k: nat, r: Id)
    requires IsRun(run) && k < |run.states| && r in run.states[k].ar
    ensures var b := run.states[k];
      && b.ar[r].invoiced == InvoicedTotal(b.inv.requests, r)
      && b.ar[r].invoiced + ReservedTotal(b.inv.requests, r) <= b.ar[r].original
      && (forall q :: q in b.inv.requests && r in b.inv.requests[q].lines ==> |b.inv.requests[q].lines[r].reversals| <= 1)
  {
    RunSound(run, k);
    var b := run.states[k];
    assert CapacitySound(b.inv.requests, b.ar, r);
    forall q | q in b.inv.requests && r in b.inv.requests[q].lines ensures |b.inv.requests[q].lines[r].reversals| <= 1 {
      assert RequestSound(b.inv, b.ar, q) && LineSound(b.inv.redRequests, b.inv.requests[q], r);
      AtMostOneKey(b.inv.requests[q].lines[r].reversals);
    }
  }

  lemma AtMostOneKey(m: map<Id, int>)
    requires forall k, j :: k in m && j in m ==> k == j
    ensures |m| <= 1
  {
    if m.Keys != {} {
      var k :| k in m.Keys;
      assert m.Keys == {k};
    }
  }

  /** Line details and header of every stored invoice agree, with the right sign, exactly for
      invoices with lines that are request-signed, and for the reds of request-signed ones.  Only
      paper invoices have no lines. */
  lemma InvoiceFaceVerifies(run: Run, k: nat, i: Id)
    requires IsRun(run) && k < |run.states| && i in run.states[k].inv.invoices
    ensures var t := run.states[k].inv; var row := t.invoices[i];
      && (row.redOf == None ==> 0 < row.bill.gross && (Verifies(row.bill) <==> row.bill.lines != []))
      && (row.redOf.Some? ==>
          && row.redOf.value in t.invoices
          && (Verifies(row.bill) <==> 0 < t.invoices[row.redOf.value].bill.gross)
          && (t.invoices[row.redOf.value].redOf == None ==> Verifies(row.bill) && row.bill.gross < 0))
  {
    RunSound(run, k);
    var b := run.states[k];
    var t := b.inv;
    assert InvoiceSound(t, i);
    var q := t.invoices[i].request;
    var bill := t.requests[q].bill;
    assert RequestSound(t, b.ar, q);
    BlueVerifies(bill);
    if t.invoices[i].redOf.Some? {
      var o := t.invoices[i].redOf.value;
      assert InvoiceSound(t, o);
      var original := t.invoices[o].bill;
      RedVerifiesIff(bill, original, !HeaderOf(original, bill, false));
    }
  }

  // ---------- a cancellation is final

  /** An issue command of some attempt of the request. */
  predicate CommandOf(t: InvoiceTables, c: Id, q: Id)
    requires c in t.commands
  {
    !t.commands[c].redFlush && t.commands[c].attempt in t.attempts && t.attempts[t.commands[c].attempt].request == q
  }

  /** No invoice, no live attempt, nothing reserved, and the retry of tax dead letters is refused.  The
      general `RetryOutbox` still requeues a dead command; its reports then meet a cancelled request. */
  ghost predicate Dead(b: Books, q: Id)
    requires q in b.inv.requests
  {
    && b.inv.requests[q].status == Cancelled
    && (forall r :: r in b.inv.requests[q].lines ==> b.inv.requests[q].lines[r].status == Released)
    && (forall i :: i in b.inv.invoices ==> b.inv.invoices[i].request != q)
    && (forall a :: !LiveFor(b.inv.attempts, a, q))
    && (forall c :: c in b.inv.commands && CommandOf(b.inv, c, q) ==> RetryDeadLetter(b, c).Refused?)
  }

  lemma CancelledIsDead(b: Books, q: Id)
    requires InvoiceInv(b.inv, b.ar) && q in b.inv.requests && b.inv.requests[q].status == Cancelled
    ensures Dead(b, q)
  {
    assert RequestSound(b.inv, b.ar, q);
    forall i | i in b.inv.invoices ensures b.inv.invoices[i].request != q { assert InvoiceSound(b.inv, i); }
    forall a ensures !LiveFor(b.inv.attempts, a, q) { NothingLive(b.inv, b.ar, q, a); }
    forall c | c in b.inv.commands && CommandOf(b.inv, c, q) ensures RetryDeadLetter(b, c).Refused? {
      assert !LiveFor(b.inv.attempts, b.inv.commands[c].attempt, q);
    }
  }

  predicate Cancels(c: Cmd, q: Id) {
    c.OfInvoices? && c.inv.CancelCmd? && c.inv.request == q
  }

  lemma CancelResult(b: Books, q: Id, version: int, user: Id)
    requires CancelRequest(b, q, version, user).Done?
    ensures var n := CancelRequest(b, q, version, user).value.inv; q in n.requests && n.requests[q].status == Cancelled
  {
  }

  lemma CancelStep(b: Books, c: Cmd, q: Id)
    requires Cancels(c, q) && Transaction(b, c).Done?
    ensures q in Step(b, c).inv.requests && Step(b, c).inv.requests[q].status == Cancelled
  {
    CancelResult(b, q, c.inv.version, c.inv.user);
    assert InvoiceTransaction(b, c.inv) == CancelRequest(b, q, c.inv.version, c.inv.user);
  }

  /** After a cancellation no later step of any run gives the request an invoice or a live
      attempt, or touches its reservations again, and the dead-letter retry of the tax path
      is refused for every one of its commands. */
  lemma CancelIsFinal(run: Run, j: nat, k: nat, q: Id)
    requires IsRun(run) && j < k < |run.states| && Cancels(run.cmds[j], q) && Transaction(run.states[j], run.cmds[j]).Done?
    ensures q in run.states[j + 1].inv.requests && q in run.states[k].inv.requests
    ensures run.states[k].inv.requests[q] == run.states[j + 1].inv.requests[q]
    ensures Dead(run.states[k], q)
  {
    hide Transaction;
    var b, m := run.states[k], run.states[j + 1];
    assert Follows(run, j);
    CancelStep(run.states[j], run.cmds[j], q);
    RunLater(run, j + 1, k);
    assert RequestMoves(m.inv, b.inv, q);
    RunSound(run, k);
    CancelledIsDead(b, q);
  }

  // ---------- contract versions and plan totals

  /** In every state of every run a contract has exactly one effective snapshot, at the
      version of its stream; its plans sit under that snapshot, and so do their receivables. */
  lemma OneEffectiveSnapshot(run: Run, k: nat, c: Id)
    requires IsRun(run) && k < |run.states| && c in run.states[k].con.streams
    ensures var con, ar := run.states[k].con, run.states[k].ar;
      && (exists s :: EffectiveFor(con, s, c))
      && (forall s, x :: EffectiveFor(con, s, c) && EffectiveFor(con, x, c) ==> s == x)
      && (forall s :: EffectiveFor(con, s, c) ==> con.snapshots[s].version == con.streams[c])
      && (forall p :: p in con.plans ==>
            && con.plans[p].snapshot in con.snapshots
            && con.snapshots[con.plans[p].snapshot].status == (if con.plans[p].status == PlanCancelled then Voided else Effective))
      && (forall r :: r in ar ==> ar[r].plan in con.plans && con.plans[ar[r].plan].snapshot == ar[r].snapshot)
  {
    RunSound(run, k);
    var con, ar := run.states[k].con, run.states[k].ar;
    assert StreamSound(con, c);
    forall s, x | EffectiveFor(con, s, c) && EffectiveFor(con, x, c) ensures s == x { assert SnapshotSound(con, s) && SnapshotSound(con, x); }
    forall s | EffectiveFor(con, s, c) ensures con.snapshots[s].version == con.streams[c] { assert SnapshotSound(con, s); }
    forall p | p in con.plans ensures con.plans[p].snapshot in con.snapshots
      && con.snapshots[con.plans[p].snapshot].status == (if con.plans[p].status == PlanCancelled then Voided else Effective) {
      assert PlanSound(con, ar, p);
    }
    forall r | r in ar ensures ar[r].plan in con.plans && con.plans[ar[r].plan].snapshot == ar[r].snapshot { assert ReceivableSound(con, ar, r); }
  }

  /** Versions never fall, whatever the order of events. */
  lemma VersionsRise(run: Run, j: nat, k: nat, c: Id)
    requires IsRun(run) && j <= k < |run.states| && c in run.states[j].con.streams
    ensures c in run.states[k].con.streams && run.states[j].con.streams[c] <= run.states[k].con.streams[c]
  {
    RunLater(run, j, k);
    assert StreamMoves(run.states[j].con, run.states[k].con, c);
  }

  /** A voided local baseline stays voided, with no receivable and nothing but cancelled plans. */
  lemma VoidedStaysEmpty(run: Run, j: nat, k: nat, s: Id)
    requires IsRun(run) && j <= k < |run.states| && s in run.states[j].con.snapshots && run.states[j].con.snapshots[s].status == Voided
    ensures var con, ar := run.states[k].con, run.states[k].ar;
      && s in con.snapshots && con.snapshots[s] == run.states[j].con.snapshots[s]
      && (forall p :: p in con.plans && con.plans[p].snapshot == s ==> con.plans[p].status == PlanCancelled)
      && (forall r :: r in ar ==> ar[r].snapshot != s)
  {
    RunLater(run, j, k);
    RunSound(run, k);
    assert SnapshotMoves(run.states[j].con, run.states[k].con, s);
    VoidedIsEmpty(run.states[k], s);
  }

  lemma VoidedIsEmpty(b: Books, s: Id)
    requires Inv(b) && s in b.con.snapshots && b.con.snapshots[s].status == Voided
    ensures forall p :: p in b.con.plans && b.con.plans[p].snapshot == s ==> b.con.plans[p].status == PlanCancelled
    ensures forall r :: r in b.ar ==> b.ar[r].snapshot != s
  {
    forall p | p in b.con.plans && b.con.plans[p].snapshot == s ensures b.con.plans[p].status == PlanCancelled {
      assert PlanSound(b.con, b.ar, p);
    }
    forall r | r in b.ar ensures b.ar[r].snapshot != s {
      assert ReceivableSound(b.con, b.ar, r) && PlanSound(b.con, b.ar, b.ar[r].plan) && OwedOn(b.ar, r, b.ar[r].plan);
    }
  }

  /** Creating, confirming or adjusting a plan leaves the total within the contract amount,
      and without the override within the gap threshold below it. */
  lemma PlanEditStaysWithin(b: Books, c: ContractCmd)
    requires Inv(b) && ContractTransaction(b, c).Done? && (c.CreatePlanCmd? || c.ConfirmPlanCmd? || c.AdjustPlanCmd?)
    ensures var n := ContractTransaction(b, c).value.con;
      var p, policy := if c.CreatePlanCmd? then c.manual.id else c.plan.id, if c.CreatePlanCmd? then c.manual.policy else c.plan.policy;
      && p in n.plans && n.plans[p].snapshot in n.snapshots
      && var s := n.plans[p].snapshot; var amount := n.snapshots[s].amount;
      && PlanTotal(n.plans, s) <= amount
      && (policy.override || Percent(amount - PlanTotal(n.plans, s), amount) <= policy.gapLimit)
  {
    var n := ContractTransaction(b, c).value.con;
    var p := if c.CreatePlanCmd? then c.manual.id else c.plan.id;
    PlanTotalAfter(b.con.plans, p, n.plans[p], n.plans[p].snapshot);
  }

  predicate SameTotal(con: ContractTables, n: ContractTables, s: Id, before: int, after: int)
    requires s in n.snapshots
  {
    s in con.snapshots && n.snapshots[s].amount == con.snapshots[s].amount && after == before
  }

  predicate HeldByEvent(con: ContractTables, e: ContractEvent) {
    HeldFor(con, e.hold, e.snapshot) && con.holds[e.hold].event == e.event && con.holds[e.hold].installments != {}
  }

  lemma IngestTotal(b: Books, e: ContractEvent, s: Id)
    requires Inv(b) && Ingest(b, e).Done?
    requires var n := Ingest(b, e).value.con; s in n.snapshots && n.snapshots[s].status == Effective
    ensures var n := Ingest(b, e).value.con;
      || PlanTotal(n.plans, s) <= n.snapshots[s].amount
      || SameTotal(b.con, n, s, PlanTotal(b.con.plans, s), PlanTotal(n.plans, s))
      || (s == e.snapshot && s !in b.con.snapshots && HeldByEvent(n, e))
  {
    if e.event !in b.con.events {
      if e.contract !in b.con.streams {
        FirstVersionKeeps(b, e);
        InsertedRows(b.con.plans, e.snapshot, e.terms, e.ids);
        if s != e.snapshot { PlanTotalSame(b.con.plans, Ingest(b, e).value.con.plans, s); }
      } else if SumTerms(e.terms) == e.amount {
        var prior := CurrentOf(b.con, e.contract).value;
        MergeTotal(b, prior, e, s);
      }
    }
  }

  lemma MergeTotal(b: Books, prior: Id, e: ContractEvent, s: Id)
    requires ContractInv(b.con, b.ar) && prior in b.con.snapshots && Merge(b, prior, e).Done?
    requires NormalTerms(e.terms) && SumTerms(e.terms) == e.amount && e.event !in b.con.events
    requires var n := Merge(b, prior, e).value.con; s in n.snapshots && n.snapshots[s].status == Effective
    ensures var n := Merge(b, prior, e).value.con;
      || PlanTotal(n.plans, s) <= n.snapshots[s].amount
      || SameTotal(b.con, n, s, PlanTotal(b.con.plans, s), PlanTotal(n.plans, s))
      || (s == e.snapshot && s !in b.con.snapshots && HeldByEvent(n, e))
  {
    if s != e.snapshot {
      OtherPlansStay(b, prior, e, s);
    } else if Disputes(b, prior, e.terms) == {} {
      MergeIsExact(b, prior, e);
    } else {
      RegisterHoldAdds(b.con, e.hold, DisputeHold(b, prior, e));
      var p :| p in Disputes(b, prior, e.terms);
      assert b.con.plans[p].installment in DisputeHold(b, prior, e).installments;
    }
  }

  lemma AdjustTotal(b: Books, i: PlanInput, s: Id)
    requires Inv(b) && AdjustPlan(b, i).Done? && s in AdjustPlan(b, i).value.con.snapshots
    ensures var n := AdjustPlan(b, i).value.con;
      PlanTotal(n.plans, s) <= n.snapshots[s].amount || SameTotal(b.con, n, s, PlanTotal(b.con.plans, s), PlanTotal(n.plans, s))
  {
    hide CoverageExceeded;
    PlanTotalAfter(b.con.plans, i.id, AdjustPlan(b, i).value.con.plans[i.id], s);
  }

  lemma NativeTotal(b: Books, i: NativeInput, s: Id)
    requires Inv(b) && CreateNative(b, i).Done? && s in CreateNative(b, i).value.con.snapshots
    ensures var n := CreateNative(b, i).value.con;
      PlanTotal(n.plans, s) <= n.snapshots[s].amount || SameTotal(b.con, n, s, PlanTotal(b.con.plans, s), PlanTotal(n.plans, s))
  {
    CreateNativeKeeps(b, i);
    InsertedRows(b.con.plans, i.id, i.terms, i.ids);
    if s != i.id { PlanTotalSame(b.con.plans, CreateNative(b, i).value.con.plans, s); }
  }

  /** The only step that can bring the plan total of a snapshot above the contract amount is
      a revision that puts the new snapshot on hold for review. */
  lemma OnlyHeldRevisionsExceed(b: Books, c: ContractCmd, s: Id)
    requires Inv(b) && ContractTransaction(b, c).Done?
    requires var n := ContractTransaction(b, c).value.con; s in n.snapshots && n.snapshots[s].status == Effective
    ensures var n := ContractTransaction(b, c).value.con;
      || PlanTotal(n.plans, s) <= n.snapshots[s].amount
      || SameTotal(b.con, n, s, PlanTotal(b.con.plans, s), PlanTotal(n.plans, s))
      || (c.IngestCmd? && s == c.event.snapshot && s !in b.con.snapshots && HeldByEvent(n, c.event))
  {
    hide Ingest, CreateNative, CoverageExceeded, AdjustPlan;
    var n := ContractTransaction(b, c).value.con;
    match c
    case IngestCmd(e) => IngestTotal(b, e, s);
    case DunCmd(p) => PlanTotalSame(b.con.plans, n.plans, s);
    case CreateNativeCmd(i) => NativeTotal(b, i, s);
    case VoidNativeCmd(id, version) => PlanTotalSame(b.con.plans, n.plans, s);
    case CreatePlanCmd(i) => PlanTotalAfter(b.con.plans, i.id, n.plans[i.id], s);
    case ConfirmPlanCmd(i, r) => PlanTotalAfter(b.con.plans, i.id, n.plans[i.id], s);
    case AdjustPlanCmd(i) => AdjustTotal(b, i, s);
  }
}
