/** Receipt, allocation, reversal, difference and refund transactions as they update the tables.
    internal/service: service.go, reversal.go, role_finance.go, refund_confirmation.go, invoice_totals.go */
module CashDesk {
  import opened Tables
  import opened Totals
  import C = Cash

  method CreateReceipt(db: Database, id: Id, customer: Id, currency: Id, amount: int) returns (err: Option<Error>)
    modifies db
    ensures Commits(old(db.State()), db.State(), C.CreateReceipt(old(db.State()), id, customer, currency, amount), err)
  {
    if amount <= 0 { return Some(Invalid); }
    if id in db.cash.receipts { return Some(Conflict); }
    db.cash := db.cash.(receipts := db.cash.receipts[id := Receipt(customer, currency, amount, amount, Available)]);
    return None;
  }

  method ConfirmAllocation(db: Database, i: C.AllocationInput) returns (err: Option<Error>)
    modifies db
    ensures Commits(old(db.State()), db.State(), C.ConfirmAllocation(old(db.State()), i), err)
  {
    if i.amount <= 0 { return Some(Invalid); }
    if i.receivable !in db.ar { return Some(NotFound); }
    if i.receipt !in db.cash.receipts || db.cash.receipts[i.receipt].status == FullyAllocated { return Some(Conflict); }
    var receipt, receivable := db.cash.receipts[i.receipt], db.ar[i.receivable];
    if receivable.collection == Settled { return Some(Conflict); }
    if receipt.currency != receivable.currency || receipt.customer != receivable.customer { return Some(Invalid); }
    if i.amount > receipt.unallocated || i.amount > receivable.open { return Some(Conflict); }
    if i.id in db.cash.allocations { return Some(Conflict); }
    var settles := receivable.open == i.amount;
    if settles && i.eligible && i.event in db.cash.credits { return Some(Conflict); }
    PostAllocation(db, i);
    return None;
  }

  /** The writes of an allocation, in the order of the source. */
  method PostAllocation(db: Database, i: C.AllocationInput)
    requires i.receipt in db.cash.receipts && i.receivable in db.ar
    modifies db
    ensures db.State() == C.Allocated(old(db.State()), i)
  {
    var receipt, receivable := db.cash.receipts[i.receipt], db.ar[i.receivable];
    db.cash := db.cash.(allocations := db.cash.allocations[i.id := Allocation(i.receipt, i.receivable, i.amount, i.user, Confirmed, map[])]);
    var left := receipt.unallocated - i.amount;
    db.cash := db.cash.(receipts := db.cash.receipts[i.receipt := receipt.(unallocated := left, status := if left == 0 then FullyAllocated else PartiallyAllocated)]);
    var settles := receivable.open == i.amount;
    db.ar := db.ar[i.receivable := receivable.(
      open := receivable.open - i.amount, received := receivable.received + i.amount,
      collection := if settles then Settled else PartiallySettled)];
    if settles && i.eligible {
      db.cash := db.cash.(credits := db.cash.credits[i.event := Completed(i.receivable, i.id, |db.cash.credits|, CreditPending)]);
    }
  }

  lemma LatestUnique(credits: map<Id, Credit>, facts: set<Id>, x: Id, y: Id)
    requires forall f :: f in facts ==> f in credits
    requires C.IsLatest(credits, facts, x) && C.IsLatest(credits, facts, y)
    ensures x == y
  {
    assert C.NotLater(credits, x, y) && C.NotLater(credits, y, x);
  }

  /** The newest completed fact that is neither cancelled nor compensated. */
  method LatestFact(credits: map<Id, Credit>, receivable: Id) returns (e: Option<Id>)
    ensures e.None? <==> C.OpenFacts(credits, receivable) == {}
    ensures e.Some? ==> e.value == C.LatestOf(credits, C.OpenFacts(credits, receivable))
  {
    ghost var facts := C.OpenFacts(credits, receivable);
    e := None;
    var rest := credits.Keys;
    while rest != {}
      invariant rest <= credits.Keys
      invariant e.None? ==> facts <= rest
      invariant e.Some? ==> C.IsLatest(credits, facts - rest, e.value)
      decreases |rest|
    {
      var x :| x in rest;
      var row := credits[x];
      rest := rest - {x};
      if row.Completed? && row.receivable == receivable && row.status != CreditCancelled && !C.Compensated(credits, x) {
        if e.None? || C.NotLater(credits, e.value, x) {
          forall f | f in facts - rest ensures C.NotLater(credits, f, x) {
            if e.Some? && f != x { assert C.NotLater(credits, f, e.value); }
          }
          e := Some(x);
        }
      }
    }
    if e.Some? {
      assert facts - rest == facts;
      LatestUnique(credits, facts, e.value, C.LatestOf(credits, facts));
    }
  }

  /** `enqueueCreditReversal` */
  method EnqueueCreditReversal(credits: map<Id, Credit>, receivable: Id, allocation: Id, subscribed: bool, event: Id)
    returns (r: Outcome<map<Id, Credit>>)
    ensures r == C.CompensateCredit(credits, receivable, allocation, subscribed, event)
  {
    var e := LatestFact(credits, receivable);
    if e.None? { return Done(credits); }
    if credits[e.value].status in {CreditPending, CreditRetryWait} {
      return Done(credits[e.value := C.Marked(credits[e.value], CreditCancelled)]);
    }
    if !subscribed { return Done(credits); }
    if event in credits { return Refused(Conflict); }
    return Done(credits[event := Compensation(receivable, allocation, |credits|, CreditPending, e.value)]);
  }

  method ReverseAllocation(db: Database, i: C.ReversalInput) returns (err: Option<Error>)
    modifies db
    ensures Commits(old(db.State()), db.State(), C.ReverseAllocation(old(db.State()), i), err)
  {
    if i.amount <= 0 { return Some(Invalid); }
    if i.allocation !in db.cash.allocations || db.cash.allocations[i.allocation].status == Reversed { return Some(Conflict); }
    var allocation := db.cash.allocations[i.allocation];
    var reversed := Sum(allocation.reversals);
    var remaining := allocation.amount - reversed;
    if allocation.confirmedBy == i.user { return Some(Invalid); }
    if i.amount > remaining || i.id in allocation.reversals { return Some(Conflict); }
    if allocation.receipt !in db.cash.receipts || allocation.receivable !in db.ar { return Some(Conflict); }
    var receivable := db.ar[allocation.receivable];
    if receivable.received - i.amount < 0 { return Some(Conflict); }
    var facts := Done(db.cash.credits);
    if receivable.open == 0 {
      facts := EnqueueCreditReversal(db.cash.credits, allocation.receivable, i.allocation, i.subscribed, i.event);
    }
    if facts.Refused? { return Some(facts.error); }
    PostReversal(db, i, remaining, facts.value);
    return None;
  }

  /** The writes of a reversal, in the order of the source. */
  method PostReversal(db: Database, i: C.ReversalInput, remaining: int, facts: map<Id, Credit>)
    requires i.allocation in db.cash.allocations
    requires db.cash.allocations[i.allocation].receipt in db.cash.receipts && db.cash.allocations[i.allocation].receivable in db.ar
    modifies db
    ensures db.State() == C.Returned(old(db.State()), i, remaining, facts)
  {
    var allocation := db.cash.allocations[i.allocation];
    var receipt, receivable := db.cash.receipts[allocation.receipt], db.ar[allocation.receivable];
    db.cash := db.cash.(allocations := db.cash.allocations[i.allocation := allocation.(
      status := if i.amount == remaining then Reversed else PartiallyReversed, reversals := allocation.reversals[i.id := i.amount])]);
    var back := receipt.unallocated + i.amount;
    db.cash := db.cash.(receipts := db.cash.receipts[allocation.receipt := receipt.(
      unallocated := back, status := if back == receipt.amount then Available else PartiallyAllocated)]);
    var received := receivable.received - i.amount;
    db.ar := db.ar[allocation.receivable := receivable.(
      open := receivable.open + i.amount, received := received, collection := if received == 0 then Unpaid else PartiallySettled)];
    db.cash := db.cash.(credits := facts);
  }

  method CreateReceiptDifference(db: Database, i: C.DifferenceInput) returns (err: Option<Error>)
    modifies db
    ensures Commits(old(db.State()), db.State(), C.CreateDifference(old(db.State()), i), err)
  {
    if i.amount <= 0 { return Some(Invalid); }
    if i.receipt !in db.cash.receipts { return Some(NotFound); }
    var receipt := db.cash.receipts[i.receipt];
    if i.kind != Shortpayment && i.amount > receipt.unallocated { return Some(Conflict); }
    if i.id in db.cash.differences { return Some(Conflict); }
    if i.kind != Shortpayment {
      db.cash := db.cash.(receipts := db.cash.receipts[i.receipt := receipt.(unallocated := receipt.unallocated - i.amount)]);
    }
    db.cash := db.cash.(differences := db.cash.differences[i.id := Difference(i.receipt, i.kind, i.amount, Held, Undecided, i.user, NOBODY, NOBODY, 1)]);
    return None;
  }

  method ResolveReceiptDifference(db: Database, id: Id, version: int, resolution: Resolution, user: Id) returns (err: Option<Error>)
    modifies db
    ensures Commits(old(db.State()), db.State(), C.ResolveDifference(old(db.State()), id, version, resolution, user), err)
  {
    if resolution == Undecided { return Some(Invalid); }
    if id !in db.cash.differences { return Some(Conflict); }
    var d := db.cash.differences[id];
    if d.status != Held || d.version != version { return Some(Conflict); }
    if d.kind == Shortpayment && resolution != Matched { return Some(Conflict); }
    db.cash := db.cash.(differences := db.cash.differences[id := d.(resolution := resolution, resolvedBy := user, status := ReviewPending, version := version + 1)]);
    return None;
  }

  method ApproveReceiptDifference(db: Database, id: Id, version: int, user: Id) returns (err: Option<Error>)
    modifies db
    ensures Commits(old(db.State()), db.State(), C.ApproveDifference(old(db.State()), id, version, user), err)
  {
    if id !in db.cash.differences { return Some(Conflict); }
    var d := db.cash.differences[id];
    if d.status != ReviewPending || d.version != version { return Some(Conflict); }
    if d.requestedBy == user || d.resolvedBy == user { return Some(Forbidden); }
    var status := Approved;
    if d.resolution == ToRefund {
      status := RefundPending;
    } else if d.kind != Shortpayment && d.receipt in db.cash.receipts {
      var receipt := db.cash.receipts[d.receipt];
      db.cash := db.cash.(receipts := db.cash.receipts[d.receipt := receipt.(unallocated := receipt.unallocated + d.amount)]);
    }
    db.cash := db.cash.(differences := db.cash.differences[id := d.(status := status, approvedBy := user, version := version + 1)]);
    return None;
  }

  method ConfirmReceiptRefund(db: Database, id: Id, version: int) returns (err: Option<Error>)
    modifies db
    ensures Commits(old(db.State()), db.State(), C.ConfirmRefund(old(db.State()), id, version), err)
  {
    if id !in db.cash.differences { return Some(NotFound); }
    var d := db.cash.differences[id];
    if d.version != version || d.status != RefundPending || d.resolution != ToRefund { return Some(Conflict); }
    if d.approvedBy == NOBODY || d.approvedBy == d.requestedBy || d.approvedBy == d.resolvedBy { return Some(Conflict); }
    if d.receipt !in db.cash.receipts { return Some(NotFound); }
    db.cash := db.cash.(differences := db.cash.differences[id := d.(status := RefundConfirmed, version := version + 1)]);
    return None;
  }

  /** The delivery worker moves a row of the credit feed: claim, failure, delivery. */
  method RecordCreditDelivery(db: Database, e: Id, status: CreditStatus) returns (err: Option<Error>)
    modifies db
    ensures Commits(old(db.State()), db.State(), C.DeliverCredit(old(db.State()), e, status), err)
  {
    if e !in db.cash.credits { return Some(NotFound); }
    var from := db.cash.credits[e].status;
    var claims := from in {CreditPending, CreditRetryWait, CreditProcessing} && status == CreditProcessing;
    var ends := from == CreditProcessing && status in {CreditRetryWait, CreditDelivered};
    if !claims && !ends { return Some(NotFound); }
    db.cash := db.cash.(credits := db.cash.credits[e := C.Marked(db.cash.credits[e], status)]);
    return None;
  }
}
