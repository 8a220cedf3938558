/** Receipts, allocations, partial reversals, held differences and refunds.
    internal/service: service.go, reversal.go, role_finance.go, refund_confirmation.go,
    invoice_totals.go (credit compensation). */
module Cash {
  import opened Tables
  import opened Totals

  // ---------- what the stored balances are meant to equal

  ghost function NetPart(a: Allocation): int {
    a.amount - Total(a.reversals)
  }

  /** The two ends of an allocation. */
  datatype Side = OfReceipt(receipt: Id) | OfReceivable(receivable: Id)

  predicate Touches(a: Allocation, side: Side) {
    match side
    case OfReceipt(p) => a.receipt == p
    case OfReceivable(r) => a.receivable == r
  }

  /** Allocated minus reversed, over the allocations of one receipt or one receivable. */
  ghost function NetOf(allocations: map<Id, Allocation>, side: Side): int {
    Total(map a | a in allocations && Touches(allocations[a], side) :: NetPart(allocations[a]))
  }

  /** A difference keeps its money out of the receipt until it is approved for reuse;
      a shortpayment never held any. */
  predicate Holds(d: Difference) {
    d.kind != Shortpayment && d.status != Approved
  }

  predicate HoldsFor(d: Difference, p: Id) {
    d.receipt == p && Holds(d)
  }

  ghost function HeldOfReceipt(differences: map<Id, Difference>, p: Id): int {
    Total(map d | d in differences && HoldsFor(differences[d], p) :: differences[d].amount)
  }

  function CollectionOf(open: int, received: int): Collection {
    if open == 0 then Settled else if received > 0 then PartiallySettled else Unpaid
  }

  function AllocationStatusOf(amount: int, reversed: int): AllocationStatus {
    if reversed == 0 then Confirmed else if reversed == amount then Reversed else PartiallyReversed
  }

  ghost predicate AllocationSound(c: CashTables, ar: Ledger, a: Id)
    requires a in c.allocations
  {
    var row := c.allocations[a];
    && row.receipt in c.receipts
    && row.receivable in ar
    && 0 < row.amount
    && 0 <= Total(row.reversals) <= row.amount
    && row.status == AllocationStatusOf(row.amount, Total(row.reversals))
  }

  predicate DifferenceSound(c: CashTables, d: Id)
    requires d in c.differences
  {
    var row := c.differences[d];
    && row.receipt in c.receipts
    && 0 < row.amount
    && (row.kind == Shortpayment ==> row.resolution != ToRefund)
    && (row.status in {RefundPending, RefundConfirmed} ==> row.resolution == ToRefund)
  }

  /** receipt amount = unallocated + net allocations + differences held or refunded */
  ghost predicate ReceiptBalanced(c: CashTables, p: Id)
    requires p in c.receipts
  {
    var row := c.receipts[p];
    && 0 <= row.unallocated
    && row.amount == row.unallocated + NetOf(c.allocations, OfReceipt(p)) + HeldOfReceipt(c.differences, p)
  }

  /** original = open + received + write-off, received = net allocations, all parts are
      non-negative, and the collection status is a function of the balances */
  ghost predicate ReceivableBalanced(c: CashTables, ar: Ledger, r: Id)
    requires r in ar
  {
    var row := ar[r];
    && row.original == row.open + row.received + row.writeOff
    && 0 <= row.open && 0 <= row.received && 0 <= row.writeOff
    && row.received == NetOf(c.allocations, OfReceivable(r))
    && row.collection == CollectionOf(row.open, row.received)
  }

  ghost predicate CashInv(c: CashTables, ar: Ledger) {
    && (forall a {:trigger AllocationSound(c, ar, a)} :: a in c.allocations ==> AllocationSound(c, ar, a))
    && (forall d {:trigger DifferenceSound(c, d)} :: d in c.differences ==> DifferenceSound(c, d))
    && (forall p {:trigger ReceiptBalanced(c, p)} :: p in c.receipts ==> ReceiptBalanced(c, p))
    && (forall r {:trigger ReceivableBalanced(c, ar, r)} :: r in ar ==> ReceivableBalanced(c, ar, r))
  }

  // ---------- credit facts

  predicate Undoes(credits: map<Id, Credit>, k: Id, e: Id) {
    k in credits && credits[k].Compensation? && credits[k].original == e
  }

  predicate Compensated(credits: map<Id, Credit>, e: Id) {
    exists k :: k in credits && Undoes(credits, k, e)
  }

  /** Completed facts of a receivable that are neither cancelled nor compensated. */
  function OpenFacts(credits: map<Id, Credit>, r: Id): set<Id> {
    set e | e in credits && credits[e].Completed? && credits[e].receivable == r
            && credits[e].status != CreditCancelled && !Compensated(credits, e)
  }

  /** ORDER BY created_at, id */
  predicate NotLater(credits: map<Id, Credit>, f: Id, e: Id)
    requires f in credits && e in credits
  {
    credits[f].created < credits[e].created || (credits[f].created == credits[e].created && f.n <= e.n)
  }

  predicate IsLatest(credits: map<Id, Credit>, facts: set<Id>, e: Id)
    requires forall f :: f in facts ==> f in credits
  {
    e in facts && forall f :: f in facts ==> NotLater(credits, f, e)
  }

  lemma {:induction false} LatestExists(credits: map<Id, Credit>, facts: set<Id>)
    requires facts != {} && forall e :: e in facts ==> e in credits
    ensures exists e :: IsLatest(credits, facts, e)
    decreases |facts|
  {
    var e :| e in facts;
    var rest := facts - {e};
    if rest != {} {
      LatestExists(credits, rest);
      var best :| IsLatest(credits, rest, best);
      var top := if NotLater(credits, e, best) then best else e;
      forall f | f in facts ensures NotLater(credits, f, top) {
        assert f != e ==> NotLater(credits, f, best);
      }
      assert IsLatest(credits, facts, top);
    } else {
      forall f | f in facts ensures f == e { assert f != e ==> f in rest; }
      assert IsLatest(credits, facts, e);
    }
  }

  ghost function LatestOf(credits: map<Id, Credit>, facts: set<Id>): (e: Id)
    requires facts != {} && forall e :: e in facts ==> e in credits
    ensures IsLatest(credits, facts, e)
  {
    LatestExists(credits, facts);
    var e :| IsLatest(credits, facts, e);
    e
  }

  function Marked(c: Credit, status: CreditStatus): Credit {
    match c
    case Completed(r, a, created, _) => Completed(r, a, created, status)
    case Compensation(r, a, created, _, o) => Compensation(r, a, created, status, o)
  }

  /** `enqueueCreditReversal`: the latest open fact is cancelled when it was never sent,
      and otherwise undone by a compensation row. */
  ghost function CompensateCredit(
    credits: map<Id, Credit>, receivable: Id, allocation: Id, subscribed: bool, event: Id): Outcome<map<Id, Credit>>
  {
    var facts := OpenFacts(credits, receivable);
    if facts == {} then Done(credits)
    else
      var e := LatestOf(credits, facts);
      if credits[e].status in {CreditPending, CreditRetryWait} then
        Done(credits[e := Marked(credits[e], CreditCancelled)])
      else if !subscribed then Done(credits)
      else if event in credits then Refused(Conflict)
      else Done(credits[event := Compensation(receivable, allocation, |credits|, CreditPending, e)])
  }

  /** The delivery worker: claim, record a failure, record a delivery. */
  function DeliverCredit(b: Books, e: Id, status: CreditStatus): Outcome<Books> {
    if e !in b.cash.credits then Refused(NotFound)
    else
      var from := b.cash.credits[e].status;
      if (from in {CreditPending, CreditRetryWait, CreditProcessing} && status == CreditProcessing)
         || (from == CreditProcessing && status in {CreditRetryWait, CreditDelivered})
      then Done(b.(cash := b.cash.(credits := b.cash.credits[e := Marked(b.cash.credits[e], status)])))
      else Refused(NotFound)
  }

  /** A compensation undoes one completed fact, and no fact is undone twice. */
  ghost predicate CreditsSound(credits: map<Id, Credit>) {
    && (forall k, e {:trigger Undoes(credits, k, e)} :: Undoes(credits, k, e) ==> e in credits && credits[e].Completed?)
    && (forall k, l, e {:trigger Undoes(credits, k, e), Undoes(credits, l, e)} ::
          Undoes(credits, k, e) && Undoes(credits, l, e) ==> k == l)
  }

  /** A settled receivable has exactly one open fact, any other has none. */
  ghost predicate CreditAgrees(b: Books, r: Id) {
    r in b.ar ==> |OpenFacts(b.cash.credits, r)| == if b.ar[r].open == 0 then 1 else 0
  }

  // ---------- transactions

  datatype AllocationInput = AllocationInput(
    id: Id, receipt: Id, receivable: Id, amount: int, user: Id, eligible: bool, event: Id)

  datatype ReversalInput = ReversalInput(
    id: Id, allocation: Id, amount: int, user: Id, subscribed: bool, event: Id)

  datatype DifferenceInput = DifferenceInput(id: Id, receipt: Id, kind: DifferenceKind, amount: int, user: Id)

  function CreateReceipt(b: Books, id: Id, customer: Id, currency: Id, amount: int): Outcome<Books> {
    if amount <= 0 then Refused(Invalid)
    else if id in b.cash.receipts then Refused(Conflict)
    else Done(b.(cash := b.cash.(receipts := b.cash.receipts[id := Receipt(customer, currency, amount, amount, Available)])))
  }

  /** The rows an accepted allocation writes. */
  function Allocated(b: Books, i: AllocationInput): Books
    requires i.receipt in b.cash.receipts && i.receivable in b.ar
  {
    var c, p, r := b.cash, b.cash.receipts[i.receipt], b.ar[i.receivable];
    var left, open := p.unallocated - i.amount, r.open - i.amount;
    b.(ar := b.ar[i.receivable := r.(open := open, received := r.received + i.amount,
                                     collection := if open == 0 then Settled else PartiallySettled)],
       cash := c.(
         receipts := c.receipts[i.receipt := p.(unallocated := left, status := if left == 0 then FullyAllocated else PartiallyAllocated)],
         allocations := c.allocations[i.id := Allocation(i.receipt, i.receivable, i.amount, i.user, Confirmed, map[])],
         credits := if r.open == i.amount && i.eligible
                    then c.credits[i.event := Completed(i.receivable, i.id, |c.credits|, CreditPending)] else c.credits))
  }

  function ConfirmAllocation(b: Books, i: AllocationInput): Outcome<Books> {
    var c, ar := b.cash, b.ar;
    if i.amount <= 0 then Refused(Invalid)
    else if i.receivable !in ar then Refused(NotFound)
    else if i.receipt !in c.receipts || c.receipts[i.receipt].status == FullyAllocated then Refused(Conflict)
    else
      var p, r := c.receipts[i.receipt], ar[i.receivable];
      if r.collection == Settled then Refused(Conflict)
      else if p.currency != r.currency || p.customer != r.customer then Refused(Invalid)
      else if i.amount > p.unallocated || i.amount > r.open then Refused(Conflict)
      else if i.id in c.allocations || (r.open == i.amount && i.eligible && i.event in c.credits) then Refused(Conflict)
      else Done(Allocated(b, i))
  }

  /** The rows an accepted reversal writes, given what is left of the allocation and the credit facts after it. */
  function Returned(b: Books, i: ReversalInput, remaining: int, facts: map<Id, Credit>): Books
    requires i.allocation in b.cash.allocations
    requires b.cash.allocations[i.allocation].receipt in b.cash.receipts && b.cash.allocations[i.allocation].receivable in b.ar
  {
    var c := b.cash;
    var a := c.allocations[i.allocation];
    var p, r := c.receipts[a.receipt], b.ar[a.receivable];
    var back, received := p.unallocated + i.amount, r.received - i.amount;
    b.(ar := b.ar[a.receivable := r.(open := r.open + i.amount, received := received,
                                     collection := if received == 0 then Unpaid else PartiallySettled)],
       cash := c.(
         receipts := c.receipts[a.receipt := p.(unallocated := back, status := if back == p.amount then Available else PartiallyAllocated)],
         allocations := c.allocations[i.allocation :=
           a.(status := if i.amount == remaining then Reversed else PartiallyReversed, reversals := a.reversals[i.id := i.amount])],
         credits := facts))
  }

  ghost function ReverseAllocation(b: Books, i: ReversalInput): Outcome<Books> {
    var c, ar := b.cash, b.ar;
    if i.amount <= 0 then Refused(Invalid)
    else if i.allocation !in c.allocations || c.allocations[i.allocation].status == Reversed then Refused(Conflict)
    else
      var a := c.allocations[i.allocation];
      if a.confirmedBy == i.user then Refused(Invalid)
      else if i.amount > NetPart(a) || i.id in a.reversals then Refused(Conflict)
      else if a.receipt !in c.receipts || a.receivable !in ar then Refused(Conflict)
      else if ar[a.receivable].received - i.amount < 0 then Refused(Conflict)
      else
        var facts := if ar[a.receivable].open == 0
                     then CompensateCredit(c.credits, a.receivable, i.allocation, i.subscribed, i.event)
                     else Done(c.credits);
        if facts.Refused? then Refused(facts.error) else Done(Returned(b, i, NetPart(a), facts.value))
  }

  function CreateDifference(b: Books, i: DifferenceInput): Outcome<Books> {
    var c := b.cash;
    if i.amount <= 0 then Refused(Invalid)
    else if i.receipt !in c.receipts then Refused(NotFound)
    else
      var p := c.receipts[i.receipt];
      if i.kind != Shortpayment && i.amount > p.unallocated then Refused(Conflict)
      else if i.id in c.differences then Refused(Conflict)
      else Done(b.(cash := c.(
        receipts := if i.kind != Shortpayment
                    then c.receipts[i.receipt := p.(unallocated := p.unallocated - i.amount)] else c.receipts,
        differences := c.differences[i.id := Difference(i.receipt, i.kind, i.amount, Held, Undecided, i.user, NOBODY, NOBODY, 1)])))
  }

  function ResolveDifference(b: Books, id: Id, version: int, resolution: Resolution, user: Id): Outcome<Books> {
    var c := b.cash;
    if resolution == Undecided then Refused(Invalid)
    else if id !in c.differences then Refused(Conflict)
    else
      var d := c.differences[id];
      if d.status != Held || d.version != version || (d.kind == Shortpayment && resolution != Matched) then Refused(Conflict)
      else Done(b.(cash := c.(differences := c.differences[id :=
        d.(resolution := resolution, resolvedBy := user, status := ReviewPending, version := version + 1)])))
  }

  function ApproveDifference(b: Books, id: Id, version: int, user: Id): Outcome<Books> {
    var c := b.cash;
    if id !in c.differences || c.differences[id].status != ReviewPending || c.differences[id].version != version
    then Refused(Conflict)
    else
      var d := c.differences[id];
      if d.requestedBy == user || d.resolvedBy == user then Refused(Forbidden)
      else
        var refund := d.resolution == ToRefund;
        Done(b.(cash := c.(
          receipts := if !refund && d.kind != Shortpayment && d.receipt in c.receipts
                      then c.receipts[d.receipt := c.receipts[d.receipt].(unallocated := c.receipts[d.receipt].unallocated + d.amount)]
                      else c.receipts,
          differences := c.differences[id :=
            d.(status := if refund then RefundPending else Approved, approvedBy := user, version := version + 1)])))
  }

  function ConfirmRefund(b: Books, id: Id, version: int): Outcome<Books> {
    var c := b.cash;
    if id !in c.differences then Refused(NotFound)
    else
      var d := c.differences[id];
      if d.version != version || d.status != RefundPending || d.resolution != ToRefund
         || d.approvedBy == NOBODY || d.approvedBy == d.requestedBy || d.approvedBy == d.resolvedBy then Refused(Conflict)
      else if d.receipt !in c.receipts then Refused(NotFound)
      else Done(b.(cash := c.(differences := c.differences[id := d.(status := RefundConfirmed, version := version + 1)])))
  }

  // ---------- how one step moves the sums

  lemma NetAfter(allocations: map<Id, Allocation>, id: Id, a: Allocation, side: Side)
    requires id in allocations ==> a.receipt == allocations[id].receipt && a.receivable == allocations[id].receivable
    ensures NetOf(allocations[id := a], side)
         == NetOf(allocations, side)
            + (if Touches(a, side) then NetPart(a) - (if id in allocations then NetPart(allocations[id]) else 0) else 0)
  {
    var next := allocations[id := a];
    var before := map x | x in allocations && Touches(allocations[x], side) :: NetPart(allocations[x]);
    var after := map x | x in next && Touches(next[x], side) :: NetPart(next[x]);
    if Touches(a, side) {
      assert after == before[id := NetPart(a)];
      TotalSet(before, id, NetPart(a));
    } else {
      assert after == before;
    }
  }

  lemma HeldAfter(differences: map<Id, Difference>, id: Id, d: Difference, p: Id)
    requires id in differences ==> differences[id].receipt == d.receipt && differences[id].amount == d.amount
    ensures HeldOfReceipt(differences[id := d], p)
         == HeldOfReceipt(differences, p)
            + (if d.receipt == p && Holds(d) then d.amount else 0)
            - (if d.receipt == p && id in differences && Holds(differences[id]) then d.amount else 0)
  {
    var next := differences[id := d];
    var before := map x | x in differences && HoldsFor(differences[x], p) :: differences[x].amount;
    var after := map x | x in next && HoldsFor(next[x], p) :: next[x].amount;
    if d.receipt == p && Holds(d) {
      assert after == before[id := d.amount];
      TotalSet(before, id, d.amount);
    } else if id in before {
      assert before == after[id := d.amount];
      TotalSet(after, id, d.amount);
    } else {
      assert after == before;
    }
  }

  // ---------- every transaction keeps the balances

  lemma ConfirmAllocationKeeps(b: Books, i: AllocationInput)
    requires CashInv(b.cash, b.ar) && ConfirmAllocation(b, i).Done?
    ensures var n := ConfirmAllocation(b, i).value; CashInv(n.cash, n.ar)
  {
    var n := ConfirmAllocation(b, i).value;
    var c, a := n.cash, n.cash.allocations[i.id];
    TotalEmpty<Id>();
    forall x | x in c.allocations ensures AllocationSound(c, n.ar, x) {
      assert x != i.id ==> AllocationSound(b.cash, b.ar, x);
    }
    forall d | d in c.differences ensures DifferenceSound(c, d) { assert DifferenceSound(b.cash, d); }
    forall p | p in c.receipts ensures ReceiptBalanced(c, p) {
      assert ReceiptBalanced(b.cash, p);
      NetAfter(b.cash.allocations, i.id, a, OfReceipt(p));
    }
    forall r | r in n.ar ensures ReceivableBalanced(c, n.ar, r) {
      assert ReceivableBalanced(b.cash, b.ar, r);
      NetAfter(b.cash.allocations, i.id, a, OfReceivable(r));
    }
  }

  /** In a balanced store the negative-received exit of the reversal is unreachable:
      what is left of an allocation is part of what its receivable has received. */
  lemma RemainderIsReceived(c: CashTables, ar: Ledger, a: Id)
    requires CashInv(c, ar) && a in c.allocations
    ensures c.allocations[a].receivable in ar
    ensures NetPart(c.allocations[a]) <= ar[c.allocations[a].receivable].received
  {
    var side := OfReceivable(c.allocations[a].receivable);
    assert AllocationSound(c, ar, a) && ReceivableBalanced(c, ar, side.receivable);
    forall x | x in c.allocations ensures 0 <= NetPart(c.allocations[x]) { assert AllocationSound(c, ar, x); }
    var parts := map x | x in c.allocations && Touches(c.allocations[x], side) :: NetPart(c.allocations[x]);
    TotalNonNegative(parts);
    assert a in parts;
  }

  lemma ReverseAllocationKeeps(b: Books, i: ReversalInput)
    requires CashInv(b.cash, b.ar) && ReverseAllocation(b, i).Done?
    ensures var n := ReverseAllocation(b, i).value; CashInv(n.cash, n.ar)
  {
    var n := ReverseAllocation(b, i).value;
    var c, a := n.cash, n.cash.allocations[i.allocation];
    TotalSet(b.cash.allocations[i.allocation].reversals, i.id, i.amount);
    forall x | x in c.allocations ensures AllocationSound(c, n.ar, x) { assert AllocationSound(b.cash, b.ar, x); }
    forall d | d in c.differences ensures DifferenceSound(c, d) { assert DifferenceSound(b.cash, d); }
    forall p | p in c.receipts ensures ReceiptBalanced(c, p) {
      assert ReceiptBalanced(b.cash, p);
      NetAfter(b.cash.allocations, i.allocation, a, OfReceipt(p));
    }
    forall r | r in n.ar ensures ReceivableBalanced(c, n.ar, r) {
      assert ReceivableBalanced(b.cash, b.ar, r);
      NetAfter(b.cash.allocations, i.allocation, a, OfReceivable(r));
    }
  }

  /** Allocations and receivables stay sound when only receipts and differences move. */
  lemma SameAllocations(c: CashTables, n: CashTables, ar: Ledger)
    requires CashInv(c, ar) && n.allocations == c.allocations
    requires forall p :: p in c.receipts ==> p in n.receipts
    ensures forall a {:trigger AllocationSound(n, ar, a)} :: a in n.allocations ==> AllocationSound(n, ar, a)
    ensures forall r {:trigger ReceivableBalanced(n, ar, r)} :: r in ar ==> ReceivableBalanced(n, ar, r)
  {
    forall a | a in n.allocations ensures AllocationSound(n, ar, a) { assert AllocationSound(c, ar, a); }
    forall r | r in ar ensures ReceivableBalanced(n, ar, r) { assert ReceivableBalanced(c, ar, r); }
  }

  lemma NothingOfReceipt(c: CashTables, p: Id)
    requires forall a :: a in c.allocations ==> c.allocations[a].receipt != p
    requires forall d :: d in c.differences ==> c.differences[d].receipt != p
    ensures NetOf(c.allocations, OfReceipt(p)) == 0 && HeldOfReceipt(c.differences, p) == 0
  {
    var net := map a | a in c.allocations && Touches(c.allocations[a], OfReceipt(p)) :: NetPart(c.allocations[a]);
    var held := map d | d in c.differences && HoldsFor(c.differences[d], p) :: c.differences[d].amount;
    assert net.Keys == {} && held.Keys == {};
    assert net == map[] && held == map[];
    TotalEmpty<Id>();
  }

  lemma CreateReceiptKeeps(b: Books, id: Id, customer: Id, currency: Id, amount: int)
    requires CashInv(b.cash, b.ar) && CreateReceipt(b, id, customer, currency, amount).Done?
    ensures var n := CreateReceipt(b, id, customer, currency, amount).value; CashInv(n.cash, n.ar)
  {
    var c, n := b.cash, CreateReceipt(b, id, customer, currency, amount).value.cash;
    SameAllocations(c, n, b.ar);
    forall d | d in n.differences ensures DifferenceSound(n, d) { assert DifferenceSound(c, d); }
    forall p | p in n.receipts ensures ReceiptBalanced(n, p) {
      if p == id {
        forall a | a in c.allocations ensures c.allocations[a].receipt != id { assert AllocationSound(c, b.ar, a); }
        forall d | d in c.differences ensures c.differences[d].receipt != id { assert DifferenceSound(c, d); }
        NothingOfReceipt(c, id);
      } else {
        assert ReceiptBalanced(c, p);
      }
    }
  }

  /** One difference row changes together with the balance of its receipt: the receipt
      gives up exactly what the row starts to hold and gets back what it lets go. */
  lemma DifferenceStepKeeps(c: CashTables, n: CashTables, ar: Ledger, id: Id)
    requires CashInv(c, ar) && n.allocations == c.allocations
    requires id in n.differences && n.differences == c.differences[id := n.differences[id]]
    requires var d := n.differences[id];
      && d.receipt in c.receipts && 0 < d.amount
      && (d.kind == Shortpayment ==> d.resolution != ToRefund)
      && (d.status in {RefundPending, RefundConfirmed} ==> d.resolution == ToRefund)
      && (id in c.differences ==> c.differences[id].receipt == d.receipt && c.differences[id].amount == d.amount)
      && var was := if id in c.differences && Holds(c.differences[id]) then d.amount else 0;
      && var now := if Holds(d) then d.amount else 0;
      && 0 <= c.receipts[d.receipt].unallocated + was - now
      && n.receipts == c.receipts[d.receipt :=
           c.receipts[d.receipt].(unallocated := c.receipts[d.receipt].unallocated + was - now)]
    ensures CashInv(n, ar)
  {
    SameAllocations(c, n, ar);
    forall x | x in n.differences ensures DifferenceSound(n, x) { assert x != id ==> DifferenceSound(c, x); }
    forall p | p in n.receipts ensures ReceiptBalanced(n, p) {
      assert ReceiptBalanced(c, p);
      HeldAfter(c.differences, id, n.differences[id], p);
    }
  }

  lemma CreateDifferenceKeeps(b: Books, i: DifferenceInput)
    requires CashInv(b.cash, b.ar) && CreateDifference(b, i).Done?
    ensures var n := CreateDifference(b, i).value; CashInv(n.cash, n.ar)
  {
    var n := CreateDifference(b, i).value;
    assert ReceiptBalanced(b.cash, i.receipt);
    DifferenceStepKeeps(b.cash, n.cash, b.ar, i.id);
  }

  lemma ResolveDifferenceKeeps(b: Books, id: Id, version: int, resolution: Resolution, user: Id)
    requires CashInv(b.cash, b.ar) && ResolveDifference(b, id, version, resolution, user).Done?
    ensures var n := ResolveDifference(b, id, version, resolution, user).value; CashInv(n.cash, n.ar)
  {
    var n := ResolveDifference(b, id, version, resolution, user).value;
    assert DifferenceSound(b.cash, id) && ReceiptBalanced(b.cash, b.cash.differences[id].receipt);
    DifferenceStepKeeps(b.cash, n.cash, b.ar, id);
  }

  lemma ApproveDifferenceKeeps(b: Books, id: Id, version: int, user: Id)
    requires CashInv(b.cash, b.ar) && ApproveDifference(b, id, version, user).Done?
    ensures var n := ApproveDifference(b, id, version, user).value; CashInv(n.cash, n.ar)
  {
    var n := ApproveDifference(b, id, version, user).value;
    assert DifferenceSound(b.cash, id) && ReceiptBalanced(b.cash, b.cash.differences[id].receipt);
    DifferenceStepKeeps(b.cash, n.cash, b.ar, id);
  }

  lemma ConfirmRefundKeeps(b: Books, id: Id, version: int)
    requires CashInv(b.cash, b.ar) && ConfirmRefund(b, id, version).Done?
    ensures var n := ConfirmRefund(b, id, version).value; CashInv(n.cash, n.ar)
  {
    var n := ConfirmRefund(b, id, version).value;
    assert DifferenceSound(b.cash, id) && ReceiptBalanced(b.cash, b.cash.differences[id].receipt);
    DifferenceStepKeeps(b.cash, n.cash, b.ar, id);
  }

  lemma DeliverCreditKeeps(b: Books, e: Id, status: CreditStatus)
    requires CashInv(b.cash, b.ar) && DeliverCredit(b, e, status).Done?
    ensures var n := DeliverCredit(b, e, status).value; CashInv(n.cash, n.ar)
  {
    var c, n := b.cash, DeliverCredit(b, e, status).value.cash;
    SameAllocations(c, n, b.ar);
    forall d | d in n.differences ensures DifferenceSound(n, d) { assert DifferenceSound(c, d); }
    forall p | p in n.receipts ensures ReceiptBalanced(n, p) { assert ReceiptBalanced(c, p); }
  }

  // ---------- credit facts follow the settlement of the receivable

  lemma OpenFactsAfterInsert(credits: map<Id, Credit>, e: Id, row: Credit, r: Id)
    requires CreditsSound(credits) && e !in credits && row.Completed? && row.status == CreditPending
    ensures OpenFacts(credits[e := row], r) == OpenFacts(credits, r) + (if row.receivable == r then {e} else {})
    ensures CreditsSound(credits[e := row])
  {
    var next := credits[e := row];
    assert forall k, x :: Undoes(next, k, x) <==> Undoes(credits, k, x);
    assert forall x :: Compensated(next, x) <==> Compensated(credits, x);
  }

  /** A confirmation keeps facts and settlement in step exactly when a settling one is eligible. */
  lemma ConfirmKeepsCreditIff(b: Books, i: AllocationInput, r: Id)
    requires CreditsSound(b.cash.credits) && CreditAgrees(b, r) && ConfirmAllocation(b, i).Done?
    ensures var n := ConfirmAllocation(b, i).value;
      && CreditsSound(n.cash.credits)
      && (CreditAgrees(n, r) <==> (i.receivable == r && b.ar[r].open == i.amount ==> i.eligible))
  {
    var n := ConfirmAllocation(b, i).value;
    if n.cash.credits != b.cash.credits {
      OpenFactsAfterInsert(b.cash.credits, i.event, n.cash.credits[i.event], r);
      assert i.event !in OpenFacts(b.cash.credits, r);
    }
  }

  lemma CancelClosesFact(credits: map<Id, Credit>, e: Id, r: Id)
    requires CreditsSound(credits) && e in credits && credits[e].Completed?
    ensures var next := credits[e := Marked(credits[e], CreditCancelled)];
      CreditsSound(next) && OpenFacts(next, r) == OpenFacts(credits, r) - {e}
  {
    var next := credits[e := Marked(credits[e], CreditCancelled)];
    assert forall k, x :: Undoes(next, k, x) <==> Undoes(credits, k, x);
    assert forall x :: Compensated(next, x) <==> Compensated(credits, x);
  }

  lemma CompensationClosesFact(credits: map<Id, Credit>, e: Id, event: Id, row: Credit, r: Id)
    requires CreditsSound(credits) && e in credits && credits[e].Completed? && !Compensated(credits, e)
    requires event !in credits && row.Compensation? && row.original == e
    ensures CreditsSound(credits[event := row]) && OpenFacts(credits[event := row], r) == OpenFacts(credits, r) - {e}
  {
    var next := credits[event := row];
    assert forall k, x :: Undoes(next, k, x) <==> Undoes(credits, k, x) || (k == event && x == e);
    forall x ensures Compensated(next, x) <==> Compensated(credits, x) || x == e {
      assert x == e ==> Undoes(next, event, x);
    }
  }

  /** The fact the compensation picks is closed: it was never sent, or the feed is subscribed. */
  ghost predicate Closable(credits: map<Id, Credit>, receivable: Id, subscribed: bool) {
    var facts := OpenFacts(credits, receivable);
    facts != {} ==> subscribed || credits[LatestOf(credits, facts)].status in {CreditPending, CreditRetryWait}
  }

  /** What the compensation does to the open facts of every receivable. */
  lemma CompensateEffect(credits: map<Id, Credit>, receivable: Id, allocation: Id, subscribed: bool, event: Id, r: Id)
    requires CreditsSound(credits)
    requires CompensateCredit(credits, receivable, allocation, subscribed, event).Done?
    ensures var next := CompensateCredit(credits, receivable, allocation, subscribed, event).value;
      && CreditsSound(next)
      && (r != receivable ==> OpenFacts(next, r) == OpenFacts(credits, r))
      && |OpenFacts(next, receivable)| == |OpenFacts(credits, receivable)|
           - (if OpenFacts(credits, receivable) != {} && Closable(credits, receivable, subscribed) then 1 else 0)
  {
    var facts := OpenFacts(credits, receivable);
    if facts != {} && Closable(credits, receivable, subscribed) {
      var e := LatestOf(credits, facts);
      if credits[e].status in {CreditPending, CreditRetryWait} {
        CancelClosesFact(credits, e, receivable);
        CancelClosesFact(credits, e, r);
      } else {
        var row := Compensation(receivable, allocation, |credits|, CreditPending, e);
        CompensationClosesFact(credits, e, event, row, receivable);
        CompensationClosesFact(credits, e, event, row, r);
      }
    }
  }

  /** A reversal keeps facts and settlement in step exactly when the fact it must undo can be closed. */
  lemma ReverseKeepsCreditIff(b: Books, i: ReversalInput, r: Id)
    requires CreditsSound(b.cash.credits) && CreditAgrees(b, r)
    requires ReverseAllocation(b, i).Done? && 0 <= b.ar[b.cash.allocations[i.allocation].receivable].open
    ensures var n := ReverseAllocation(b, i).value; var target := b.cash.allocations[i.allocation].receivable;
      && CreditsSound(n.cash.credits)
      && (CreditAgrees(n, r) <==> (target == r && b.ar[r].open == 0 ==> Closable(b.cash.credits, r, i.subscribed)))
  {
    var target := b.cash.allocations[i.allocation].receivable;
    if b.ar[target].open == 0 {
      CompensateEffect(b.cash.credits, target, i.allocation, i.subscribed, i.event, r);
    }
  }

  lemma DeliverKeepsCredit(b: Books, e: Id, status: CreditStatus, r: Id)
    requires CreditsSound(b.cash.credits) && CreditAgrees(b, r) && DeliverCredit(b, e, status).Done?
    ensures var n := DeliverCredit(b, e, status).value; CreditsSound(n.cash.credits) && CreditAgrees(n, r)
  {
    var credits, next := b.cash.credits, DeliverCredit(b, e, status).value.cash.credits;
    assert forall k, x :: Undoes(next, k, x) <==> Undoes(credits, k, x);
    assert forall x :: Compensated(next, x) <==> Compensated(credits, x);
    assert OpenFacts(next, r) == OpenFacts(credits, r);
  }

  // ---------- a reversal undoes a confirmation

  /** Confirming an amount and reversing all of it gives receipt and receivable their
      balances and the receivable its collection status back. */
  lemma ReversalUndoesConfirmation(b: Books, i: AllocationInput, j: ReversalInput)
    requires CashInv(b.cash, b.ar) && ConfirmAllocation(b, i).Done?
    requires j.allocation == i.id && j.amount == i.amount && j.user != i.user
    requires var m := ConfirmAllocation(b, i).value; j.event !in m.cash.credits
    ensures var m := ConfirmAllocation(b, i).value;
      && ReverseAllocation(m, j).Done?
      && var n := ReverseAllocation(m, j).value;
      && n.ar == b.ar
      && n.cash.receipts.Keys == b.cash.receipts.Keys
      && (forall p :: p in b.cash.receipts ==> n.cash.receipts[p].unallocated == b.cash.receipts[p].unallocated)
      && n.cash.allocations[i.id].status == Reversed
  {
    var m := ConfirmAllocation(b, i).value;
    TotalEmpty<Id>();
    assert ReceivableBalanced(b.cash, b.ar, i.receivable);
  }
}
