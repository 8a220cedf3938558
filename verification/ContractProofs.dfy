/** Every contract and plan transaction keeps the contract invariant, and what a revision merge means. */
module ContractProofs {
  import opened Tables
  import opened Totals
  import opened Cash
  import opened Invoicing
  import opened Contracts

  // ---------- plan totals

  lemma PlanTotalAfter(plans: map<Id, Plan>, p: Id, row: Plan, s: Id)
    requires p in plans ==> plans[p].snapshot == row.snapshot
    ensures PlanTotal(plans[p := row], s)
         == PlanTotal(plans, s) + (if row.snapshot == s then row.amount - (if p in plans then plans[p].amount else 0) else 0)
  {
    var next := plans[p := row];
    var before := map x | x in plans && plans[x].snapshot == s :: plans[x].amount;
    var after := map x | x in next && next[x].snapshot == s :: next[x].amount;
    if row.snapshot == s {
      assert after == before[p := row.amount];
      TotalSet(before, p, row.amount);
    } else {
      assert after == before;
    }
  }

  lemma PlanTotalSame(plans: map<Id, Plan>, next: map<Id, Plan>, s: Id)
    requires forall p :: (p in plans && plans[p].snapshot == s) <==> (p in next && next[p].snapshot == s)
    requires forall p :: p in plans && plans[p].snapshot == s ==> next[p].amount == plans[p].amount
    ensures PlanTotal(next, s) == PlanTotal(plans, s)
  {
    assert (map x | x in plans && plans[x].snapshot == s :: plans[x].amount)
        == (map x | x in next && next[x].snapshot == s :: next[x].amount);
  }

  predicate Fresh(plans: map<Id, Plan>, s: Id) {
    forall p :: p in plans ==> plans[p].snapshot != s
  }

  ghost predicate UniquePlaces(plans: map<Id, Plan>) {
    forall x, p {:trigger SamePlace(plans, x, p)} :: p in plans && SamePlace(plans, x, p) ==> x == p
  }

  predicate FromTerm(row: Plan, s: Id, terms: seq<Term>) {
    exists k :: 0 <= k < |terms| && row == PlanOf(s, terms[k])
  }

  /** The insertion keeps the old rows, adds one row per term and no other. */
  lemma {:induction false} InsertedRows(plans: map<Id, Plan>, s: Id, terms: seq<Term>, ids: nat -> Id)
    requires InsertTerms(plans, s, terms, ids).Done?
    ensures var n := InsertTerms(plans, s, terms, ids).value;
      && (forall p :: p in plans ==> p in n && n[p] == plans[p])
      && (forall p :: p in n && p !in plans ==> FromTerm(n[p], s, terms))
      && (forall k :: 0 <= k < |terms| ==> GoodTerm(terms[k]) && ids(k) in n && ids(k) !in plans && n[ids(k)] == PlanOf(s, terms[k]))
  {
    if terms != [] {
      var k := |terms| - 1;
      InsertedRows(plans, s, terms[..k], ids);
      var m := InsertTerms(plans, s, terms[..k], ids).value;
      var n := InsertTerms(plans, s, terms, ids).value;
      forall j | 0 <= j < |terms| ensures GoodTerm(terms[j]) && ids(j) in n && ids(j) !in plans && n[ids(j)] == PlanOf(s, terms[j]) {
        if j < k { assert terms[..k][j] == terms[j]; }
      }
      forall p | p in n && p !in plans ensures FromTerm(n[p], s, terms) {
        if p in m {
          var j :| 0 <= j < k && m[p] == PlanOf(s, terms[..k][j]);
          assert n[p] == PlanOf(s, terms[j]);
        } else {
          assert n[p] == PlanOf(s, terms[k]);
        }
      }
    }
  }

  lemma InsertedOne(m: map<Id, Plan>, id: Id, row: Plan)
    requires UniquePlaces(m) && id !in m && !exists p :: Taken(m, p, row.snapshot, row.installment)
    ensures UniquePlaces(m[id := row])
  {
    var n := m[id := row];
    forall x, p | p in n && SamePlace(n, x, p) ensures x == p {
      if x != id && p != id {
        assert SamePlace(m, x, p);
      } else if x != p {
        assert Taken(m, if x == id then p else x, row.snapshot, row.installment);
      }
    }
  }

  lemma {:induction false} InsertedPlaces(plans: map<Id, Plan>, s: Id, terms: seq<Term>, ids: nat -> Id)
    requires InsertTerms(plans, s, terms, ids).Done? && UniquePlaces(plans)
    ensures var n := InsertTerms(plans, s, terms, ids).value;
      UniquePlaces(n) && PlanTotal(n, s) == PlanTotal(plans, s) + SumTerms(terms)
  {
    if terms != [] {
      var k := |terms| - 1;
      InsertedPlaces(plans, s, terms[..k], ids);
      var m := InsertTerms(plans, s, terms[..k], ids).value;
      PlanTotalAfter(m, ids(k), PlanOf(s, terms[k]), s);
      InsertedOne(m, ids(k), PlanOf(s, terms[k]));
    }
  }

  // ---------- other transactions touch the ledger

  /** Columns of a receivable that belong to the contract side. */
  predicate SameTerms(x: Receivable, y: Receivable) {
    x.plan == y.plan && x.snapshot == y.snapshot && x.customer == y.customer && x.due == y.due && x.original == y.original
  }

  /** Allocations, reversals and invoices change no contract column. */
  lemma LedgerKeepsContracts(con: ContractTables, ar: Ledger, n: Ledger)
    requires ContractInv(con, ar) && n.Keys == ar.Keys && forall r :: r in ar ==> SameTerms(ar[r], n[r])
    ensures ContractInv(con, n)
  {
    assert forall r, p :: OwedOn(n, r, p) <==> OwedOn(ar, r, p);
    forall p | p in con.plans ensures PlanSound(con, n, p) { assert PlanSound(con, ar, p); }
    forall r | r in n ensures ReceivableSound(con, n, r) { assert ReceivableSound(con, ar, r); }
  }

  // ---------- plans edited by users

  /** One plan row changes in place, or is added where no plan was. */
  predicate PlanStep(con: ContractTables, n: ContractTables, p: Id) {
    && p in n.plans && n == con.(plans := con.plans[p := n.plans[p]])
    && var row := n.plans[p];
    && row.snapshot in con.snapshots && con.snapshots[row.snapshot].status == Effective
    && 1 <= row.installment && 0 < row.amount && row.status != PlanCancelled
    && (if p in con.plans then con.plans[p].snapshot == row.snapshot && con.plans[p].installment == row.installment
        else forall x :: x in con.plans ==> !Taken(con.plans, x, row.snapshot, row.installment))
  }

  lemma PlanStepPlaces(con: ContractTables, n: ContractTables, ar: Ledger, p: Id)
    requires ContractInv(con, ar) && PlanStep(con, n, p)
    ensures UniquePlaces(n.plans)
  {
    UniqueIn(con, ar);
    if p !in con.plans {
      InsertedOne(con.plans, p, n.plans[p]);
    } else {
      forall x, y | y in n.plans && SamePlace(n.plans, x, y) ensures x == y { assert SamePlace(con.plans, x, y); }
    }
  }

  /** A plan step that stays within the contract amount, with the ledger that goes with it. */
  lemma PlanStepKeeps(con: ContractTables, n: ContractTables, ar: Ledger, nar: Ledger, p: Id)
    requires ContractInv(con, ar) && PlanStep(con, n, p)
    requires PlanTotal(n.plans, n.plans[p].snapshot) <= con.snapshots[n.plans[p].snapshot].amount
    requires forall x {:trigger PlanSound(n, nar, x)} :: x in n.plans ==>
      (n.plans[x].status == PlanConfirmed <==> exists r :: OwedOn(nar, r, x))
    requires forall r {:trigger ReceivableSound(n, nar, r)} :: r in nar ==> ReceivableSound(n, nar, r)
    ensures ContractInv(n, nar)
  {
    forall c | c in n.streams ensures StreamSound(n, c) {
      assert StreamSound(con, c);
      var s :| EffectiveFor(con, s, c);
      assert EffectiveFor(n, s, c);
    }
    forall s | s in n.snapshots ensures SnapshotSound(n, s) { assert SnapshotSound(con, s); }
    forall h | h in n.holds ensures HoldSound(n, h) { assert HoldSound(con, h); }
    PlanStepPlaces(con, n, ar, p);
    forall x | x in n.plans ensures PlanSound(n, nar, x) {
      if x != p { assert PlanSound(con, ar, x); }
    }
    forall s | s in n.snapshots ensures TotalSound(n, s) {
      assert TotalSound(con, s);
      PlanTotalAfter(con.plans, p, n.plans[p], s);
      if h :| HeldFor(con, h, s) { assert HeldFor(n, h, s); }
    }
  }

  lemma CreateManualPlanKeeps(b: Books, i: ManualInput)
    requires ContractInv(b.con, b.ar) && CreateManualPlan(b, i).Done?
    ensures var n := CreateManualPlan(b, i).value; ContractInv(n.con, n.ar)
  {
    var n := CreateManualPlan(b, i).value.con;
    PlanTotalAfter(b.con.plans, i.id, n.plans[i.id], i.snapshot);
    forall r | r in b.ar ensures ReceivableSound(n, b.ar, r) { assert ReceivableSound(b.con, b.ar, r); }
    forall x | x in n.plans ensures n.plans[x].status == PlanConfirmed <==> exists r :: OwedOn(b.ar, r, x) {
      if x != i.id {
        assert PlanSound(b.con, b.ar, x);
      } else {
        NotOwed(b.con, b.ar, x);
      }
    }
    PlanStepKeeps(b.con, n, b.ar, b.ar, i.id);
  }

  lemma ConfirmPlanKeeps(b: Books, i: PlanInput, receivable: Id)
    requires ContractInv(b.con, b.ar) && ConfirmPlan(b, i, receivable).Done?
    ensures var n := ConfirmPlan(b, i, receivable).value; ContractInv(n.con, n.ar)
  {
    var n := ConfirmPlan(b, i, receivable).value;
    assert PlanSound(b.con, b.ar, i.id);
    PlanTotalAfter(b.con.plans, i.id, n.con.plans[i.id], b.con.plans[i.id].snapshot);
    forall r, p ensures OwedOn(n.ar, r, p) <==> OwedOn(b.ar, r, p) || (r == receivable && p == i.id) {}
    forall r | r in n.ar ensures ReceivableSound(n.con, n.ar, r) {
      if r != receivable {
        assert ReceivableSound(b.con, b.ar, r);
        assert OwedOn(b.ar, r, b.ar[r].plan);
      }
    }
    forall x | x in n.con.plans ensures n.con.plans[x].status == PlanConfirmed <==> exists r :: OwedOn(n.ar, r, x) {
      if x != i.id {
        assert PlanSound(b.con, b.ar, x);
        if r :| OwedOn(b.ar, r, x) { assert OwedOn(n.ar, r, x); }
      } else {
        assert OwedOn(n.ar, receivable, x);
      }
    }
    PlanStepKeeps(b.con, n.con, b.ar, n.ar, i.id);
  }

  lemma AdjustPlanKeeps(b: Books, i: PlanInput)
    requires ContractInv(b.con, b.ar) && AdjustPlan(b, i).Done?
    ensures var n := AdjustPlan(b, i).value; ContractInv(n.con, n.ar)
  {
    var n := AdjustPlan(b, i).value;
    var owed := ReceivableOf(b.ar, i.id).value;
    assert PlanSound(b.con, b.ar, i.id);
    PlanTotalAfter(b.con.plans, i.id, n.con.plans[i.id], b.con.plans[i.id].snapshot);
    assert forall r, p :: OwedOn(n.ar, r, p) <==> OwedOn(b.ar, r, p);
    forall r | r in n.ar ensures ReceivableSound(n.con, n.ar, r) {
      assert ReceivableSound(b.con, b.ar, r);
      assert OwedOn(b.ar, owed, i.id);
    }
    forall x | x in n.con.plans ensures n.con.plans[x].status == PlanConfirmed <==> exists r :: OwedOn(n.ar, r, x) {
      assert PlanSound(b.con, b.ar, x);
    }
    PlanStepKeeps(b.con, n.con, b.ar, n.ar, i.id);
  }

  lemma DunKeeps(b: Books, p: Id)
    requires ContractInv(b.con, b.ar) && Dun(b, p).Done?
    ensures var n := Dun(b, p).value; ContractInv(n.con, n.ar)
  {
    var con, n := b.con, Dun(b, p).value.con;
    forall c | c in n.streams ensures StreamSound(n, c) {
      assert StreamSound(con, c);
      var s :| EffectiveFor(con, s, c);
      assert EffectiveFor(n, s, c);
    }
    forall s | s in n.snapshots ensures SnapshotSound(n, s) { assert SnapshotSound(con, s); }
    forall x | x in n.plans ensures PlanSound(n, b.ar, x) { assert PlanSound(con, b.ar, x); }
    forall r | r in b.ar ensures ReceivableSound(n, b.ar, r) { assert ReceivableSound(con, b.ar, r); }
    forall h | h in n.holds ensures HoldSound(n, h) { assert HoldSound(con, h); }
    forall s | s in n.snapshots ensures TotalSound(n, s) {
      assert TotalSound(con, s);
      if h :| HeldFor(con, h, s) { assert HeldFor(n, h, s); }
    }
  }

  // ---------- contract events

  /** A new effective snapshot for a contract: streams and snapshots stay sound. */
  lemma NewSnapshotKeeps(con: ContractTables, n: ContractTables, e: ContractEvent, was: set<Id>)
    requires forall c {:trigger StreamSound(con, c)} :: c in con.streams ==> StreamSound(con, c)
    requires forall s {:trigger SnapshotSound(con, s)} :: s in con.snapshots ==> SnapshotSound(con, s)
    requires e.snapshot !in con.snapshots && 0 < e.amount && 1 <= e.version
    requires e.contract in con.streams ==> con.streams[e.contract] < e.version
    requires n.streams == con.streams[e.contract := e.version]
    requires e.snapshot in n.snapshots && n.snapshots[e.snapshot] == SnapshotOf(e)
    requires n.snapshots.Keys == con.snapshots.Keys + {e.snapshot}
    requires forall s :: s in con.snapshots ==>
      n.snapshots[s] == (if s in was then con.snapshots[s].(status := Superseded) else con.snapshots[s])
    requires forall s :: s in con.snapshots ==> (s in was <==> EffectiveFor(con, s, e.contract))
    ensures forall c {:trigger StreamSound(n, c)} :: c in n.streams ==> StreamSound(n, c)
    ensures forall s {:trigger SnapshotSound(n, s)} :: s in n.snapshots ==> SnapshotSound(n, s)
  {
    forall c | c in n.streams ensures StreamSound(n, c) {
      if c == e.contract {
        assert EffectiveFor(n, e.snapshot, c);
      } else {
        assert StreamSound(con, c);
        var s :| EffectiveFor(con, s, c);
        assert EffectiveFor(n, s, c);
      }
    }
    forall s | s in n.snapshots ensures SnapshotSound(n, s) {
      if s != e.snapshot { assert SnapshotSound(con, s); }
      var row := n.snapshots[s];
      forall x | x in n.snapshots && row.contract.Some? && n.snapshots[x].contract == row.contract && n.snapshots[x].version == row.version ensures x == s {
        if x != e.snapshot { assert SnapshotSound(con, x); }
      }
    }
  }

  /** Inserting terms under an effective snapshot keeps plans and receivables sound. */
  lemma InsertionKeeps(n: ContractTables, m: map<Id, Plan>, ar: Ledger, s: Id, terms: seq<Term>, ids: nat -> Id)
    requires InsertTerms(m, s, terms, ids) == Done(n.plans) && UniquePlaces(m)
    requires s in n.snapshots && n.snapshots[s].status == Effective
    requires var base := n.(plans := m);
      && (forall p {:trigger PlanSound(base, ar, p)} :: p in m ==> PlanSound(base, ar, p))
      && (forall r {:trigger ReceivableSound(base, ar, r)} :: r in ar ==> ReceivableSound(base, ar, r))
    ensures forall p {:trigger PlanSound(n, ar, p)} :: p in n.plans ==> PlanSound(n, ar, p)
    ensures forall r {:trigger ReceivableSound(n, ar, r)} :: r in ar ==> ReceivableSound(n, ar, r)
  {
    var base := n.(plans := m);
    InsertedRows(m, s, terms, ids);
    InsertedPlaces(m, s, terms, ids);
    forall r | r in ar ensures ReceivableSound(n, ar, r) { assert ReceivableSound(base, ar, r); }
    forall p | p in n.plans ensures PlanSound(n, ar, p) {
      if p in m {
        assert PlanSound(base, ar, p);
      } else {
        assert FromTerm(n.plans[p], s, terms);
        forall r ensures !OwedOn(ar, r, p) { if r in ar { assert ReceivableSound(base, ar, r); } }
      }
      forall x | SamePlace(n.plans, x, p) ensures x == p {}
    }
  }

  lemma FirstVersionKeeps(b: Books, e: ContractEvent)
    requires ContractInv(b.con, b.ar) && FirstVersion(b, e).Done?
    requires e.contract !in b.con.streams && 0 < e.amount && 1 <= e.version
    ensures var n := FirstVersion(b, e).value; ContractInv(n.con, n.ar)
    ensures var n := FirstVersion(b, e).value; PlanTotal(n.con.plans, e.snapshot) == e.amount
  {
    var con, n := b.con, FirstVersion(b, e).value.con;
    UniqueIn(con, b.ar);
    forall s | s in con.snapshots ensures !EffectiveFor(con, s, e.contract) { assert SnapshotSound(con, s); }
    NewSnapshotKeeps(con, n, e, {});
    var base := n.(plans := con.plans);
    forall p | p in con.plans ensures PlanSound(base, b.ar, p) { assert PlanSound(con, b.ar, p); }
    forall r | r in b.ar ensures ReceivableSound(base, b.ar, r) { assert ReceivableSound(con, b.ar, r); }
    InsertionKeeps(n, con.plans, b.ar, e.snapshot, e.terms, e.ids);
    forall h | h in n.holds ensures HoldSound(n, h) { assert HoldSound(con, h); }
    NewPlansTotal(con, n, b.ar, e.snapshot, e.terms, e.ids);
  }

  /** A new snapshot and the plans of its terms: every total stays sound, and the new one is exact. */
  lemma NewPlansTotal(con: ContractTables, n: ContractTables, ar: Ledger, s: Id, terms: seq<Term>, ids: nat -> Id)
    requires ContractInv(con, ar) && s !in con.snapshots && InsertTerms(con.plans, s, terms, ids) == Done(n.plans)
    requires s in n.snapshots && n.snapshots == con.snapshots[s := n.snapshots[s]] && n.holds == con.holds && n.snapshots[s].amount == SumTerms(terms)
    ensures forall x {:trigger TotalSound(n, x)} :: x in n.snapshots ==> TotalSound(n, x)
    ensures PlanTotal(n.plans, s) == SumTerms(terms)
  {
    forall p | p in con.plans ensures con.plans[p].snapshot != s { assert PlanSound(con, ar, p); }
    EmptyTotal(con.plans, s);
    UniqueIn(con, ar);
    InsertedRows(con.plans, s, terms, ids);
    InsertedPlaces(con.plans, s, terms, ids);
    forall x | x in n.snapshots ensures TotalSound(n, x) {
      if x != s {
        assert TotalSound(con, x);
        PlanTotalSame(con.plans, n.plans, x);
        if h :| HeldFor(con, h, x) { assert HeldFor(n, h, x); }
      }
    }
  }

  // ---------- local baselines

  /** Snapshots without a contract leave the streams alone. */
  lemma StreamsStay(con: ContractTables, n: ContractTables)
    requires forall c {:trigger StreamSound(con, c)} :: c in con.streams ==> StreamSound(con, c)
    requires n.streams == con.streams && forall s, c :: EffectiveFor(con, s, c) ==> EffectiveFor(n, s, c)
    ensures forall c {:trigger StreamSound(n, c)} :: c in n.streams ==> StreamSound(n, c)
  {
    forall c | c in n.streams ensures StreamSound(n, c) {
      assert StreamSound(con, c);
      var s :| EffectiveFor(con, s, c);
      assert EffectiveFor(n, s, c);
    }
  }

  /** A local baseline is planned to its amount. */
  lemma CreateNativeKeeps(b: Books, i: NativeInput)
    requires ContractInv(b.con, b.ar) && CreateNative(b, i).Done?
    ensures var n := CreateNative(b, i).value; ContractInv(n.con, n.ar) && PlanTotal(n.con.plans, i.id) == i.amount
  {
    var con, n := b.con, CreateNative(b, i).value.con;
    UniqueIn(con, b.ar);
    StreamsStay(con, n);
    forall s | s in n.snapshots ensures SnapshotSound(n, s) { if s != i.id { assert SnapshotSound(con, s); } }
    var base := n.(plans := con.plans);
    forall p | p in con.plans ensures PlanSound(base, b.ar, p) { assert PlanSound(con, b.ar, p); }
    forall r | r in b.ar ensures ReceivableSound(base, b.ar, r) { assert ReceivableSound(con, b.ar, r); }
    InsertionKeeps(n, con.plans, b.ar, i.id, i.terms, i.ids);
    forall h | h in n.holds ensures HoldSound(n, h) { assert HoldSound(con, h); }
    NewPlansTotal(con, n, b.ar, i.id, i.terms, i.ids);
  }

  /** A voided baseline has no receivable, and all its plans are cancelled. */
  lemma VoidNativeKeeps(b: Books, s: Id, version: int)
    requires ContractInv(b.con, b.ar) && VoidNative(b, s, version).Done?
    ensures var n := VoidNative(b, s, version).value; ContractInv(n.con, n.ar)
  {
    var con, n := b.con, VoidNative(b, s, version).value.con;
    StreamsStay(con, n);
    forall x | x in n.snapshots ensures SnapshotSound(n, x) { assert SnapshotSound(con, x); }
    forall p | p in n.plans ensures PlanSound(n, b.ar, p) {
      assert PlanSound(con, b.ar, p);
      forall x | SamePlace(n.plans, x, p) ensures x == p { assert SamePlace(con.plans, x, p); }
    }
    forall r | r in b.ar ensures ReceivableSound(n, b.ar, r) { assert ReceivableSound(con, b.ar, r); }
    forall h | h in n.holds ensures HoldSound(n, h) { assert HoldSound(con, h); }
    forall x | x in n.snapshots ensures TotalSound(n, x) {
      assert TotalSound(con, x);
      PlanTotalSame(con.plans, n.plans, x);
      if h :| HeldFor(con, h, x) { assert HeldFor(n, h, x); }
    }
  }

  lemma UniqueIn(con: ContractTables, ar: Ledger)
    requires ContractInv(con, ar)
    ensures UniquePlaces(con.plans)
  {
    forall x, p | p in con.plans && SamePlace(con.plans, x, p) ensures x == p { assert PlanSound(con, ar, p); }
  }

  lemma NotOwed(con: ContractTables, ar: Ledger, p: Id)
    requires ContractInv(con, ar) && p !in con.plans
    ensures forall r :: !OwedOn(ar, r, p)
  {
    forall r ensures !OwedOn(ar, r, p) { if r in ar { assert ReceivableSound(con, ar, r); } }
  }

  lemma EmptyTotal(plans: map<Id, Plan>, s: Id)
    requires Fresh(plans, s)
    ensures PlanTotal(plans, s) == 0
  {
    var none := map x | x in plans && plans[x].snapshot == s :: plans[x].amount;
    assert none.Keys == {};
    assert none == map[];
    TotalEmpty<Id>();
  }

  // ---------- revision merge

  predicate MatchesTerm(row: Plan, t: Term) {
    row.installment == t.installment && row.due == t.due && row.amount == t.amount
  }

  predicate Wanted(row: Plan, terms: seq<Term>) {
    exists t :: t in terms && MatchesTerm(row, t)
  }

  predicate PlannedUnder(plans: map<Id, Plan>, p: Id, s: Id, t: Term) {
    p in plans && plans[p].snapshot == s && MatchesTerm(plans[p], t)
  }

  ghost predicate IsPlanned(plans: map<Id, Plan>, s: Id, t: Term) {
    exists p :: PlannedUnder(plans, p, s, t)
  }

  /** The plans under a snapshot are the terms: nothing more, nothing less. */
  ghost predicate ExactlyTerms(plans: map<Id, Plan>, s: Id, terms: seq<Term>) {
    && (forall p :: p in plans && plans[p].snapshot == s ==> Wanted(plans[p], terms))
    && (forall t :: t in terms ==> IsPlanned(plans, s, t))
  }

  /** Taking away the plan of the last term leaves the plans of the others. */
  lemma WithoutLast(plans: map<Id, Plan>, s: Id, terms: seq<Term>, p: Id)
    requires UniquePlaces(plans) && NormalTerms(terms) && ExactlyTerms(plans, s, terms)
    requires terms != [] && PlannedUnder(plans, p, s, terms[|terms| - 1])
    ensures UniquePlaces(plans - {p}) && ExactlyTerms(plans - {p}, s, terms[..|terms| - 1])
  {
    var k, rest := |terms| - 1, plans - {p};
    var first := terms[..k];
    assert terms == first + [terms[k]];
    forall x | x in rest && rest[x].snapshot == s ensures Wanted(rest[x], first) {
      assert Wanted(plans[x], terms);
      var t :| t in terms && MatchesTerm(plans[x], t);
      assert SamePlace(plans, x, p) ==> x == p;
      assert t in first;
    }
    forall t | t in first ensures IsPlanned(rest, s, t) {
      assert IsPlanned(plans, s, t);
      var x :| PlannedUnder(plans, x, s, t);
      assert PlannedUnder(rest, x, s, t);
    }
    forall x, y | y in rest && SamePlace(rest, x, y) ensures x == y { assert SamePlace(plans, x, y); }
  }

  lemma {:induction false} ExactTotal(plans: map<Id, Plan>, s: Id, terms: seq<Term>)
    requires UniquePlaces(plans) && NormalTerms(terms) && ExactlyTerms(plans, s, terms)
    ensures PlanTotal(plans, s) == SumTerms(terms)
  {
    if terms == [] {
      EmptyTotal(plans, s);
    } else {
      var k := |terms| - 1;
      assert IsPlanned(plans, s, terms[k]);
      var p :| PlannedUnder(plans, p, s, terms[k]);
      var rest := plans - {p};
      assert plans == rest[p := plans[p]];
      PlanTotalAfter(rest, p, plans[p], s);
      WithoutLast(plans, s, terms, p);
      ExactTotal(rest, s, terms[..k]);
    }
  }

  lemma {:induction false} NewTermsAre(plans: map<Id, Plan>, s: Id, terms: seq<Term>, t: Term)
    ensures t in NewTerms(plans, s, terms) <==> t in terms && !exists p :: Taken(plans, p, s, t.installment)
  {
    if terms != [] {
      var k := |terms| - 1;
      NewTermsAre(plans, s, terms[..k], t);
      assert terms == terms[..k] + [terms[k]];
    }
  }

  /** Where the rows of the merged plan table come from. */
  lemma MergedRow(b: Books, prior: Id, e: ContractEvent, p: Id)
    requires ContractInv(b.con, b.ar) && prior in b.con.snapshots && Merge(b, prior, e).Done?
    ensures var n := Merge(b, prior, e).value.con.plans;
      p in n && n[p].snapshot == e.snapshot ==>
        || (p in b.con.plans && b.con.plans[p].snapshot == prior && FateOf(b, p, e.terms) != Removed
            && n[p] == MovePlan(b.con.plans[p], e.snapshot, FateOf(b, p, e.terms)))
        || FromTerm(n[p], e.snapshot, e.terms)
  {
    var m := MovedPlans(b, prior, e);
    var added := NewTerms(b.con.plans, prior, e.terms);
    InsertedRows(m, e.snapshot, added, e.ids);
    var n := Merge(b, prior, e).value.con.plans;
    if p in n && n[p].snapshot == e.snapshot {
      if p in m {
        assert PlanSound(b.con, b.ar, p);
      } else {
        var k :| 0 <= k < |added| && n[p] == PlanOf(e.snapshot, added[k]);
        NewTermsAre(b.con.plans, prior, e.terms, added[k]);
        var j :| 0 <= j < |e.terms| && e.terms[j] == added[k];
        assert n[p] == PlanOf(e.snapshot, e.terms[j]);
      }
    }
  }

  lemma MovedIsPlanned(b: Books, prior: Id, e: ContractEvent, k: nat, p: Id)
    requires NormalTerms(e.terms) && k < |e.terms| && Disputes(b, prior, e.terms) == {}
    requires Taken(b.con.plans, p, prior, e.terms[k].installment)
    ensures PlannedUnder(MovedPlans(b, prior, e), p, e.snapshot, e.terms[k])
  {
    assert TermFor(e.terms, e.terms[k].installment) == Some(e.terms[k]);
    NoDispute(b, prior, e.terms, p);
  }

  /** Every new term is planned under the new snapshot, unless a dispute keeps its old plan. */
  lemma TermIsPlanned(b: Books, prior: Id, e: ContractEvent, k: nat)
    requires ContractInv(b.con, b.ar) && prior in b.con.snapshots && Merge(b, prior, e).Done?
    requires NormalTerms(e.terms) && k < |e.terms| && Disputes(b, prior, e.terms) == {}
    ensures IsPlanned(Merge(b, prior, e).value.con.plans, e.snapshot, e.terms[k])
  {
    var t, n := e.terms[k], Merge(b, prior, e).value.con.plans;
    var added := NewTerms(b.con.plans, prior, e.terms);
    InsertedRows(MovedPlans(b, prior, e), e.snapshot, added, e.ids);
    if p :| Taken(b.con.plans, p, prior, t.installment) {
      MovedIsPlanned(b, prior, e, k, p);
      assert PlannedUnder(n, p, e.snapshot, t);
    } else {
      NewTermsAre(b.con.plans, prior, e.terms, t);
      var j :| 0 <= j < |added| && added[j] == t;
      assert PlannedUnder(n, e.ids(j), e.snapshot, t);
    }
  }

  lemma NoDispute(b: Books, prior: Id, terms: seq<Term>, p: Id)
    requires Disputes(b, prior, terms) == {} && p in b.con.plans && b.con.plans[p].snapshot == prior
    ensures FateOf(b, p, terms) != Disputed
  {
    assert p !in Disputes(b, prior, terms);
  }

  lemma MergedIsWanted(b: Books, prior: Id, e: ContractEvent, p: Id)
    requires ContractInv(b.con, b.ar) && prior in b.con.snapshots && Merge(b, prior, e).Done?
    requires NormalTerms(e.terms) && Disputes(b, prior, e.terms) == {}
    ensures var n := Merge(b, prior, e).value.con.plans; p in n && n[p].snapshot == e.snapshot ==> Wanted(n[p], e.terms)
  {
    var n := Merge(b, prior, e).value.con.plans;
    MergedRow(b, prior, e, p);
    if p in n && n[p].snapshot == e.snapshot {
      if FromTerm(n[p], e.snapshot, e.terms) {
        var k :| 0 <= k < |e.terms| && n[p] == PlanOf(e.snapshot, e.terms[k]);
        assert MatchesTerm(n[p], e.terms[k]);
      } else {
        NoDispute(b, prior, e.terms, p);
        assert MatchesTerm(n[p], TermFor(e.terms, b.con.plans[p].installment).value);
      }
    }
  }

  /** If no difference is held, the plans under the new snapshot are exactly the new terms
      and add up to the new contract amount. */
  lemma MergeIsExact(b: Books, prior: Id, e: ContractEvent)
    requires ContractInv(b.con, b.ar) && prior in b.con.snapshots && Merge(b, prior, e).Done?
    requires NormalTerms(e.terms) && SumTerms(e.terms) == e.amount && Disputes(b, prior, e.terms) == {}
    ensures var n := Merge(b, prior, e).value.con;
      ExactlyTerms(n.plans, e.snapshot, e.terms) && PlanTotal(n.plans, e.snapshot) == e.amount
  {
    var n := Merge(b, prior, e).value.con.plans;
    forall p | p in n && n[p].snapshot == e.snapshot ensures Wanted(n[p], e.terms) {
      MergedIsWanted(b, prior, e, p);
    }
    forall t | t in e.terms ensures IsPlanned(n, e.snapshot, t) {
      var k :| 0 <= k < |e.terms| && e.terms[k] == t;
      TermIsPlanned(b, prior, e, k);
    }
    MovedPlaces(b, prior, e);
    InsertedPlaces(MovedPlans(b, prior, e), e.snapshot, NewTerms(b.con.plans, prior, e.terms), e.ids);
    ExactTotal(n, e.snapshot, e.terms);
  }

  lemma MovedPlaces(b: Books, prior: Id, e: ContractEvent)
    requires ContractInv(b.con, b.ar) && prior in b.con.snapshots && e.snapshot !in b.con.snapshots
    ensures UniquePlaces(MovedPlans(b, prior, e))
  {
    var m := MovedPlans(b, prior, e);
    forall x, p | p in m && SamePlace(m, x, p) ensures x == p {
      assert PlanSound(b.con, b.ar, x) && PlanSound(b.con, b.ar, p);
      assert SamePlace(b.con.plans, x, p);
    }
  }

  /** The moved plans and receivables, before the new terms are added. */
  lemma MovedPlansSound(b: Books, prior: Id, e: ContractEvent, base: ContractTables, ar: Ledger)
    requires ContractInv(b.con, b.ar) && prior in b.con.snapshots && b.con.snapshots[prior].status == Effective && e.snapshot !in b.con.snapshots
    requires base.plans == MovedPlans(b, prior, e) && ar == MovedLedger(b, prior, e)
    requires e.snapshot in base.snapshots && base.snapshots[e.snapshot] == SnapshotOf(e)
    requires forall s :: s in b.con.snapshots && s != prior ==> s in base.snapshots && base.snapshots[s] == b.con.snapshots[s]
    requires NormalTerms(e.terms)
    ensures forall p {:trigger PlanSound(base, ar, p)} :: p in base.plans ==> PlanSound(base, ar, p)
  {
    MovedPlaces(b, prior, e);
    forall p | p in base.plans ensures PlanSound(base, ar, p) {
      assert PlanSound(b.con, b.ar, p);
      assert forall r :: OwedOn(ar, r, p) <==> OwedOn(b.ar, r, p);
    }
  }

  lemma MovedLedgerSound(b: Books, prior: Id, e: ContractEvent, base: ContractTables, ar: Ledger)
    requires ContractInv(b.con, b.ar) && prior in b.con.snapshots && e.snapshot !in b.con.snapshots
    requires base.plans == MovedPlans(b, prior, e) && ar == MovedLedger(b, prior, e)
    requires e.snapshot in base.snapshots && base.snapshots[e.snapshot] == SnapshotOf(e)
    requires forall s :: s in b.con.snapshots && s != prior ==> s in base.snapshots && base.snapshots[s] == b.con.snapshots[s]
    ensures forall r {:trigger ReceivableSound(base, ar, r)} :: r in ar ==> ReceivableSound(base, ar, r)
  {
    forall r | r in ar ensures ReceivableSound(base, ar, r) {
      assert ReceivableSound(b.con, b.ar, r);
      forall x | OwedOn(ar, x, ar[r].plan) ensures x == r { assert OwedOn(b.ar, x, b.ar[r].plan); }
    }
  }

  lemma RegisterHoldAdds(con: ContractTables, id: Id, row: Hold)
    requires forall h {:trigger HoldSound(con, h)} :: h in con.holds ==> HoldSound(con, h)
    requires row.event !in con.events && RegisterHold(con.holds, id, row).Done?
    ensures id !in con.holds && RegisterHold(con.holds, id, row).value == con.holds[id := row]
  {
    forall h | h in con.holds ensures !SameHold(con.holds, h, row.event, row.reason) { assert HoldSound(con, h); }
  }

  lemma MergeTotals(b: Books, prior: Id, e: ContractEvent)
    requires ContractInv(b.con, b.ar) && prior in b.con.snapshots && Merge(b, prior, e).Done?
    requires NormalTerms(e.terms) && SumTerms(e.terms) == e.amount && e.event !in b.con.events
    ensures var n := Merge(b, prior, e).value.con; forall s {:trigger TotalSound(n, s)} :: s in n.snapshots ==> TotalSound(n, s)
  {
    var con, n := b.con, Merge(b, prior, e).value.con;
    if Disputes(b, prior, e.terms) == {} {
      MergeIsExact(b, prior, e);
    } else {
      RegisterHoldAdds(con, e.hold, DisputeHold(b, prior, e));
      assert HeldFor(n, e.hold, e.snapshot);
    }
    forall s | s in n.snapshots ensures TotalSound(n, s) {
      if s != e.snapshot && s != prior {
        assert TotalSound(con, s);
        OtherPlansStay(b, prior, e, s);
        if h :| HeldFor(con, h, s) {
          assert HeldFor(n, h, s);
        }
      }
    }
  }

  lemma OtherPlansStay(b: Books, prior: Id, e: ContractEvent, s: Id)
    requires ContractInv(b.con, b.ar) && prior in b.con.snapshots && Merge(b, prior, e).Done?
    requires s != prior && s != e.snapshot
    ensures PlanTotal(Merge(b, prior, e).value.con.plans, s) == PlanTotal(b.con.plans, s)
  {
    var m := MovedPlans(b, prior, e);
    InsertedRows(m, e.snapshot, NewTerms(b.con.plans, prior, e.terms), e.ids);
    PlanTotalSame(b.con.plans, Merge(b, prior, e).value.con.plans, s);
  }

  lemma MergeKeeps(b: Books, prior: Id, e: ContractEvent)
    requires ContractInv(b.con, b.ar) && CurrentFor(b.con, prior, e.contract) && Merge(b, prior, e).Done?
    requires NormalTerms(e.terms) && SumTerms(e.terms) == e.amount && e.event !in b.con.events && 0 < e.amount
    requires b.con.streams[e.contract] < e.version && 1 <= e.version
    ensures var n := Merge(b, prior, e).value; ContractInv(n.con, n.ar)
  {
    var con, n := b.con, Merge(b, prior, e).value;
    forall s | s in con.snapshots ensures s == prior <==> EffectiveFor(con, s, e.contract) {
      assert SnapshotSound(con, s) && SnapshotSound(con, prior);
    }
    NewSnapshotKeeps(con, n.con, e, {prior});
    var m := MovedPlans(b, prior, e);
    var base := n.con.(plans := m);
    MovedPlaces(b, prior, e);
    MovedPlansSound(b, prior, e, base, n.ar);
    MovedLedgerSound(b, prior, e, base, n.ar);
    InsertionKeeps(n.con, m, n.ar, e.snapshot, NewTerms(con.plans, prior, e.terms), e.ids);
    MergeTotals(b, prior, e);
    MergeHolds(b, prior, e);
  }

  lemma MergeHolds(b: Books, prior: Id, e: ContractEvent)
    requires ContractInv(b.con, b.ar) && prior in b.con.snapshots && Merge(b, prior, e).Done?
    ensures var n := Merge(b, prior, e).value.con; forall h {:trigger HoldSound(n, h)} :: h in n.holds ==> HoldSound(n, h)
  {
    var con, n := b.con, Merge(b, prior, e).value.con;
    forall h | h in n.holds ensures HoldSound(n, h) { assert h in con.holds ==> HoldSound(con, h); }
  }

  // ---------- what a revision leaves alone

  /** Money on a receivable pins its plan: whatever the event says, a plan with received,
      written-off, invoiced or reserved money keeps its amount and date. */
  lemma FactsPinPlan(b: Books, prior: Id, e: ContractEvent, p: Id)
    requires prior in b.con.snapshots && Merge(b, prior, e).Done?
    requires p in b.con.plans && HasFacts(b, p)
    ensures var n := Merge(b, prior, e).value;
      && p in n.con.plans && n.con.plans[p].amount == b.con.plans[p].amount && n.con.plans[p].due == b.con.plans[p].due
      && forall r :: OwedOn(b.ar, r, p) ==> r in n.ar && n.ar[r] == b.ar[r].(snapshot := n.ar[r].snapshot, customer := n.ar[r].customer)
  {
    InsertedRowsStay(b, prior, e);
    assert p in MovedPlans(b, prior, e);
  }

  lemma InsertedRowsStay(b: Books, prior: Id, e: ContractEvent)
    requires prior in b.con.snapshots && Merge(b, prior, e).Done?
    ensures var n := Merge(b, prior, e).value.con.plans;
      forall p :: p in MovedPlans(b, prior, e) ==> p in n && n[p] == MovedPlans(b, prior, e)[p]
  {
    InsertedRows(MovedPlans(b, prior, e), e.snapshot, NewTerms(b.con.plans, prior, e.terms), e.ids);
  }

  lemma IngestKeeps(b: Books, e: ContractEvent)
    requires ContractInv(b.con, b.ar) && Ingest(b, e).Done?
    ensures var n := Ingest(b, e).value; ContractInv(n.con, n.ar)
  {
    if e.event !in b.con.events {
      if e.contract !in b.con.streams {
        FirstVersionKeeps(b, e);
      } else if SumTerms(e.terms) != e.amount {
        MismatchKeeps(b, e);
      } else {
        var prior := CurrentOf(b.con, e.contract).value;
        MergeKeeps(b, prior, e);
      }
    }
  }

  /** A term-total mismatch changes no snapshot, plan, receivable or version. */
  lemma MismatchKeeps(b: Books, e: ContractEvent)
    requires ContractInv(b.con, b.ar) && Ingest(b, e).Done? && e.event !in b.con.events
    requires e.contract in b.con.streams && SumTerms(e.terms) != e.amount
    ensures var n := Ingest(b, e).value;
      && ContractInv(n.con, n.ar)
      && n == b.(con := b.con.(events := b.con.events + {e.event}, holds := n.con.holds))
      && HeldAsMismatch(n.con, e)
  {
    var con, n := b.con, Ingest(b, e).value.con;
    RegisterHoldAdds(con, e.hold, Hold(e.contract, e.event, None, TermTotalMismatch, {}));
    assert e.hold in n.holds;
    forall c | c in n.streams ensures StreamSound(n, c) {
      assert StreamSound(con, c);
      var s :| EffectiveFor(con, s, c);
      assert EffectiveFor(n, s, c);
    }
    forall s | s in n.snapshots ensures SnapshotSound(n, s) { assert SnapshotSound(con, s); }
    forall x | x in n.plans ensures PlanSound(n, b.ar, x) { assert PlanSound(con, b.ar, x); }
    forall r | r in b.ar ensures ReceivableSound(n, b.ar, r) { assert ReceivableSound(con, b.ar, r); }
    forall h | h in n.holds ensures HoldSound(n, h) { assert h in con.holds ==> HoldSound(con, h); }
    forall s | s in n.snapshots ensures TotalSound(n, s) {
      assert TotalSound(con, s);
      if h :| HeldFor(con, h, s) { assert HeldFor(n, h, s); }
    }
  }

  predicate HeldAsMismatch(con: ContractTables, e: ContractEvent) {
    e.hold in con.holds && con.holds[e.hold] == Hold(e.contract, e.event, None, TermTotalMismatch, {})
  }
}
