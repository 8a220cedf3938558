/** What an accepted contract revision leaves behind, plan by plan, said in terms of the tables before
    it and the new terms.  internal/service/contract_revision.go:247-376 */
module RevisionOutcomes {
  import opened Tables
  import opened Cash
  import opened Invoicing
  import opened Contracts
  import opened ContractProofs
  import opened Settlement
  import opened Revisions

  /** A later version of a known contract whose terms add up. */
  ghost predicate IsRevision(b: Books, e: ContractEvent) {
    && Inv(b) && e.event !in b.con.events
    && e.contract in b.con.streams && b.con.streams[e.contract] < e.version
    && NormalTerms(e.terms) && SumTerms(e.terms) == e.amount
  }

  /** A plan of the contract as it stands. */
  predicate InForce(b: Books, e: ContractEvent, p: Id) {
    p in b.con.plans && EffectiveFor(b.con, b.con.plans[p].snapshot, e.contract)
  }

  /** Money was received, written off, invoiced or reserved on the plan. */
  ghost predicate Bears(b: Books, p: Id) {
    exists r :: OwedOn(b.ar, r, p) && !MoneyFree(b, r)
  }

  /** A dunning case or a line of an invoice request refers to the plan. */
  ghost predicate Cited(b: Books, p: Id) {
    p in b.con.dunned || exists r, q :: OwedOn(b.ar, r, p) && DrawnBy(b, q, r)
  }

  predicate Dropped(b: Books, e: ContractEvent, p: Id)
    requires p in b.con.plans
  {
    forall t :: t in e.terms ==> t.installment != b.con.plans[p].installment
  }

  predicate Unchanged(b: Books, e: ContractEvent, p: Id)
    requires p in b.con.plans
  {
    exists t :: t in e.terms && t.installment == b.con.plans[p].installment && t.amount == b.con.plans[p].amount && t.due == b.con.plans[p].due
  }

  /** The new terms and the old plan cannot both stand: the plan bears money and its term is another or
      gone, or its term is gone while something refers to it. */
  ghost predicate Contested(b: Books, e: ContractEvent, p: Id) {
    && InForce(b, e, p)
    && ((Bears(b, p) && !Unchanged(b, e, p)) || (Dropped(b, e, p) && Cited(b, p)))
  }

  // ---------- the snapshot before

  lemma TermIs(terms: seq<Term>, t: Term)
    requires NormalTerms(terms) && t in terms
    ensures TermFor(terms, t.installment) == Some(t)
  {
    var k :| 0 <= k < |terms| && terms[k] == t;
    var found := TermFor(terms, t.installment);
    assert terms[k].installment == t.installment;
    var j :| 0 <= j < |terms| && terms[j] == found.value;
    assert j == k;
  }

  lemma PriorOf(b: Books, e: ContractEvent) returns (prior: Id)
    requires IsRevision(b, e) && Ingest(b, e).Done?
    ensures CurrentFor(b.con, prior, e.contract) && Ingest(b, e) == Merge(b, prior, e)
    ensures forall p :: p in b.con.plans ==> (InForce(b, e, p) <==> b.con.plans[p].snapshot == prior)
  {
    hide Merge;
    prior := CurrentOf(b.con, e.contract).value;
    forall p | p in b.con.plans ensures InForce(b, e, p) <==> b.con.plans[p].snapshot == prior {
      assert PlanSound(b.con, b.ar, p);
      assert SnapshotSound(b.con, b.con.plans[p].snapshot) && SnapshotSound(b.con, prior);
    }
  }

  lemma BearsIs(b: Books, p: Id)
    ensures Bears(b, p) <==> HasFacts(b, p)
    ensures Cited(b, p) <==> Referenced(b, p)
  {
    if r :| OwedOn(b.ar, r, p) && !MoneyFree(b, r) { assert HasFacts(b, p); }
    if HasFacts(b, p) {
      var r :| OwedOn(b.ar, r, p) && (b.ar[r].received != 0 || b.ar[r].writeOff != 0 || b.ar[r].invoiced != 0 || ReservedTotal(b.inv.requests, r) != 0);
      assert !MoneyFree(b, r);
    }
  }

  /** The fate of a plan, from the three questions. */
  lemma FateIs(b: Books, e: ContractEvent, p: Id)
    requires NormalTerms(e.terms) && p in b.con.plans
    ensures Dropped(b, e, p) <==> TermFor(e.terms, b.con.plans[p].installment).None?
    ensures FateOf(b, p, e.terms) ==
      if Dropped(b, e, p) then if Bears(b, p) || Cited(b, p) then Disputed else Removed
      else if Unchanged(b, e, p) then Carried
      else if Bears(b, p) then Disputed
      else Adjusted(TermFor(e.terms, b.con.plans[p].installment).value)
  {
    BearsIs(b, p);
    var found := TermFor(e.terms, b.con.plans[p].installment);
    if Unchanged(b, e, p) {
      var t :| t in e.terms && t.installment == b.con.plans[p].installment && t.amount == b.con.plans[p].amount && t.due == b.con.plans[p].due;
      TermIs(e.terms, t);
    }
    if found.None? { forall t | t in e.terms ensures t.installment != b.con.plans[p].installment {} }
  }

  // ---------- plan by plan

  /** A plan without money follows its term, and so does its receivable. */
  lemma PlanFollowsTerm(b: Books, e: ContractEvent, p: Id, t: Term)
    requires IsRevision(b, e) && Ingest(b, e).Done?
    requires InForce(b, e, p) && t in e.terms && t.installment == b.con.plans[p].installment && !Bears(b, p)
    ensures var n := Ingest(b, e).value;
      && p in n.con.plans && n.con.plans[p].snapshot == e.snapshot && n.con.plans[p].installment == t.installment
      && n.con.plans[p].amount == t.amount && n.con.plans[p].due == t.due && n.con.plans[p].status == b.con.plans[p].status
      && forall r :: OwedOn(b.ar, r, p) ==>
           && r in n.ar && n.ar[r].plan == p && n.ar[r].snapshot == e.snapshot && n.ar[r].customer == e.customer
           && n.ar[r].original == t.amount && n.ar[r].due == t.due && n.ar[r].open == t.amount && n.ar[r].received == 0
  {
    hide Ingest, Merge, ContractInv;
    var prior := PriorOf(b, e);
    forall r | OwedOn(b.ar, r, p) && MoneyFree(b, r) ensures b.ar[r].open == b.ar[r].original { assert ReceivableBalanced(b.cash, b.ar, r); }
    PlanMergesToTerm(b, prior, e, p, t);
  }

  lemma PlanMergesToTerm(b: Books, prior: Id, e: ContractEvent, p: Id, t: Term)
    requires ContractInv(b.con, b.ar) && NormalTerms(e.terms) && prior in b.con.snapshots && Merge(b, prior, e).Done?
    requires p in b.con.plans && b.con.plans[p].snapshot == prior && t in e.terms && t.installment == b.con.plans[p].installment && !Bears(b, p)
    requires forall r :: OwedOn(b.ar, r, p) ==> b.ar[r].open == b.ar[r].original
    ensures var n := Merge(b, prior, e).value;
      && p in n.con.plans && n.con.plans[p].snapshot == e.snapshot && n.con.plans[p].installment == t.installment
      && n.con.plans[p].amount == t.amount && n.con.plans[p].due == t.due && n.con.plans[p].status == b.con.plans[p].status
      && forall r :: OwedOn(b.ar, r, p) ==>
           && r in n.ar && n.ar[r].plan == p && n.ar[r].snapshot == e.snapshot && n.ar[r].customer == e.customer
           && n.ar[r].original == t.amount && n.ar[r].due == t.due && n.ar[r].open == t.amount && n.ar[r].received == 0
  {
    FateIs(b, e, p);
    TermIs(e.terms, t);
    InsertedRowsStay(b, prior, e);
    assert p in MovedPlans(b, prior, e);
    forall r | OwedOn(b.ar, r, p) ensures b.ar[r].received == 0 && b.ar[r].writeOff == 0 && ReceivableSound(b.con, b.ar, r) {
      assert MoneyFree(b, r);
    }
  }

  /** A plan that bears money keeps its amount, date and status; it moves to the new snapshot, and its
      receivable changes nothing but snapshot and customer. */
  lemma PlanWithMoneyStays(b: Books, e: ContractEvent, p: Id)
    requires IsRevision(b, e) && Ingest(b, e).Done? && InForce(b, e, p) && Bears(b, p)
    ensures var n := Ingest(b, e).value; StaysAsIs(b, n, e, p)
  {
    hide Ingest, Merge;
    var prior := PriorOf(b, e);
    MergedStays(b, prior, e, p);
  }

  /** Row of plan and receivable as before, under the new snapshot. */
  ghost predicate StaysAsIs(b: Books, n: Books, e: ContractEvent, p: Id)
    requires p in b.con.plans
  {
    && p in n.con.plans && n.con.plans[p] == b.con.plans[p].(snapshot := e.snapshot)
    && forall r :: OwedOn(b.ar, r, p) ==> r in n.ar && n.ar[r] == b.ar[r].(snapshot := e.snapshot, customer := e.customer)
  }

  lemma MergedStays(b: Books, prior: Id, e: ContractEvent, p: Id)
    requires NormalTerms(e.terms) && prior in b.con.snapshots && Merge(b, prior, e).Done?
    requires p in b.con.plans && b.con.plans[p].snapshot == prior && (Bears(b, p) || (Dropped(b, e, p) && Cited(b, p)) || Unchanged(b, e, p))
    ensures StaysAsIs(b, Merge(b, prior, e).value, e, p)
  {
    FateIs(b, e, p);
    InsertedRowsStay(b, prior, e);
    assert p in MovedPlans(b, prior, e);
  }

  /** A dropped plan that something refers to stays as it is. */
  lemma CitedPlanStays(b: Books, e: ContractEvent, p: Id)
    requires IsRevision(b, e) && Ingest(b, e).Done? && InForce(b, e, p) && Dropped(b, e, p) && Cited(b, p)
    ensures var n := Ingest(b, e).value; StaysAsIs(b, n, e, p)
  {
    hide Ingest, Merge;
    var prior := PriorOf(b, e);
    MergedStays(b, prior, e, p);
  }

  /** A dropped plan without money that nothing refers to is gone, and its receivable with it. */
  lemma DroppedPlanIsGone(b: Books, e: ContractEvent, p: Id)
    requires IsRevision(b, e) && Ingest(b, e).Done? && FreshKeys(b, e)
    requires InForce(b, e, p) && Dropped(b, e, p) && !Bears(b, p) && !Cited(b, p)
    ensures var n := Ingest(b, e).value; p !in n.con.plans && forall r :: OwedOn(b.ar, r, p) ==> r !in n.ar
  {
    hide Ingest, Merge;
    var prior := PriorOf(b, e);
    MergedDrops(b, prior, e, p);
  }

  lemma MergedDrops(b: Books, prior: Id, e: ContractEvent, p: Id)
    requires ContractInv(b.con, b.ar) && NormalTerms(e.terms) && prior in b.con.snapshots && Merge(b, prior, e).Done? && FreshKeys(b, e)
    requires p in b.con.plans && b.con.plans[p].snapshot == prior && Dropped(b, e, p) && !Bears(b, p) && !Cited(b, p)
    ensures var n := Merge(b, prior, e).value; p !in n.con.plans && forall r :: OwedOn(b.ar, r, p) ==> r !in n.ar
  {
    FateIs(b, e, p);
    var added := NewTerms(b.con.plans, prior, e.terms);
    NewTermsNormal(b.con.plans, prior, e.terms);
    forall k, x | 0 <= k < |added| ensures !Taken(MovedPlans(b, prior, e), x, e.snapshot, added[k].installment) {
      NewPlacesFree(b, prior, e, k, x);
    }
    InsertSucceeds(MovedPlans(b, prior, e), e.snapshot, added, e.ids);
    assert p !in MovedPlans(b, prior, e);
  }

  /** A term without an old plan gets a pending plan of its own. */
  lemma NewTermIsPlanned(b: Books, e: ContractEvent, t: Term)
    requires IsRevision(b, e) && Ingest(b, e).Done? && t in e.terms
    requires forall p :: InForce(b, e, p) ==> b.con.plans[p].installment != t.installment
    ensures var n := Ingest(b, e).value.con.plans; exists p :: PlannedAs(n, p, e.snapshot, t)
  {
    hide Ingest, Merge;
    var prior := PriorOf(b, e);
    MergedPlans(b, prior, e, t);
  }

  lemma MergedPlans(b: Books, prior: Id, e: ContractEvent, t: Term)
    requires prior in b.con.snapshots && Merge(b, prior, e).Done? && t in e.terms
    requires forall p :: p in b.con.plans && b.con.plans[p].snapshot == prior ==> b.con.plans[p].installment != t.installment
    ensures var n := Merge(b, prior, e).value.con.plans; exists p :: PlannedAs(n, p, e.snapshot, t)
  {
    var added := NewTerms(b.con.plans, prior, e.terms);
    NewTermsAre(b.con.plans, prior, e.terms, t);
    var k :| 0 <= k < |added| && added[k] == t;
    InsertedRows(MovedPlans(b, prior, e), e.snapshot, added, e.ids);
    var n := Merge(b, prior, e).value.con.plans;
    assert PlannedAs(n, e.ids(k), e.snapshot, t);
  }

  // ---------- the hold

  /** The difference is held for review if and only if some plan is contested, with exactly the contested
      installments; no other hold changes. */
  lemma HeldIffContested(b: Books, e: ContractEvent)
    requires IsRevision(b, e) && Ingest(b, e).Done?
    ensures var n := Ingest(b, e).value.con;
      if exists p :: Contested(b, e, p) then
        && e.hold !in b.con.holds && e.hold in n.holds && n.holds == b.con.holds[e.hold := n.holds[e.hold]]
        && n.holds[e.hold].contract == e.contract && n.holds[e.hold].event == e.event
        && n.holds[e.hold].snapshot == Some(e.snapshot) && n.holds[e.hold].reason == PlanDifference
        && forall k :: k in n.holds[e.hold].installments <==> exists p :: Contested(b, e, p) && b.con.plans[p].installment == k
      else n.holds == b.con.holds
  {
    hide Ingest, Merge, Contested;
    var prior := PriorOf(b, e);
    forall p ensures p in Disputes(b, prior, e.terms) <==> Contested(b, e, p) {
      if p in b.con.plans { ContestedIs(b, prior, e, p); } else { NotContested(b, e, p); }
    }
    MergedHold(b, prior, e);
    if p :| Contested(b, e, p) { assert p in Disputes(b, prior, e.terms); }
  }

  lemma NotContested(b: Books, e: ContractEvent, p: Id)
    requires p !in b.con.plans
    ensures !Contested(b, e, p)
  {
  }

  lemma ContestedIs(b: Books, prior: Id, e: ContractEvent, p: Id)
    requires NormalTerms(e.terms) && p in b.con.plans && (InForce(b, e, p) <==> b.con.plans[p].snapshot == prior)
    ensures p in Disputes(b, prior, e.terms) <==> Contested(b, e, p)
  {
    FateIs(b, e, p);
  }

  lemma MergedHold(b: Books, prior: Id, e: ContractEvent)
    requires ContractInv(b.con, b.ar) && prior in b.con.snapshots && e.event !in b.con.events && Merge(b, prior, e).Done?
    ensures var n := Merge(b, prior, e).value.con; var disputes := Disputes(b, prior, e.terms);
      if disputes != {} then
        && e.hold !in b.con.holds
        && n.holds == b.con.holds[e.hold := Hold(e.contract, e.event, Some(e.snapshot), PlanDifference, set p | p in disputes :: b.con.plans[p].installment)]
      else n.holds == b.con.holds
  {
    if Disputes(b, prior, e.terms) != {} { RegisterHoldAdds(b.con, e.hold, DisputeHold(b, prior, e)); }
  }

  // ---------- everything else

  /** The new version stands alone; plans and receivables of other contracts, and all cash and invoice
      rows, are untouched. */
  lemma OthersStay(b: Books, e: ContractEvent)
    requires IsRevision(b, e) && Ingest(b, e).Done?
    ensures var n := Ingest(b, e).value;
      && n.cash == b.cash && n.inv == b.inv && n.con.dunned == b.con.dunned
      && n.con.streams == b.con.streams[e.contract := e.version] && n.con.events == b.con.events + {e.event}
      && EffectiveFor(n.con, e.snapshot, e.contract) && n.con.snapshots[e.snapshot].amount == e.amount
      && (forall p :: p in b.con.plans && !InForce(b, e, p) ==> p in n.con.plans && n.con.plans[p] == b.con.plans[p])
      && (forall r :: r in b.ar && !InForce(b, e, b.ar[r].plan) ==> r in n.ar && n.ar[r] == b.ar[r])
      && n.ar.Keys <= b.ar.Keys
  {
    hide Ingest, Merge;
    var prior := PriorOf(b, e);
    forall r | r in b.ar ensures b.ar[r].plan in b.con.plans { assert ReceivableSound(b.con, b.ar, r); }
    MergeLeavesOthers(b, prior, e);
  }

  lemma MergeLeavesOthers(b: Books, prior: Id, e: ContractEvent)
    requires prior in b.con.snapshots && Merge(b, prior, e).Done?
    ensures var n := Merge(b, prior, e).value;
      && n.cash == b.cash && n.inv == b.inv && n.con.dunned == b.con.dunned
      && n.con.streams == b.con.streams[e.contract := e.version] && n.con.events == b.con.events + {e.event}
      && EffectiveFor(n.con, e.snapshot, e.contract) && n.con.snapshots[e.snapshot].amount == e.amount
      && (forall p :: p in b.con.plans && b.con.plans[p].snapshot != prior ==> p in n.con.plans && n.con.plans[p] == b.con.plans[p])
      && (forall r :: r in b.ar && (b.ar[r].plan in b.con.plans ==> b.con.plans[b.ar[r].plan].snapshot != prior) ==> r in n.ar && n.ar[r] == b.ar[r])
      && n.ar.Keys <= b.ar.Keys
  {
    InsertedRowsStay(b, prior, e);
    forall p | p in b.con.plans && b.con.plans[p].snapshot != prior ensures p in MovedPlans(b, prior, e) {}
  }

  // ---------- the first version

  lemma InsertedAreNormal(s: Id, plans: map<Id, Plan>, terms: seq<Term>, ids: nat -> Id)
    requires UniquePlaces(plans) && InsertTerms(plans, s, terms, ids).Done?
    requires forall j: nat, k: nat :: j < k < |terms| ==> ids(j) != ids(k)
    ensures NormalTerms(terms)
  {
    InsertedRows(plans, s, terms, ids);
    InsertedPlaces(plans, s, terms, ids);
    var n := InsertTerms(plans, s, terms, ids).value;
    forall j, k | 0 <= j < k < |terms| ensures terms[j].installment != terms[k].installment {
      var x, y := ids(j), ids(k);
      assert x != y && x in n && y in n;
      assert !SamePlace(n, x, y);
    }
  }

  /** The first version of a contract is accepted if and only if its terms are positive, have distinct
      installments and add up; it then stands with one pending plan per term and touches nothing else. */
  lemma FirstVersionOutcome(b: Books, e: ContractEvent)
    requires ContractInv(b.con, b.ar) && FreshKeys(b, e) && e.event !in b.con.events && e.contract !in b.con.streams
    requires 1 <= e.version && e.terms != [] && 0 < e.amount
    ensures Ingest(b, e).Done? <==> NormalTerms(e.terms) && SumTerms(e.terms) == e.amount
    ensures Ingest(b, e).Done? ==>
      var n := Ingest(b, e).value;
      && n == b.(con := b.con.(streams := b.con.streams[e.contract := e.version], events := b.con.events + {e.event},
           snapshots := b.con.snapshots[e.snapshot := Snapshot(Some(e.contract), e.version, e.amount, e.customer, e.currency, Effective)],
           plans := n.con.plans))
      && (forall p :: p in b.con.plans ==> p in n.con.plans && n.con.plans[p] == b.con.plans[p])
      && (forall k: nat :: k < |e.terms| ==> PlannedAs(n.con.plans, e.ids(k), e.snapshot, e.terms[k]))
      && (forall p :: p in n.con.plans && p !in b.con.plans ==> exists k: nat :: k < |e.terms| && p == e.ids(k))
  {
    hide ContractInv, Revise, InsertTerms, SumTerms;
    UniqueIn(b.con, b.ar);
    forall k, p | 0 <= k < |e.terms| ensures !Taken(b.con.plans, p, e.snapshot, e.terms[k].installment) { NoPlanYet(b, e, p); }
    if NormalTerms(e.terms) {
      InsertSucceeds(b.con.plans, e.snapshot, e.terms, e.ids);
      InsertedRows(b.con.plans, e.snapshot, e.terms, e.ids);
    } else if InsertTerms(b.con.plans, e.snapshot, e.terms, e.ids).Done? {
      InsertedAreNormal(e.snapshot, b.con.plans, e.terms, e.ids);
    }
  }

  lemma NoPlanYet(b: Books, e: ContractEvent, p: Id)
    requires ContractInv(b.con, b.ar) && e.snapshot !in b.con.snapshots
    ensures p in b.con.plans ==> b.con.plans[p].snapshot != e.snapshot
  {
    if p in b.con.plans { assert PlanSound(b.con, b.ar, p); }
  }

  /** A known event changes nothing, and a version that is not newer is refused. */
  lemma OldVersionsAreRefused(b: Books, e: ContractEvent)
    requires 1 <= e.version && e.terms != [] && 0 < e.amount
    ensures e.event in b.con.events ==> Ingest(b, e) == Done(b)
    ensures e.event !in b.con.events && e.contract in b.con.streams && e.version <= b.con.streams[e.contract] ==> Ingest(b, e) == Refused(Conflict)
  {
  }
}
