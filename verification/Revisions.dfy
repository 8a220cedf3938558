/** When a contract revision is accepted.  internal/service/contract_revision.go:247-306 */
module Revisions {
  import opened Tables
  import opened Cash
  import opened Invoicing
  import opened Contracts
  import opened ContractProofs
  import opened Settlement

  /** No money was received, written off, invoiced or reserved on the receivable. */
  ghost predicate MoneyFree(b: Books, r: Id)
    requires r in b.ar
  {
    b.ar[r].received == 0 && b.ar[r].writeOff == 0 && b.ar[r].invoiced == 0 && ReservedTotal(b.inv.requests, r) == 0
  }

  /** A plan of the contract that the new terms drop: nothing speaks against its removal but an
      allocation row, which may be reversed in full. */
  ghost predicate StuckOn(b: Books, e: ContractEvent, p: Id, r: Id, a: Id) {
    && p in b.con.plans && EffectiveFor(b.con, b.con.plans[p].snapshot, e.contract)
    && (forall t :: t in e.terms ==> t.installment != b.con.plans[p].installment)
    && OwedOn(b.ar, r, p) && MoneyFree(b, r)
    && p !in b.con.dunned && (forall q :: !DrawnBy(b, q, r))
    && PaidBy(b, a, r)
  }

  ghost predicate Stuck(b: Books, e: ContractEvent) {
    exists p, r, a :: StuckOn(b, e, p, r, a)
  }

  /** The keys drawn for the revision are unused. */
  ghost predicate FreshKeys(b: Books, e: ContractEvent) {
    && e.snapshot !in b.con.snapshots && e.hold !in b.con.holds
    && (forall k: nat :: k < |e.terms| ==> e.ids(k) !in b.con.plans)
    && (forall j: nat, k: nat :: j < k < |e.terms| ==> e.ids(j) != e.ids(k))
  }

  /** The plan is pending and says what the term says. */
  predicate PlannedAs(plans: map<Id, Plan>, p: Id, s: Id, t: Term) {
    p in plans && plans[p] == Plan(s, t.installment, t.due, t.amount, false, PendingConfirmation, 1)
  }

  // ---------- the insertion of new terms succeeds

  lemma {:induction false} InsertSucceeds(plans: map<Id, Plan>, s: Id, terms: seq<Term>, ids: nat -> Id)
    requires NormalTerms(terms)
    requires forall k: nat :: k < |terms| ==> ids(k) !in plans
    requires forall j: nat, k: nat :: j < k < |terms| ==> ids(j) != ids(k)
    requires forall k, p :: 0 <= k < |terms| ==> !Taken(plans, p, s, terms[k].installment)
    ensures InsertTerms(plans, s, terms, ids).Done?
    ensures forall p :: p in InsertTerms(plans, s, terms, ids).value ==>
      p in plans || exists k: nat :: k < |terms| && p == ids(k) && InsertTerms(plans, s, terms, ids).value[p] == PlanOf(s, terms[k])
    ensures forall p :: p in plans ==> p in InsertTerms(plans, s, terms, ids).value && InsertTerms(plans, s, terms, ids).value[p] == plans[p]
  {
    if terms != [] {
      var k := |terms| - 1;
      var first := terms[..k];
      forall j, p | 0 <= j < |first| ensures !Taken(plans, p, s, first[j].installment) { assert first[j] == terms[j]; }
      InsertSucceeds(plans, s, first, ids);
      var m := InsertTerms(plans, s, first, ids).value;
      assert GoodTerm(terms[k]);
      forall p ensures !Taken(m, p, s, terms[k].installment) {
        if p in m {
          if p in plans {
            assert !Taken(plans, p, s, terms[k].installment);
          } else {
            var j: nat :| j < k && p == ids(j) && m[p] == PlanOf(s, first[j]);
            assert first[j] == terms[j];
          }
        }
      }
      var n := InsertTerms(plans, s, terms, ids).value;
      forall p | p in n && p !in plans ensures exists j: nat :: j < |terms| && p == ids(j) && n[p] == PlanOf(s, terms[j]) {
        if p in m {
          var j: nat :| j < k && p == ids(j) && m[p] == PlanOf(s, first[j]);
          assert p == ids(j) && n[p] == PlanOf(s, terms[j]);
        } else {
          assert p == ids(k) && n[p] == PlanOf(s, terms[k]);
        }
      }
    }
  }

  lemma {:induction false} NewTermsNormal(plans: map<Id, Plan>, s: Id, terms: seq<Term>)
    requires NormalTerms(terms)
    ensures NormalTerms(NewTerms(plans, s, terms)) && |NewTerms(plans, s, terms)| <= |terms|
  {
    if terms != [] {
      var k := |terms| - 1;
      var first, before := terms[..k], NewTerms(plans, s, terms[..k]);
      NewTermsNormal(plans, s, first);
      forall j | 0 <= j < |before| ensures before[j].installment != terms[k].installment {
        NewTermsAre(plans, s, first, before[j]);
        var i :| 0 <= i < k && first[i] == before[j];
        assert terms[i] == before[j];
      }
      assert GoodTerm(terms[k]);
    }
  }

  /** The places of the new terms are free among the moved plans. */
  lemma NewPlacesFree(b: Books, prior: Id, e: ContractEvent, k: nat, p: Id)
    requires ContractInv(b.con, b.ar) && e.snapshot !in b.con.snapshots && k < |NewTerms(b.con.plans, prior, e.terms)|
    ensures !Taken(MovedPlans(b, prior, e), p, e.snapshot, NewTerms(b.con.plans, prior, e.terms)[k].installment)
  {
    var t := NewTerms(b.con.plans, prior, e.terms)[k];
    NewTermsAre(b.con.plans, prior, e.terms, t);
    if p in MovedPlans(b, prior, e) {
      assert PlanSound(b.con, b.ar, p);
      assert !Taken(b.con.plans, p, prior, t.installment);
    }
  }

  lemma MergeInserts(b: Books, prior: Id, e: ContractEvent)
    requires ContractInv(b.con, b.ar) && NormalTerms(e.terms) && FreshKeys(b, e)
    ensures InsertTerms(MovedPlans(b, prior, e), e.snapshot, NewTerms(b.con.plans, prior, e.terms), e.ids).Done?
  {
    var added := NewTerms(b.con.plans, prior, e.terms);
    NewTermsNormal(b.con.plans, prior, e.terms);
    forall k, p | 0 <= k < |added| ensures !Taken(MovedPlans(b, prior, e), p, e.snapshot, added[k].installment) {
      NewPlacesFree(b, prior, e, k, p);
    }
    InsertSucceeds(MovedPlans(b, prior, e), e.snapshot, added, e.ids);
  }

  // ---------- the foreign key

  /** A plan falls away with a receivable exactly when the terms drop it and nothing but payments refers to it. */
  lemma FallsAwayIff(b: Books, e: ContractEvent, prior: Id, p: Id, r: Id)
    requires ContractInv(b.con, b.ar) && OwedOn(b.ar, r, p)
    ensures FallsAway(b, prior, e.terms, p) <==>
      && p in b.con.plans && b.con.plans[p].snapshot == prior
      && (forall t :: t in e.terms ==> t.installment != b.con.plans[p].installment)
      && MoneyFree(b, r) && p !in b.con.dunned && (forall q :: !DrawnBy(b, q, r))
  {
    assert ReceivableSound(b.con, b.ar, r);
    assert HasFacts(b, p) <==> !MoneyFree(b, r);
    if q :| DrawnBy(b, q, r) { assert Referenced(b, p); }
  }

  lemma BlockedIff(b: Books, prior: Id, e: ContractEvent)
    requires ContractInv(b.con, b.ar) && CurrentFor(b.con, prior, e.contract)
    ensures DeletionBlocked(b, prior, e.terms) <==> Stuck(b, e)
  {
    if DeletionBlocked(b, prior, e.terms) {
      var r, a :| r in b.ar && FallsAway(b, prior, e.terms, b.ar[r].plan) && PaidBy(b, a, r);
      FallsAwayIff(b, e, prior, b.ar[r].plan, r);
      assert StuckOn(b, e, b.ar[r].plan, r, a);
    }
    if Stuck(b, e) {
      var p, r, a :| StuckOn(b, e, p, r, a);
      assert SnapshotSound(b.con, b.con.plans[p].snapshot) && SnapshotSound(b.con, prior);
      FallsAwayIff(b, e, prior, p, r);
      assert r in b.ar && FallsAway(b, prior, e.terms, b.ar[r].plan) && PaidBy(b, a, r);
    }
  }

  /** A revision with a newer version, normal terms that add up and unused keys is accepted if and only
      if no plan it drops is kept only by allocation rows.  Such a plan carries no money, so nothing
      is held for review; its receivable cannot be deleted, and the whole event is refused. */
  lemma RevisionAcceptedIff(b: Books, e: ContractEvent)
    requires ContractInv(b.con, b.ar) && FreshKeys(b, e) && e.event !in b.con.events
    requires e.contract in b.con.streams && b.con.streams[e.contract] < e.version
    requires e.terms != [] && NormalTerms(e.terms) && SumTerms(e.terms) == e.amount
    ensures Ingest(b, e).Done? <==> !Stuck(b, e)
  {
    assert StreamSound(b.con, e.contract);
    var s :| EffectiveFor(b.con, s, e.contract);
    assert SnapshotSound(b.con, s) && CurrentFor(b.con, s, e.contract);
    var prior := CurrentOf(b.con, e.contract).value;
    TermsPositive(e.terms);
    MergeInserts(b, prior, e);
    BlockedIff(b, prior, e);
    RegisterHoldDone(b.con, e.hold, DisputeHold(b, prior, e));
    assert Ingest(b, e) == Merge(b, prior, e);
  }

  lemma {:induction false} TermsPositive(terms: seq<Term>)
    requires NormalTerms(terms)
    ensures |terms| <= SumTerms(terms)
  {
    if terms != [] {
      TermsPositive(terms[..|terms| - 1]);
      assert GoodTerm(terms[|terms| - 1]);
    }
  }

  lemma RegisterHoldDone(con: ContractTables, id: Id, row: Hold)
    requires id !in con.holds
    ensures RegisterHold(con.holds, id, row).Done?
  {
  }
}
