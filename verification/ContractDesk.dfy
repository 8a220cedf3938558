/** Contract events and plan transactions as they update the tables.
    internal/service: service.go (ingestContract, ConfirmPlan), contract_revision.go, manual_plan.go,
    plan_coverage.go, native_financial.go, native_financial_query.go */
module ContractDesk {
  import opened Tables
  import opened Totals
  import I = Invoicing
  import K = Contracts

  /** Unique key (contract, version) of the snapshot table. */
  predicate UniqueVersions(snapshots: map<Id, Snapshot>) {
    forall x, y :: x in snapshots && y in snapshots ==>
      (snapshots[x].contract.Some? && snapshots[x].contract == snapshots[y].contract && snapshots[x].version == snapshots[y].version ==> x == y)
  }

  /** Unique key (plan) of the receivable table. */
  predicate UniquePlans(ar: Ledger) {
    forall x, y :: x in ar && y in ar && ar[x].plan == ar[y].plan ==> x == y
  }

  // ---------- plans edited by users

  /** `requirePlanCoverage`: total of the other plans, contract limit, thresholds. */
  method RequirePlanCoverage(con: ContractTables, s: Id, excluded: Option<Id>, next: int, previous: Option<int>, policy: K.Policy)
    returns (refusal: Option<Error>, others: int)
    ensures refusal == K.RequireCoverage(con, s, others, next, previous, policy)
    ensures excluded.None? ==> others == K.PlanTotal(con.plans, s)
    ensures excluded.Some? && excluded.value in con.plans && con.plans[excluded.value].snapshot == s ==>
      others == K.PlanTotal(con.plans, s) - con.plans[excluded.value].amount
  {
    var amounts := map p | p in con.plans && con.plans[p].snapshot == s && Some(p) != excluded :: con.plans[p].amount;
    others := Sum(amounts);
    ghost var all := map p | p in con.plans && con.plans[p].snapshot == s :: con.plans[p].amount;
    if excluded.None? {
      assert amounts == all;
    } else if excluded.value in all {
      TotalPick(all, excluded.value);
      assert amounts == all - {excluded.value};
    }
    if s !in con.snapshots || con.snapshots[s].status != Effective { return Some(NotFound), others; }
    var contract, total := con.snapshots[s].amount, others + next;
    if total > contract { return Some(Conflict), others; }
    if !K.CoverageExceeded(contract, total, next, previous, policy) { return None, others; }
    if !policy.override { return Some(Conflict), others; }
    refusal := None;
  }

  method CreateManualPlan(db: Database, i: K.ManualInput) returns (err: Option<Error>)
    modifies db
    ensures Commits(old(db.State()), db.State(), K.CreateManualPlan(old(db.State()), i), err)
  {
    if i.installment < 1 || i.amount <= 0 { return Some(Invalid); }
    var refusal, others := RequirePlanCoverage(db.con, i.snapshot, None, i.amount, None, i.policy);
    if refusal.Some? { return refusal; }
    if i.id in db.con.plans || (exists p :: p in db.con.plans && K.Taken(db.con.plans, p, i.snapshot, i.installment)) { return Some(Conflict); }
    db.con := db.con.(plans := db.con.plans[i.id := Plan(i.snapshot, i.installment, i.due, i.amount, true, PendingConfirmation, 1)]);
    return None;
  }

  method ConfirmPlan(db: Database, i: K.PlanInput, receivable: Id) returns (err: Option<Error>)
    modifies db
    ensures Commits(old(db.State()), db.State(), K.ConfirmPlan(old(db.State()), i, receivable), err)
  {
    if i.version < 1 { return Some(Invalid); }
    if i.id !in db.con.plans { return Some(Conflict); }
    var plan := db.con.plans[i.id];
    if plan.status != PendingConfirmation || plan.version != i.version || plan.snapshot !in db.con.snapshots { return Some(Conflict); }
    var due := if i.due.Some? then i.due.value else plan.due;
    var amount := if i.amount.Some? then i.amount.value else plan.amount;
    if amount <= 0 { return Some(Invalid); }
    if (due != plan.due || amount != plan.amount) && !i.hasReason { return Some(Invalid); }
    var refusal, others := RequirePlanCoverage(db.con, plan.snapshot, Some(i.id), amount, Some(plan.amount), i.policy);
    if refusal.Some? { return refusal; }
    if receivable in db.ar { return Some(Conflict); }
    var s := db.con.snapshots[plan.snapshot];
    db.con := db.con.(plans := db.con.plans[i.id := plan.(due := due, amount := amount, status := PlanConfirmed, version := plan.version + 1)]);
    db.ar := db.ar[receivable := Receivable(i.id, plan.snapshot, s.customer, s.currency, due, amount, amount, 0, 0, 0, Unpaid, NotInvoiced)];
    return None;
  }

  /** Outstanding reservations of a receivable. */
  method Reserved(requests: map<Id, Request>, r: Id) returns (total: int)
    ensures total == I.ReservedTotal(requests, r)
  {
    total := Sum(map q | q in requests :: I.OutstandingOn(requests[q], r));
  }

  method AdjustPlan(db: Database, i: K.PlanInput) returns (err: Option<Error>)
    requires UniquePlans(db.ar)
    modifies db
    ensures Commits(old(db.State()), db.State(), K.AdjustPlan(old(db.State()), i), err)
  {
    if i.version < 1 || !i.hasReason || i.due.None? || i.amount.None? || i.amount.value <= 0 { return Some(Invalid); }
    if i.id !in db.con.plans { return Some(Conflict); }
    var plan, due, amount := db.con.plans[i.id], i.due.value, i.amount.value;
    if plan.version != i.version || plan.status != PlanConfirmed { return Some(Conflict); }
    if !(exists r :: r in db.ar && K.OwedOn(db.ar, r, i.id)) { return Some(Conflict); }
    var owed :| owed in db.ar && K.OwedOn(db.ar, owed, i.id);
    assert owed == K.ReceivableOf(db.ar, i.id).value;
    var row := db.ar[owed];
    if row.received + row.writeOff > amount { return Some(Conflict); }
    var reserved := Reserved(db.inv.requests, owed);
    if row.invoiced + reserved > amount { return Some(Conflict); }
    var refusal, others := RequirePlanCoverage(db.con, plan.snapshot, Some(i.id), amount, Some(plan.amount), i.policy);
    if refusal.Some? { return refusal; }
    db.con := db.con.(plans := db.con.plans[i.id := plan.(due := due, amount := amount, version := plan.version + 1)]);
    db.ar := db.ar[owed := K.Resized(row, due, amount)];
    return None;
  }

  // ---------- contract events

  /** `normalizeContractTerms`: one pass with a set of seen installments and a running total. */
  method NormalizeContractTerms(terms: seq<Term>) returns (ok: bool, total: int)
    ensures ok <==> K.NormalTerms(terms)
    ensures ok ==> total == K.SumTerms(terms)
  {
    total := 0;
    var seen: set<int> := {};
    for k := 0 to |terms|
      invariant total == K.SumTerms(terms[..k]) && K.NormalTerms(terms[..k])
      invariant forall n :: n in seen <==> exists j :: 0 <= j < k && terms[j].installment == n
    {
      var t := terms[k];
      if t.amount <= 0 || t.installment < 1 {
        assert !K.GoodTerm(terms[k]);
        return false, 0;
      }
      if t.installment in seen { return false, 0; }
      assert terms[..k + 1][..k] == terms[..k];
      seen := seen + {t.installment};
      total := total + t.amount;
    }
    assert terms[..|terms|] == terms;
    ok := true;
  }

  method InsertTerms(plans: map<Id, Plan>, s: Id, terms: seq<Term>, ids: nat -> Id) returns (r: Outcome<map<Id, Plan>>)
    ensures r == K.InsertTerms(plans, s, terms, ids)
  {
    var table := plans;
    for k := 0 to |terms|
      invariant K.InsertTerms(plans, s, terms[..k], ids) == Done(table)
    {
      var t := terms[k];
      assert terms[..k + 1][..k] == terms[..k];
      if t.amount <= 0 || t.installment < 1 {
        InsertionStops(plans, s, terms, ids, k + 1);
        return Refused(Invalid);
      }
      if ids(k) in table || (exists p :: p in table && K.Taken(table, p, s, t.installment)) {
        InsertionStops(plans, s, terms, ids, k + 1);
        return Refused(Conflict);
      }
      table := table[ids(k) := K.PlanOf(s, t)];
    }
    assert terms[..|terms|] == terms;
    r := Done(table);
  }

  lemma {:induction false} InsertionStops(plans: map<Id, Plan>, s: Id, terms: seq<Term>, ids: nat -> Id, k: nat)
    requires k <= |terms| && K.InsertTerms(plans, s, terms[..k], ids).Refused?
    ensures K.InsertTerms(plans, s, terms, ids) == K.InsertTerms(plans, s, terms[..k], ids)
  {
    if k == |terms| {
      assert terms[..k] == terms;
    } else {
      assert terms[..|terms| - 1][..k] == terms[..k];
      InsertionStops(plans, s, terms[..|terms| - 1], ids, k);
    }
  }

  method SumTerms(terms: seq<Term>) returns (total: int)
    ensures total == K.SumTerms(terms)
  {
    total := 0;
    for k := 0 to |terms|
      invariant total == K.SumTerms(terms[..k])
    {
      assert terms[..k + 1][..k] == terms[..k];
      total := total + terms[k].amount;
    }
    assert terms[..|terms|] == terms;
  }

  method IngestFirstVersion(db: Database, e: K.ContractEvent) returns (err: Option<Error>)
    modifies db
    ensures Commits(old(db.State()), db.State(), K.FirstVersion(old(db.State()), e), err)
  {
    if e.snapshot in db.con.snapshots { return Some(Conflict); }
    var plans := InsertTerms(db.con.plans, e.snapshot, e.terms, e.ids);
    if plans.Refused? { return Some(plans.error); }
    var total := SumTerms(e.terms);
    if total != e.amount { return Some(Invalid); }
    db.con := db.con.(
      streams := db.con.streams[e.contract := e.version], snapshots := db.con.snapshots[e.snapshot := K.SnapshotOf(e)],
      plans := plans.value, events := db.con.events + {e.event});
    return None;
  }

  // ---------- revision

  /** The locked facts of one plan: received, written off, invoiced or reserved money. */
  method PlanHasFacts(b: Books, p: Id) returns (facts: bool)
    ensures facts <==> K.HasFacts(b, p)
  {
    facts := false;
    var rest := b.ar.Keys;
    while rest != {}
      invariant rest <= b.ar.Keys
      invariant facts ==> K.HasFacts(b, p)
      invariant !facts ==> forall r :: r !in rest && K.OwedOn(b.ar, r, p) ==>
        b.ar[r].received == 0 && b.ar[r].writeOff == 0 && b.ar[r].invoiced == 0 && I.ReservedTotal(b.inv.requests, r) == 0
      decreases |rest|
    {
      var r :| r in rest;
      rest := rest - {r};
      if K.OwedOn(b.ar, r, p) {
        var reserved := Reserved(b.inv.requests, r);
        var row := b.ar[r];
        if row.received != 0 || row.writeOff != 0 || row.invoiced != 0 || reserved != 0 { facts := true; }
      }
    }
  }

  predicate IsReferenced(b: Books, p: Id) {
    p in b.con.dunned || exists r, q :: r in b.ar && q in b.inv.requests && b.ar[r].plan == p && r in b.inv.requests[q].lines
  }

  lemma ReferencedIs(b: Books, p: Id)
    ensures IsReferenced(b, p) <==> K.Referenced(b, p)
  {
    if K.Referenced(b, p) && p !in b.con.dunned {
      var r, q :| K.OwedOn(b.ar, r, p) && K.DrawnBy(b, q, r);
      assert r in b.ar && q in b.inv.requests && b.ar[r].plan == p && r in b.inv.requests[q].lines;
    }
    if IsReferenced(b, p) && p !in b.con.dunned {
      var r, q :| r in b.ar && q in b.inv.requests && b.ar[r].plan == p && r in b.inv.requests[q].lines;
      assert K.OwedOn(b.ar, r, p) && K.DrawnBy(b, q, r);
    }
  }

  /** The maps the classification loop fills. */
  datatype Sorting = Sorting(adjust: map<Id, Term>, remove: set<Id>, disputed: set<Id>, seen: set<int>)

  function FateIn(c: Sorting, p: Id): K.Fate {
    if p in c.remove then K.Removed else if p in c.disputed then K.Disputed
    else if p in c.adjust then K.Adjusted(c.adjust[p]) else K.Carried
  }

  ghost predicate Classified(b: Books, terms: seq<Term>, c: Sorting, done: set<Id>) {
    && (forall p :: p in done ==> p in b.con.plans && FateIn(c, p) == K.FateOf(b, p, terms))
    && c.remove <= done && c.disputed <= done && c.adjust.Keys <= done
    && (forall n :: n in c.seen <==> exists p :: p in done && p in b.con.plans && b.con.plans[p].installment == n && K.TermFor(terms, n).Some?)
  }

  /** One old plan against the new terms. */
  method ClassifyPlan(b: Books, terms: seq<Term>, c: Sorting, p: Id, ghost done: set<Id>) returns (n: Sorting)
    requires Classified(b, terms, c, done) && p in b.con.plans && p !in done
    ensures Classified(b, terms, n, done + {p})
  {
    var plan := b.con.plans[p];
    var term := K.TermFor(terms, plan.installment);
    var facts := PlanHasFacts(b, p);
    ReferencedIs(b, p);
    n := c;
    if term.None? {
      if facts || IsReferenced(b, p) { n := n.(disputed := n.disputed + {p}); } else { n := n.(remove := n.remove + {p}); }
    } else {
      n := n.(seen := n.seen + {plan.installment});
      var changed := plan.amount != term.value.amount || plan.due != term.value.due;
      if changed {
        if facts { n := n.(disputed := n.disputed + {p}); } else { n := n.(adjust := n.adjust[p := term.value]); }
      }
    }
    forall x | x in done + {p} ensures x in b.con.plans && FateIn(n, x) == K.FateOf(b, x, terms) {
      assert x != p ==> FateIn(c, x) == K.FateOf(b, x, terms);
    }
    SeenGrows(b, terms, c.seen, n.seen, done, p);
  }

  lemma SeenGrows(b: Books, terms: seq<Term>, before: set<int>, after: set<int>, done: set<Id>, p: Id)
    requires p in b.con.plans
    requires forall n :: n in before <==> exists x :: x in done && x in b.con.plans && b.con.plans[x].installment == n && K.TermFor(terms, n).Some?
    requires after == if K.TermFor(terms, b.con.plans[p].installment).Some? then before + {b.con.plans[p].installment} else before
    ensures forall n :: n in after <==> exists x :: x in done + {p} && x in b.con.plans && b.con.plans[x].installment == n && K.TermFor(terms, n).Some?
  {
    forall n ensures n in after <==> exists x :: x in done + {p} && x in b.con.plans && b.con.plans[x].installment == n && K.TermFor(terms, n).Some? {
      if n in after {
        if n in before {
          var x :| x in done && x in b.con.plans && b.con.plans[x].installment == n && K.TermFor(terms, n).Some?;
          assert x in done + {p};
        } else {
          assert p in done + {p};
        }
      }
    }
  }

  method ClassifyPlans(b: Books, prior: Id, terms: seq<Term>) returns (c: Sorting)
    ensures Classified(b, terms, c, set p | p in b.con.plans && b.con.plans[p].snapshot == prior)
  {
    var rest := set p | p in b.con.plans && b.con.plans[p].snapshot == prior;
    ghost var all := rest;
    c := Sorting(map[], {}, {}, {});
    ghost var done: set<Id> := {};
    while rest != {}
      invariant rest <= all && done == all - rest
      invariant Classified(b, terms, c, done)
      decreases |rest|
    {
      var p :| p in rest;
      c := ClassifyPlan(b, terms, c, p, done);
      rest := rest - {p};
      done := done + {p};
    }
    assert done == all;
  }

  ghost function Under(b: Books, prior: Id): set<Id> {
    set p | p in b.con.plans && b.con.plans[p].snapshot == prior
  }

  /** Terms no old plan stands for, in order. */
  method CreatedTerms(b: Books, prior: Id, terms: seq<Term>, seen: set<int>) returns (created: seq<Term>)
    requires forall n :: n in seen <==> exists p :: p in Under(b, prior) && p in b.con.plans && b.con.plans[p].installment == n && K.TermFor(terms, n).Some?
    ensures created == K.NewTerms(b.con.plans, prior, terms)
  {
    created := [];
    for k := 0 to |terms|
      invariant created == K.NewTerms(b.con.plans, prior, terms[..k])
    {
      assert terms[..k + 1][..k] == terms[..k];
      SeenIsTaken(b, prior, terms, seen, k);
      if terms[k].installment !in seen { created := created + [terms[k]]; }
    }
    assert terms[..|terms|] == terms;
  }

  lemma SeenIsTaken(b: Books, prior: Id, terms: seq<Term>, seen: set<int>, k: nat)
    requires k < |terms|
    requires forall n :: n in seen <==> exists p :: p in Under(b, prior) && p in b.con.plans && b.con.plans[p].installment == n && K.TermFor(terms, n).Some?
    ensures terms[k].installment in seen <==> exists p :: K.Taken(b.con.plans, p, prior, terms[k].installment)
  {
    var n := terms[k].installment;
    assert K.TermFor(terms, n).Some?;
    if p :| K.Taken(b.con.plans, p, prior, n) { assert p in Under(b, prior); }
    if n in seen {
      var p :| p in Under(b, prior) && p in b.con.plans && b.con.plans[p].installment == n && K.TermFor(terms, n).Some?;
      assert K.Taken(b.con.plans, p, prior, n);
    }
  }

  /** Rewrites the old plans: deletions, adjustments and moves to the new snapshot. */
  method RewritePlans(b: Books, prior: Id, e: K.ContractEvent, c: Sorting) returns (plans: map<Id, Plan>)
    requires Classified(b, e.terms, c, Under(b, prior))
    ensures plans == K.MovedPlans(b, prior, e)
  {
    plans := b.con.plans;
    var rest := set p | p in b.con.plans && b.con.plans[p].snapshot == prior;
    ghost var all := rest;
    while rest != {}
      invariant rest <= all
      invariant forall p :: p in plans <==> p in b.con.plans && !(p in c.remove && p !in rest)
      invariant forall p :: p in plans ==>
        plans[p] == if p in all && p !in rest then K.MovePlan(b.con.plans[p], e.snapshot, FateIn(c, p)) else b.con.plans[p]
      decreases |rest|
    {
      var p :| p in rest;
      rest := rest - {p};
      if p in c.remove {
        plans := plans - {p};
      } else {
        plans := plans[p := K.MovePlan(plans[p], e.snapshot, FateIn(c, p))];
      }
    }
    RewrittenIs(b, prior, e, c, plans);
  }

  lemma RewrittenIs(b: Books, prior: Id, e: K.ContractEvent, c: Sorting, plans: map<Id, Plan>)
    requires Classified(b, e.terms, c, Under(b, prior))
    requires forall p :: p in plans <==> p in b.con.plans && p !in c.remove
    requires forall p :: p in plans ==>
      plans[p] == if p in Under(b, prior) then K.MovePlan(b.con.plans[p], e.snapshot, FateIn(c, p)) else b.con.plans[p]
    ensures plans == K.MovedPlans(b, prior, e)
  {
    forall p ensures p in c.remove <==> K.FallsAway(b, prior, e.terms, p) { assert p in Under(b, prior) ==> FateIn(c, p) == K.FateOf(b, p, e.terms); }
  }

  /** The receivables follow their plans. */
  method RewriteReceivables(b: Books, prior: Id, e: K.ContractEvent, c: Sorting) returns (ar: Ledger)
    requires Classified(b, e.terms, c, Under(b, prior))
    ensures ar == K.MovedLedger(b, prior, e)
  {
    ar := map r | r in b.ar && b.ar[r].plan !in c.remove ::
      if b.ar[r].plan in b.con.plans && b.con.plans[b.ar[r].plan].snapshot == prior
      then K.MoveReceivable(b.ar[r], e, FateIn(c, b.ar[r].plan)) else b.ar[r];
    forall p ensures p in c.remove <==> K.FallsAway(b, prior, e.terms, p) { assert p in Under(b, prior) ==> FateIn(c, p) == K.FateOf(b, p, e.terms); }
    assert ar == K.MovedLedger(b, prior, e);
  }

  method RegisterContractRevisionHold(holds: map<Id, Hold>, id: Id, row: Hold) returns (r: Outcome<map<Id, Hold>>)
    ensures r == K.RegisterHold(holds, id, row)
  {
    if exists h :: h in holds && K.SameHold(holds, h, row.event, row.reason) { return Done(holds); }
    if id in holds { return Refused(Conflict); }
    r := Done(holds[id := row]);
  }

  predicate Blocks(b: Books, c: Sorting) {
    exists r, a :: r in b.ar && a in b.cash.allocations && b.ar[r].plan in c.remove && b.cash.allocations[a].receivable == r
  }

  lemma BlocksIs(b: Books, prior: Id, terms: seq<Term>, c: Sorting)
    requires Classified(b, terms, c, Under(b, prior))
    ensures Blocks(b, c) <==> K.DeletionBlocked(b, prior, terms)
  {
    forall p ensures p in c.remove <==> K.FallsAway(b, prior, terms, p) { assert p in Under(b, prior) ==> FateIn(c, p) == K.FateOf(b, p, terms); }
    if Blocks(b, c) {
      var r, a :| r in b.ar && a in b.cash.allocations && b.ar[r].plan in c.remove && b.cash.allocations[a].receivable == r;
      assert r in b.ar && K.FallsAway(b, prior, terms, b.ar[r].plan) && K.PaidBy(b, a, r);
    }
    if K.DeletionBlocked(b, prior, terms) {
      var r, a :| r in b.ar && K.FallsAway(b, prior, terms, b.ar[r].plan) && K.PaidBy(b, a, r);
      assert r in b.ar && a in b.cash.allocations && b.ar[r].plan in c.remove && b.cash.allocations[a].receivable == r;
    }
  }

  lemma DisputedIs(b: Books, prior: Id, terms: seq<Term>, c: Sorting)
    requires Classified(b, terms, c, Under(b, prior))
    ensures c.disputed - c.remove == K.Disputes(b, prior, terms)
  {
    forall p ensures p in c.disputed - c.remove <==> p in K.Disputes(b, prior, terms) {
      assert p in Under(b, prior) ==> FateIn(c, p) == K.FateOf(b, p, terms);
    }
  }

  /** The part of `applyContractRevision` behind the term-total check. */
  method MergeRevision(db: Database, prior: Id, e: K.ContractEvent) returns (err: Option<Error>)
    requires prior in db.con.snapshots
    modifies db
    ensures Commits(old(db.State()), db.State(), K.Merge(old(db.State()), prior, e), err)
  {
    var b := db.State();
    var c := ClassifyPlans(b, prior, e.terms);
    assert Classified(b, e.terms, c, Under(b, prior));
    BlocksIs(b, prior, e.terms, c);
    DisputedIs(b, prior, e.terms, c);
    if e.snapshot in db.con.snapshots || Blocks(b, c) { return Some(Conflict); }
    var created := CreatedTerms(b, prior, e.terms, c.seen);
    var moved := RewritePlans(b, prior, e, c);
    var plans := InsertTerms(moved, e.snapshot, created, e.ids);
    if plans.Refused? { return Some(plans.error); }
    var disputed := c.disputed - c.remove;
    var holds := Done(db.con.holds);
    if disputed != {} {
      var installments := set p | p in disputed && p in db.con.plans :: db.con.plans[p].installment;
      assert installments == K.DisputeHold(b, prior, e).installments;
      holds := RegisterContractRevisionHold(db.con.holds, e.hold, Hold(e.contract, e.event, Some(e.snapshot), PlanDifference, installments));
    }
    if holds.Refused? { return Some(holds.error); }
    db.ar := RewriteReceivables(b, prior, e, c);
    db.con := db.con.(
      streams := db.con.streams[e.contract := e.version],
      snapshots := db.con.snapshots[prior := db.con.snapshots[prior].(status := Superseded)][e.snapshot := K.SnapshotOf(e)],
      plans := plans.value, holds := holds.value, events := db.con.events + {e.event});
    return None;
  }

  method ApplyContractRevision(db: Database, e: K.ContractEvent) returns (err: Option<Error>)
    requires UniqueVersions(db.con.snapshots)
    modifies db
    ensures Commits(old(db.State()), db.State(), K.Revise(old(db.State()), e), err)
  {
    var normal, total := NormalizeContractTerms(e.terms);
    if !normal { return Some(Invalid); }
    if !(exists s :: s in db.con.snapshots && K.CurrentFor(db.con, s, e.contract)) { return Some(Conflict); }
    var prior :| prior in db.con.snapshots && K.CurrentFor(db.con, prior, e.contract);
    assert prior == K.CurrentOf(db.con, e.contract).value;
    if total != e.amount {
      var holds := RegisterContractRevisionHold(db.con.holds, e.hold, Hold(e.contract, e.event, None, TermTotalMismatch, {}));
      if holds.Refused? { return Some(holds.error); }
      db.con := db.con.(holds := holds.value, events := db.con.events + {e.event});
      return None;
    }
    err := MergeRevision(db, prior, e);
  }

  method IngestContract(db: Database, e: K.ContractEvent) returns (err: Option<Error>)
    requires UniqueVersions(db.con.snapshots)
    modifies db
    ensures Commits(old(db.State()), db.State(), K.Ingest(old(db.State()), e), err)
  {
    if e.version < 1 || e.terms == [] || e.amount <= 0 { return Some(Invalid); }
    if e.event in db.con.events { return None; }
    if e.contract !in db.con.streams {
      err := IngestFirstVersion(db, e);
      return;
    }
    if e.version <= db.con.streams[e.contract] { return Some(Conflict); }
    err := ApplyContractRevision(db, e);
  }

  method OpenDunningCase(db: Database, p: Id) returns (err: Option<Error>)
    modifies db
    ensures Commits(old(db.State()), db.State(), K.Dun(old(db.State()), p), err)
  {
    if p !in db.con.plans { return Some(NotFound); }
    db.con := db.con.(dunned := db.con.dunned + {p});
    return None;
  }

  // ---------- local baselines

  method CreateNativeFinancialBaseline(db: Database, i: K.NativeInput) returns (err: Option<Error>)
    modifies db
    ensures Commits(old(db.State()), db.State(), K.CreateNative(old(db.State()), i), err)
  {
    if i.amount <= 0 || |i.terms| < 1 || |i.terms| > 100 { return Some(Invalid); }
    var ok, total := NormalizeContractTerms(i.terms);
    if !ok || total != i.amount { return Some(Invalid); }
    if !i.known { return Some(NotFound); }
    if i.id in db.con.snapshots || !i.numbered { return Some(Conflict); }
    var plans := InsertTerms(db.con.plans, i.id, i.terms, i.ids);
    if plans.Refused? { return Some(plans.error); }
    db.con := db.con.(
      snapshots := db.con.snapshots[i.id := Snapshot(None, 1, i.amount, i.customer, i.currency, Effective)], plans := plans.value);
    return None;
  }

  /** `lockNativeUnconsumed`: the plans one by one, then receivables and invoice requests. */
  method NativeConsumed(b: Books, s: Id) returns (consumed: bool)
    ensures consumed <==> K.Consumed(b, s)
  {
    var rest := b.con.plans.Keys;
    while rest != {}
      invariant rest <= b.con.plans.Keys
      invariant forall p :: p in b.con.plans && p !in rest && b.con.plans[p].snapshot == s ==>
        b.con.plans[p].status == PendingConfirmation && p !in b.con.dunned
      decreases |rest|
    {
      var p :| p in rest;
      if b.con.plans[p].snapshot == s && (b.con.plans[p].status != PendingConfirmation || p in b.con.dunned) { return true; }
      rest := rest - {p};
    }
    if exists r :: r in b.ar && b.ar[r].snapshot == s { return true; }
    consumed := exists q :: q in b.inv.requests && b.inv.requests[q].snapshot == s;
  }

  method VoidNativeFinancialBaseline(db: Database, s: Id, version: int) returns (err: Option<Error>)
    modifies db
    ensures Commits(old(db.State()), db.State(), K.VoidNative(old(db.State()), s, version), err)
  {
    if version < 1 { return Some(Invalid); }
    if s !in db.con.snapshots || db.con.snapshots[s].contract.Some? { return Some(NotFound); }
    var row := db.con.snapshots[s];
    if row.status != Effective || row.version != version { return Some(Conflict); }
    var consumed := NativeConsumed(db.State(), s);
    if consumed { return Some(Blocked); }
    db.con := db.con.(snapshots := db.con.snapshots[s := row.(status := Voided, version := version + 1)]);
    db.con := db.con.(plans := K.CancelPending(db.con.plans, s));
    return None;
  }
}
