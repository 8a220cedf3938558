/** Contract version stream, payment plans, revision merge and plan coverage.
    internal/service: service.go (ingestContract, ConfirmPlan), contract_revision.go,
    manual_plan.go, plan_coverage.go, native_financial.go, native_financial_query.go.
    Snapshots here are released ones; the import hold is modelled in `ImportGate`. */
module Contracts {
  import opened Tables
  import opened Totals
  import opened Cash
  import opened Invoicing

  // ---------- plan totals and coverage

  ghost function PlanTotal(plans: map<Id, Plan>, s: Id): int {
    Total(map p | p in plans && plans[p].snapshot == s :: plans[p].amount)
  }

  /** Thresholds in percent, and whether the user may override them. */
  datatype Policy = Policy(gapLimit: real, dropLimit: real, override: bool)

  function Percent(part: int, whole: int): real {
    if whole > 0 then (part * 100) as real / whole as real else 0.0
  }

  function Magnitude(x: int): nat {
    if x < 0 then -x else x
  }

  /** `evaluatePlanCoverage`: the change needs an override. */
  predicate CoverageExceeded(contract: int, total: int, next: int, previous: Option<int>, policy: Policy) {
    || Percent(Magnitude(contract - total), contract) > policy.gapLimit
    || (previous.Some? && 0 < previous.value && next < previous.value
        && Percent(previous.value - next, previous.value) > policy.dropLimit)
  }

  /** `requirePlanCoverage`: no one may exceed the contract amount. */
  ghost function RequireCoverage(con: ContractTables, s: Id, others: int, next: int, previous: Option<int>, policy: Policy): Option<Error> {
    if s !in con.snapshots || con.snapshots[s].status != Effective then Some(NotFound)
    else
      var contract := con.snapshots[s].amount;
      if others + next > contract then Some(Conflict)
      else if CoverageExceeded(contract, others + next, next, previous, policy) && !policy.override then Some(Conflict)
      else None
  }

  // ---------- the invariant

  predicate EffectiveFor(con: ContractTables, s: Id, c: Id) {
    s in con.snapshots && con.snapshots[s].contract == Some(c) && con.snapshots[s].status == Effective
  }

  ghost predicate StreamSound(con: ContractTables, c: Id)
    requires c in con.streams
  {
    1 <= con.streams[c] && exists s :: EffectiveFor(con, s, c)
  }

  ghost predicate SnapshotSound(con: ContractTables, s: Id)
    requires s in con.snapshots
  {
    var row := con.snapshots[s];
    && 0 < row.amount
    && match row.contract
       case None => 1 <= row.version && row.status != Superseded
       case Some(c) =>
         && c in con.streams && row.version <= con.streams[c] && row.status != Voided
         && (row.status == Effective ==> row.version == con.streams[c])
         && (forall x :: x in con.snapshots && con.snapshots[x].contract == Some(c) && con.snapshots[x].version == row.version ==> x == s)
  }

  predicate OwedOn(ar: Ledger, r: Id, p: Id) {
    r in ar && ar[r].plan == p
  }

  predicate SamePlace(plans: map<Id, Plan>, x: Id, p: Id)
    requires p in plans
  {
    x in plans && plans[x].snapshot == plans[p].snapshot && plans[x].installment == plans[p].installment
  }

  ghost predicate PlanSound(con: ContractTables, ar: Ledger, p: Id)
    requires p in con.plans
  {
    var row := con.plans[p];
    && row.snapshot in con.snapshots && con.snapshots[row.snapshot].status == (if row.status == PlanCancelled then Voided else Effective)
    && 1 <= row.installment && 0 < row.amount
    && (forall x :: SamePlace(con.plans, x, p) ==> x == p)
    && (row.status == PlanConfirmed <==> exists r :: OwedOn(ar, r, p))
  }

  ghost predicate ReceivableSound(con: ContractTables, ar: Ledger, r: Id)
    requires r in ar
  {
    var row := ar[r];
    && row.plan in con.plans && row.snapshot in con.snapshots
    && con.plans[row.plan].snapshot == row.snapshot
    && con.plans[row.plan].amount == row.original && con.plans[row.plan].due == row.due
    && con.snapshots[row.snapshot].customer == row.customer
    && (forall x :: OwedOn(ar, x, row.plan) ==> x == r)
  }

  predicate HeldFor(con: ContractTables, h: Id, s: Id) {
    h in con.holds && con.holds[h].snapshot == Some(s) && con.holds[h].reason == PlanDifference
  }

  /** The plans of a contract stay within its amount unless a revision left a difference for review. */
  ghost predicate TotalSound(con: ContractTables, s: Id)
    requires s in con.snapshots
  {
    con.snapshots[s].status == Effective ==>
      PlanTotal(con.plans, s) <= con.snapshots[s].amount || exists h :: HeldFor(con, h, s)
  }

  predicate HoldSound(con: ContractTables, h: Id)
    requires h in con.holds
  {
    con.holds[h].event in con.events
  }

  ghost predicate ContractInv(con: ContractTables, ar: Ledger) {
    && (forall c {:trigger StreamSound(con, c)} :: c in con.streams ==> StreamSound(con, c))
    && (forall s {:trigger SnapshotSound(con, s)} :: s in con.snapshots ==> SnapshotSound(con, s))
    && (forall p {:trigger PlanSound(con, ar, p)} :: p in con.plans ==> PlanSound(con, ar, p))
    && (forall r {:trigger ReceivableSound(con, ar, r)} :: r in ar ==> ReceivableSound(con, ar, r))
    && (forall s {:trigger TotalSound(con, s)} :: s in con.snapshots ==> TotalSound(con, s))
    && (forall h {:trigger HoldSound(con, h)} :: h in con.holds ==> HoldSound(con, h))
  }

  // ---------- plans edited by users

  datatype PlanInput = PlanInput(id: Id, version: int, due: Option<int>, amount: Option<int>, hasReason: bool, policy: Policy)

  datatype ManualInput = ManualInput(id: Id, snapshot: Id, installment: int, due: int, amount: int, policy: Policy)

  predicate Taken(plans: map<Id, Plan>, p: Id, s: Id, installment: int) {
    p in plans && plans[p].snapshot == s && plans[p].installment == installment
  }

  ghost function CreateManualPlan(b: Books, i: ManualInput): Outcome<Books> {
    if i.installment < 1 || i.amount <= 0 then Refused(Invalid)
    else
      var refusal := RequireCoverage(b.con, i.snapshot, PlanTotal(b.con.plans, i.snapshot), i.amount, None, i.policy);
      if refusal.Some? then Refused(refusal.value)
      else if i.id in b.con.plans || (exists p :: Taken(b.con.plans, p, i.snapshot, i.installment)) then Refused(Conflict)
      else Done(b.(con := b.con.(plans :=
        b.con.plans[i.id := Plan(i.snapshot, i.installment, i.due, i.amount, true, PendingConfirmation, 1)])))
  }

  /** Confirming a plan may change its date and amount, and creates the receivable. */
  ghost function ConfirmPlan(b: Books, i: PlanInput, receivable: Id): Outcome<Books> {
    var con := b.con;
    if i.version < 1 then Refused(Invalid)
    else if i.id !in con.plans || con.plans[i.id].status != PendingConfirmation || con.plans[i.id].version != i.version
            || con.plans[i.id].snapshot !in con.snapshots then Refused(Conflict)
    else
      var row := con.plans[i.id];
      var due := if i.due.Some? then i.due.value else row.due;
      var amount := if i.amount.Some? then i.amount.value else row.amount;
      if amount <= 0 || ((due != row.due || amount != row.amount) && !i.hasReason) then Refused(Invalid)
      else
        var refusal := RequireCoverage(con, row.snapshot, PlanTotal(con.plans, row.snapshot) - row.amount, amount, Some(row.amount), i.policy);
        if refusal.Some? then Refused(refusal.value)
        else if receivable in b.ar then Refused(Conflict)
        else
          var s := con.snapshots[row.snapshot];
          Done(b.(
            con := con.(plans := con.plans[i.id := row.(due := due, amount := amount, status := PlanConfirmed, version := row.version + 1)]),
            ar := b.ar[receivable := Receivable(i.id, row.snapshot, s.customer, s.currency, due, amount, amount, 0, 0, 0, Unpaid, NotInvoiced)]))
  }

  /** A receivable follows its plan to another date and amount. */
  function Resized(row: Receivable, due: int, amount: int): Receivable {
    row.(due := due, original := amount, open := amount - row.received - row.writeOff,
         collection := if amount == row.received + row.writeOff then Settled
                       else if row.received > 0 then PartiallySettled else Unpaid)
  }

  ghost function ReceivableOf(ar: Ledger, p: Id): (r: Option<Id>)
    ensures r.Some? ==> OwedOn(ar, r.value, p)
    ensures r.None? ==> forall x :: !OwedOn(ar, x, p)
  {
    if exists r :: OwedOn(ar, r, p) then var r :| OwedOn(ar, r, p); Some(r) else None
  }

  ghost function AdjustPlan(b: Books, i: PlanInput): Outcome<Books> {
    var con := b.con;
    if i.version < 1 || !i.hasReason || i.due.None? || i.amount.None? || i.amount.value <= 0 then Refused(Invalid)
    else if i.id !in con.plans || con.plans[i.id].version != i.version || con.plans[i.id].status != PlanConfirmed
    then Refused(Conflict)
    else
      var row, due, amount, owed := con.plans[i.id], i.due.value, i.amount.value, ReceivableOf(b.ar, i.id);
      if owed.None? then Refused(Conflict)
      else
        var r := b.ar[owed.value];
        if r.received + r.writeOff > amount then Refused(Conflict)
        else if r.invoiced + ReservedTotal(b.inv.requests, owed.value) > amount then Refused(Conflict)
        else
          var refusal := RequireCoverage(con, row.snapshot, PlanTotal(con.plans, row.snapshot) - row.amount, amount, Some(row.amount), i.policy);
          if refusal.Some? then Refused(refusal.value)
          else Done(b.(
            con := con.(plans := con.plans[i.id := row.(due := due, amount := amount, version := row.version + 1)]),
            ar := b.ar[owed.value := Resized(r, due, amount)]))
  }

  /** A dunning case is opened for a plan or its receivable. */
  function Dun(b: Books, p: Id): Outcome<Books> {
    if p !in b.con.plans then Refused(NotFound)
    else Done(b.(con := b.con.(dunned := b.con.dunned + {p})))
  }

  // ---------- contract events

  /** `snapshot`, `ids` and `hold` are the random keys the transaction draws. */
  datatype ContractEvent = ContractEvent(
    event: Id, contract: Id, version: int, amount: int, customer: Id, currency: Id, terms: seq<Term>,
    snapshot: Id, ids: nat -> Id, hold: Id)

  function SumTerms(terms: seq<Term>): int {
    if terms == [] then 0 else SumTerms(terms[..|terms| - 1]) + terms[|terms| - 1].amount
  }

  function PlanOf(s: Id, t: Term): Plan {
    Plan(s, t.installment, t.due, t.amount, false, PendingConfirmation, 1)
  }

  /** One plan per term, in order; the unique keys refuse a used id or installment. */
  ghost function InsertTerms(plans: map<Id, Plan>, s: Id, terms: seq<Term>, ids: nat -> Id): Outcome<map<Id, Plan>> {
    if terms == [] then Done(plans)
    else
      var k := |terms| - 1;
      var before := InsertTerms(plans, s, terms[..k], ids);
      if before.Refused? then before
      else if terms[k].amount <= 0 || terms[k].installment < 1 then Refused(Invalid)
      else if ids(k) in before.value || (exists p :: Taken(before.value, p, s, terms[k].installment)) then Refused(Conflict)
      else Done(before.value[ids(k) := PlanOf(s, terms[k])])
  }

  function SnapshotOf(e: ContractEvent): Snapshot {
    Snapshot(Some(e.contract), e.version, e.amount, e.customer, e.currency, Effective)
  }

  ghost function FirstVersion(b: Books, e: ContractEvent): Outcome<Books> {
    var con := b.con;
    if e.snapshot in con.snapshots then Refused(Conflict)
    else
      var inserted := InsertTerms(con.plans, e.snapshot, e.terms, e.ids);
      if inserted.Refused? then Refused(inserted.error)
      else if SumTerms(e.terms) != e.amount then Refused(Invalid)
      else Done(b.(con := con.(
        streams := con.streams[e.contract := e.version], snapshots := con.snapshots[e.snapshot := SnapshotOf(e)],
        plans := inserted.value, events := con.events + {e.event})))
  }

  // ---------- revision

  predicate GoodTerm(t: Term) {
    0 < t.amount && 1 <= t.installment
  }

  predicate NormalTerms(terms: seq<Term>) {
    && (forall k :: 0 <= k < |terms| ==> GoodTerm(terms[k]))
    && (forall j, k :: 0 <= j < k < |terms| ==> terms[j].installment != terms[k].installment)
  }

  function TermFor(terms: seq<Term>, installment: int): (t: Option<Term>)
    ensures t.Some? ==> t.value in terms && t.value.installment == installment
    ensures t.None? ==> forall k :: 0 <= k < |terms| ==> terms[k].installment != installment
  {
    if terms == [] then None
    else if terms[|terms| - 1].installment == installment then Some(terms[|terms| - 1])
    else TermFor(terms[..|terms| - 1], installment)
  }

  /** Money has moved or is promised on the plan's receivable. */
  ghost predicate HasFacts(b: Books, p: Id) {
    exists r :: OwedOn(b.ar, r, p)
      && (b.ar[r].received != 0 || b.ar[r].writeOff != 0 || b.ar[r].invoiced != 0 || ReservedTotal(b.inv.requests, r) != 0)
  }

  predicate DrawnBy(b: Books, q: Id, r: Id) {
    q in b.inv.requests && r in b.inv.requests[q].lines
  }

  predicate PaidBy(b: Books, a: Id, r: Id) {
    a in b.cash.allocations && b.cash.allocations[a].receivable == r
  }

  ghost predicate Referenced(b: Books, p: Id) {
    p in b.con.dunned || exists r, q :: OwedOn(b.ar, r, p) && DrawnBy(b, q, r)
  }

  /** What the revision does with one old plan. */
  datatype Fate = Carried | Adjusted(term: Term) | Removed | Disputed

  ghost function FateOf(b: Books, p: Id, terms: seq<Term>): Fate
    requires p in b.con.plans
  {
    var row := b.con.plans[p];
    var t := TermFor(terms, row.installment);
    if t.None? then if HasFacts(b, p) || Referenced(b, p) then Disputed else Removed
    else if t.value.amount == row.amount && t.value.due == row.due then Carried
    else if HasFacts(b, p) then Disputed
    else Adjusted(t.value)
  }

  ghost predicate FallsAway(b: Books, prior: Id, terms: seq<Term>, p: Id) {
    p in b.con.plans && b.con.plans[p].snapshot == prior && FateOf(b, p, terms) == Removed
  }

  ghost predicate InDispute(b: Books, prior: Id, terms: seq<Term>, p: Id) {
    p in b.con.plans && b.con.plans[p].snapshot == prior && FateOf(b, p, terms) == Disputed
  }

  function MovePlan(row: Plan, s: Id, fate: Fate): Plan {
    if fate.Adjusted? then row.(snapshot := s, due := fate.term.due, amount := fate.term.amount, version := row.version + 1)
    else row.(snapshot := s)
  }

  function MoveReceivable(row: Receivable, e: ContractEvent, fate: Fate): Receivable {
    var moved := row.(snapshot := e.snapshot, customer := e.customer);
    if fate.Adjusted? then Resized(moved, fate.term.due, fate.term.amount) else moved
  }

  ghost function MovedPlans(b: Books, prior: Id, e: ContractEvent): map<Id, Plan> {
    map p | p in b.con.plans && !FallsAway(b, prior, e.terms, p) ::
      if b.con.plans[p].snapshot == prior then MovePlan(b.con.plans[p], e.snapshot, FateOf(b, p, e.terms)) else b.con.plans[p]
  }

  ghost function MovedLedger(b: Books, prior: Id, e: ContractEvent): Ledger {
    map r | r in b.ar && !FallsAway(b, prior, e.terms, b.ar[r].plan) ::
      if b.ar[r].plan in b.con.plans && b.con.plans[b.ar[r].plan].snapshot == prior
      then MoveReceivable(b.ar[r], e, FateOf(b, b.ar[r].plan, e.terms)) else b.ar[r]
  }

  /** Terms whose installment no old plan has. */
  ghost function NewTerms(plans: map<Id, Plan>, prior: Id, terms: seq<Term>): seq<Term> {
    if terms == [] then []
    else
      var k := |terms| - 1;
      NewTerms(plans, prior, terms[..k])
        + (if exists p :: Taken(plans, p, prior, terms[k].installment) then [] else [terms[k]])
  }

  /** The foreign key of the allocation table blocks the deletion of a receivable. */
  ghost predicate DeletionBlocked(b: Books, prior: Id, terms: seq<Term>) {
    exists r, a :: r in b.ar && FallsAway(b, prior, terms, b.ar[r].plan) && PaidBy(b, a, r)
  }

  predicate SameHold(holds: map<Id, Hold>, h: Id, e: Id, reason: HoldReason) {
    h in holds && holds[h].event == e && holds[h].reason == reason
  }

  /** `registerContractRevisionHold` keeps an existing hold of the same event and reason. */
  ghost function RegisterHold(holds: map<Id, Hold>, id: Id, row: Hold): Outcome<map<Id, Hold>> {
    if exists h :: SameHold(holds, h, row.event, row.reason) then Done(holds)
    else if id in holds then Refused(Conflict)
    else Done(holds[id := row])
  }

  ghost function Disputes(b: Books, prior: Id, terms: seq<Term>): set<Id> {
    set p | p in b.con.plans && InDispute(b, prior, terms, p)
  }

  ghost function DisputeHold(b: Books, prior: Id, e: ContractEvent): Hold {
    var installments := set p | p in Disputes(b, prior, e.terms) :: b.con.plans[p].installment;
    Hold(e.contract, e.event, Some(e.snapshot), PlanDifference, installments)
  }

  ghost function Merge(b: Books, prior: Id, e: ContractEvent): Outcome<Books>
    requires prior in b.con.snapshots
  {
    var con := b.con;
    if e.snapshot in con.snapshots || DeletionBlocked(b, prior, e.terms) then Refused(Conflict)
    else
      var inserted := InsertTerms(MovedPlans(b, prior, e), e.snapshot, NewTerms(con.plans, prior, e.terms), e.ids);
      if inserted.Refused? then Refused(inserted.error)
      else
        var holds := if Disputes(b, prior, e.terms) == {} then Done(con.holds)
                     else RegisterHold(con.holds, e.hold, DisputeHold(b, prior, e));
        if holds.Refused? then Refused(holds.error)
        else Done(b.(
          ar := MovedLedger(b, prior, e),
          con := con.(
            streams := con.streams[e.contract := e.version],
            snapshots := con.snapshots[prior := con.snapshots[prior].(status := Superseded)][e.snapshot := SnapshotOf(e)],
            plans := inserted.value, holds := holds.value, events := con.events + {e.event})))
  }

  predicate CurrentFor(con: ContractTables, s: Id, c: Id) {
    EffectiveFor(con, s, c) && c in con.streams && con.snapshots[s].version == con.streams[c]
  }

  /** The effective snapshot at the stream's version, if any. */
  ghost function CurrentOf(con: ContractTables, c: Id): (s: Option<Id>)
    ensures s.Some? ==> CurrentFor(con, s.value, c)
    ensures s.None? ==> forall x :: !CurrentFor(con, x, c)
  {
    if exists x :: CurrentFor(con, x, c) then var x :| CurrentFor(con, x, c); Some(x) else None
  }

  ghost function Revise(b: Books, e: ContractEvent): Outcome<Books> {
    if !NormalTerms(e.terms) then Refused(Invalid)
    else if CurrentOf(b.con, e.contract).None? then Refused(Conflict)
    else if SumTerms(e.terms) != e.amount then
      var holds := RegisterHold(b.con.holds, e.hold, Hold(e.contract, e.event, None, TermTotalMismatch, {}));
      if holds.Refused? then Refused(holds.error)
      else Done(b.(con := b.con.(holds := holds.value, events := b.con.events + {e.event})))
    else Merge(b, CurrentOf(b.con, e.contract).value, e)
  }

  /** `ingestContract`: a replay is a no-op, an older or equal version is refused. */
  ghost function Ingest(b: Books, e: ContractEvent): Outcome<Books> {
    if e.version < 1 || e.terms == [] || e.amount <= 0 then Refused(Invalid)
    else if e.event in b.con.events then Done(b)
    else if e.contract !in b.con.streams then FirstVersion(b, e)
    else if e.version <= b.con.streams[e.contract] then Refused(Conflict)
    else Revise(b, e)
  }

  // ---------- local baselines

  /** `known` and `numbered` say what the customer and document registers hold: the customer is
      active, and the document number is free. */
  datatype NativeInput = NativeInput(
    id: Id, customer: Id, currency: Id, amount: int, terms: seq<Term>, ids: nat -> Id, known: bool, numbered: bool)

  /** `CreateNativeFinancialBaseline`: a snapshot without a contract, and its plans. */
  ghost function CreateNative(b: Books, i: NativeInput): Outcome<Books> {
    if i.amount <= 0 || !(1 <= |i.terms| <= 100) || !NormalTerms(i.terms) || SumTerms(i.terms) != i.amount then Refused(Invalid)
    else if !i.known then Refused(NotFound)
    else if i.id in b.con.snapshots || !i.numbered then Refused(Conflict)
    else
      var inserted := InsertTerms(b.con.plans, i.id, i.terms, i.ids);
      if inserted.Refused? then Refused(inserted.error)
      else Done(b.(con := b.con.(
        snapshots := b.con.snapshots[i.id := Snapshot(None, 1, i.amount, i.customer, i.currency, Effective)],
        plans := inserted.value)))
  }

  /** `lockNativeUnconsumed`: a plan was confirmed or dunned, money is owed or an invoice was asked for. */
  predicate Consumed(b: Books, s: Id) {
    || (exists p :: p in b.con.plans && b.con.plans[p].snapshot == s && (b.con.plans[p].status != PendingConfirmation || p in b.con.dunned))
    || (exists r :: r in b.ar && b.ar[r].snapshot == s)
    || (exists q :: q in b.inv.requests && b.inv.requests[q].snapshot == s)
  }

  function CancelPending(plans: map<Id, Plan>, s: Id): map<Id, Plan> {
    map p | p in plans ::
      if plans[p].snapshot == s && plans[p].status == PendingConfirmation
      then plans[p].(status := PlanCancelled, version := plans[p].version + 1) else plans[p]
  }

  /** `VoidNativeFinancialBaseline` */
  function VoidNative(b: Books, s: Id, version: int): Outcome<Books> {
    if version < 1 then Refused(Invalid)
    else if s !in b.con.snapshots || b.con.snapshots[s].contract.Some? then Refused(NotFound)
    else if b.con.snapshots[s].status != Effective || b.con.snapshots[s].version != version then Refused(Conflict)
    else if Consumed(b, s) then Refused(Blocked)
    else Done(b.(con := b.con.(
      snapshots := b.con.snapshots[s := b.con.snapshots[s].(status := Voided, version := version + 1)],
      plans := CancelPending(b.con.plans, s))))
  }
}
