/** The import transactions as they update snapshot, facts and certificates.
    internal/service/contract_import.go, import_reconciliation.go */
module ImportDesk {
  import opened Tables
  import opened Totals
  import C = Cash
  import G = ImportGate

  class Snapshot {
    var books: Books
    var id: Id
    var hold: bool
    var version: nat
    var closed: bool
    var manifest: seq<G.Fact>
    var facts: map<G.Fact, Id>
    var certificates: map<Id, G.Certificate>
    var current: Option<Id>

    function State(): G.Import
      reads this
    {
      G.Import(books, id, hold, version, closed, manifest, facts, certificates, current)
    }

    /** `lockImportWrite` on a held snapshot: every stored reconciliation becomes stale. */
    method LockImportWrite()
      modifies this`version, this`current
      ensures State() == G.LockWrite(old(State()))
    {
      version := version + 1;
      current := None;
    }

    method ClaimImportFact(fact: G.Fact, target: Id) returns (err: Option<Error>)
      modifies this`version, this`current, this`facts
      ensures match G.Claim(old(State()), fact, target)
              case Done(n) => State() == n && err == None
              case Refused(x) => State() == old(State()) && err == Some(x)
    {
      if !hold || fact in facts { return Some(Conflict); }
      var declared := false;
      for k := 0 to |manifest|
        invariant State() == old(State())
        invariant declared <==> fact in manifest[..k]
      {
        assert manifest[..k + 1] == manifest[..k] + [manifest[k]];
        if manifest[k] == fact { declared := true; }
      }
      assert manifest[..|manifest|] == manifest;
      if !declared { return Some(Blocked); }
      LockImportWrite();
      facts := facts[fact := target];
      err := None;
    }

    /** `importBalances` under the lock of the snapshot. */
    method ImportBalances() returns (r: Outcome<G.Statement>)
      ensures r == G.Balances(State())
    {
      if id !in books.con.snapshots || !hold { return Refused(NotFound); }
      r := ComputeBalances(G.Seen(State()), books.con.snapshots[id].amount, closed, manifest);
    }

    method ReconcileContractImport(certificate: Id, open: int, receipts: int, invoiced: int) returns (err: Option<Error>)
      modifies this`certificates, this`current
      ensures match G.Certify(old(State()), certificate, open, receipts, invoiced)
              case Done(n) => State() == n && err == None
              case Refused(x) => State() == old(State()) && err == Some(x)
    {
      hide G.BalancesOf, G.ViewOf;
      if open < 0 || receipts < 0 || invoiced < 0 { return Some(Invalid); }
      var s := ImportBalances();
      var v := G.Seen(State());
      if s.Refused? { return Some(s.error); }
      if open != s.value.open || receipts != s.value.receipts || invoiced != s.value.invoiced || certificate in certificates { return Some(Conflict); }
      certificates := certificates[certificate := G.Certificate(version, s.value, v)];
      current := Some(certificate);
      err := None;
    }

    method ReleaseContractImport(certificate: Id, expected: nat, ownerAgrees: bool) returns (err: Option<Error>)
      modifies this`hold
      ensures match G.Let(old(State()), certificate, expected, ownerAgrees)
              case Done(n) => State() == n && err == None
              case Refused(x) => State() == old(State()) && err == Some(x)
    {
      hide G.BalancesOf, G.ViewOf;
      if current != Some(certificate) || !hold || certificate !in certificates { return Some(Conflict); }
      var stored := certificates[certificate];
      var s := ImportBalances();
      if s.Refused? { return Some(s.error); }
      if stored.version != version || stored.version != expected || stored.statement != s.value { return Some(Conflict); }
      if !closed && !ownerAgrees { return Some(Conflict); }
      hold := false;
      err := None;
    }
  }

  /** The sums of the rows, and the declared facts one by one. */
  method ComputeBalances(v: G.View, amount: int, closed: bool, manifest: seq<G.Fact>) returns (r: Outcome<G.Statement>)
    ensures r == G.BalancesOf(v, amount, closed, manifest)
  {
    hide G.SumPlanned, G.SumOriginal, G.SumReceived, G.SumOpen, G.SumInvoiced, G.SumWrittenOff, G.SumNet;
    var planned := PlannedTotal(v.plans);
    var confirmed, received, open, invoiced, writeOff := LedgerTotals(v.ledger);
    var paid := NetPayments(v.payments);
    var receipts := Sum(v.receipts);
    var complete := Complete(v.facts, manifest);
    if (exists p :: p in v.plans && v.plans[p].status != PlanConfirmed) || planned != amount { return Refused(Conflict); }
    if confirmed != amount || open + received + writeOff != confirmed || paid != received { return Refused(Conflict); }
    if |v.facts| != |manifest| || !complete { return Refused(Blocked); }
    if closed && open != 0 { return Refused(Conflict); }
    if invoiced != 0 { return Refused(Blocked); }
    r := Done(G.Statement(planned, confirmed, received, open, receipts, invoiced, |v.facts|));
  }

  method PlannedTotal(plans: map<Id, Plan>) returns (planned: int)
    ensures planned == G.SumPlanned(plans)
  {
    planned := Sum(map p | p in plans :: plans[p].amount);
  }

  /** The columns of the receivables, each summed on its own. */
  method LedgerTotals(ledger: Ledger) returns (original: int, received: int, open: int, invoiced: int, writeOff: int)
    ensures original == G.SumOriginal(ledger) && received == G.SumReceived(ledger) && open == G.SumOpen(ledger)
    ensures invoiced == G.SumInvoiced(ledger) && writeOff == G.SumWrittenOff(ledger)
  {
    original := Sum(map r | r in ledger :: ledger[r].original);
    received := Sum(map r | r in ledger :: ledger[r].received);
    open := Sum(map r | r in ledger :: ledger[r].open);
    invoiced := Sum(map r | r in ledger :: ledger[r].invoiced);
    writeOff := Sum(map r | r in ledger :: ledger[r].writeOff);
  }

  /** Allocated minus reversed, payment by payment. */
  method NetPayments(payments: map<Id, Allocation>) returns (total: int)
    ensures total == G.SumNet(payments)
  {
    total := 0;
    ghost var all := map a | a in payments :: C.NetPart(payments[a]);
    var rest := payments.Keys;
    ghost var left := all;
    while rest != {}
      invariant rest <= payments.Keys && left == map a | a in payments && a in rest :: C.NetPart(payments[a])
      invariant total + Total(left) == Total(all)
      decreases |rest|
    {
      var a :| a in rest;
      var reversed := Sum(payments[a].reversals);
      total := total + payments[a].amount - reversed;
      TotalPick(left, a);
      left := left - {a};
      rest := rest - {a};
    }
    assert left == map[];
    TotalEmpty<Id>();
  }

  method Complete(restored: set<G.Fact>, manifest: seq<G.Fact>) returns (ok: bool)
    ensures ok <==> forall f :: f in manifest ==> f in restored
  {
    for k := 0 to |manifest|
      invariant forall j :: 0 <= j < k ==> manifest[j] in restored
    {
      if manifest[k] !in restored { return false; }
    }
    ok := true;
  }
}
