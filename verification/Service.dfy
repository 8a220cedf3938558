/** The transactions behind one entrance.  Whatever commands are executed, the tables stay those of a
    run from an empty store, so every law proved about runs holds of them. */
module Service {
  import opened Tables
  import opened Cash
  import opened Invoicing
  import opened Contracts
  import opened Settlement
  import CashDesk
  import InvoiceDesk
  import ContractDesk

  method ExecuteCash(db: Database, c: CashCmd) returns (err: Option<Error>)
    modifies db
    ensures Commits(old(db.State()), db.State(), CashTransaction(old(db.State()), c), err)
  {
    hide CreateReceipt, ConfirmAllocation, ReverseAllocation, CreateDifference, ResolveDifference, ApproveDifference, ConfirmRefund, DeliverCredit;
    match c
    case CreateReceiptCmd(p, customer, currency, amount) => err := CashDesk.CreateReceipt(db, p, customer, currency, amount);
    case ConfirmAllocationCmd(i) => err := CashDesk.ConfirmAllocation(db, i);
    case ReverseAllocationCmd(i) => err := CashDesk.ReverseAllocation(db, i);
    case CreateDifferenceCmd(i) => err := CashDesk.CreateReceiptDifference(db, i);
    case ResolveDifferenceCmd(id, version, resolution, user) => err := CashDesk.ResolveReceiptDifference(db, id, version, resolution, user);
    case ApproveDifferenceCmd(id, version, user) => err := CashDesk.ApproveReceiptDifference(db, id, version, user);
    case ConfirmRefundCmd(id, version) => err := CashDesk.ConfirmReceiptRefund(db, id, version);
    case DeliverCreditCmd(e, status) => err := CashDesk.RecordCreditDelivery(db, e, status);
  }

  method ExecuteInvoice(db: Database, c: InvoiceCmd) returns (err: Option<Error>)
    modifies db
    ensures Commits(old(db.State()), db.State(), InvoiceTransaction(old(db.State()), c), err)
  {
    hide CreateRequest, ApproveRequest, RejectRequest, ReviewSpecial, CancelRequest, RecoverRequest, RegisterManual, ApplyCallback,
      MoveCommand, RetryOutbox, RetryDeadLetter, RequestRedFlush, ReviewRedFlush;
    match c
    case CreateRequestCmd(i) => err := InvoiceDesk.CreateInvoiceRequest(db, i);
    case ApproveCmd(q, version, user, i) => err := InvoiceDesk.ApproveInvoiceRequest(db, q, version, user, i);
    case RejectCmd(q, version, user) => err := InvoiceDesk.RejectInvoiceRequest(db, q, version, user);
    case ReviewSpecialCmd(q, version, user, approve, i) => err := InvoiceDesk.ReviewSpecialInvoice(db, q, version, user, approve, i);
    case CancelCmd(q, version, user) => err := InvoiceDesk.CancelInvoiceRequest(db, q, version, user);
    case RecoverCmd(q, version, user, provider) => err := InvoiceDesk.RecoverFailedInvoice(db, q, version, user, provider);
    case RegisterManualCmd(q, id) => err := InvoiceDesk.RegisterManualInvoice(db, q, id);
    case CallbackCmd(e, id) => err := InvoiceDesk.ApplyTaxCallback(db, e, id);
    case MoveCommandCmd(k, to) => err := InvoiceDesk.MoveCommand(db, k, to);
    case RetryOutboxCmd(k) => err := InvoiceDesk.RetryOutboxCommand(db, k);
    case RetryDeadLetterCmd(k) => err := InvoiceDesk.RetryTaxCommandDeadLetter(db, k);
    case RequestRedFlushCmd(id, invoice, user) => err := InvoiceDesk.RequestInvoiceRedFlush(db, id, invoice, user);
    case ReviewRedFlushCmd(id, version, user, approve, i) => err := InvoiceDesk.ReviewInvoiceRedFlush(db, id, version, user, approve, i);
  }

  method ExecuteContract(db: Database, c: ContractCmd) returns (err: Option<Error>)
    requires ContractDesk.UniqueVersions(db.con.snapshots) && ContractDesk.UniquePlans(db.ar)
    modifies db
    ensures Commits(old(db.State()), db.State(), ContractTransaction(old(db.State()), c), err)
  {
    hide Ingest, CreateManualPlan, ConfirmPlan, AdjustPlan, Dun, CreateNative, VoidNative;
    match c
    case IngestCmd(e) => err := ContractDesk.IngestContract(db, e);
    case CreatePlanCmd(i) => err := ContractDesk.CreateManualPlan(db, i);
    case ConfirmPlanCmd(i, r) => err := ContractDesk.ConfirmPlan(db, i, r);
    case AdjustPlanCmd(i) => err := ContractDesk.AdjustPlan(db, i);
    case DunCmd(p) => err := ContractDesk.OpenDunningCase(db, p);
    case CreateNativeCmd(i) => err := ContractDesk.CreateNativeFinancialBaseline(db, i);
    case VoidNativeCmd(s, version) => err := ContractDesk.VoidNativeFinancialBaseline(db, s, version);
  }

  /** The unique keys the contract transactions rely on. */
  lemma KeysHold(b: Books)
    requires Inv(b)
    ensures ContractDesk.UniqueVersions(b.con.snapshots) && ContractDesk.UniquePlans(b.ar)
  {
    forall x, y | x in b.con.snapshots && y in b.con.snapshots && b.con.snapshots[x].contract.Some?
                  && b.con.snapshots[x].contract == b.con.snapshots[y].contract && b.con.snapshots[x].version == b.con.snapshots[y].version
      ensures x == y
    {
      assert SnapshotSound(b.con, x) && SnapshotSound(b.con, y);
    }
    forall x, y | x in b.ar && y in b.ar && b.ar[x].plan == b.ar[y].plan ensures x == y {
      assert ReceivableSound(b.con, b.ar, x) && OwedOn(b.ar, y, b.ar[x].plan);
    }
  }

  lemma CommitsIsStep(b: Books, n: Books, c: Cmd, err: Option<Error>)
    requires Reachable(b) && Commits(b, n, Transaction(b, c), err)
    ensures n == Step(b, c) && Reachable(n) && Inv(n)
  {
    hide Transaction, Reachable, Inv;
    StepReachable(b, c);
    ReachableSound(n);
  }

  /** Any command on tables that some run leads to. */
  method Execute(db: Database, c: Cmd) returns (err: Option<Error>)
    requires Reachable(db.State())
    modifies db
    ensures Commits(old(db.State()), db.State(), Transaction(old(db.State()), c), err)
    ensures Reachable(db.State()) && Inv(db.State())
  {
    hide Reachable, Inv, CashTransaction, InvoiceTransaction, ContractTransaction;
    ghost var before := db.State();
    ReachableSound(before);
    KeysHold(before);
    match c {
      case OfCash(x) => err := ExecuteCash(db, x);
      case OfInvoices(x) => err := ExecuteInvoice(db, x);
      case OfContracts(x) => err := ExecuteContract(db, x);
    }
    CommitsIsStep(before, db.State(), c, err);
  }
}
