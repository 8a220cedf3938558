# Verified model of the settlement service

The settlement service keeps receivables, receipts, invoices, contract versions and archived files
in database rows that short transactions change. Several balances are stored redundantly and changed
by many functions, several updates are conditional without a check of the affected rows, and the
external systems (tax provider, file gateway, credit feed) answer late, twice or not at all. This
project models those transactions and proves what the rows then always satisfy.

`dafny verify dfyconfig.toml` checks everything (Dafny 4.11).

## How it is organised

* `Tables` holds the rows and the `Database` object whose tables the transactions reassign; money is
  integer cents. `Totals` is the theory of column sums.
* `Cash`, `Billing`, `Invoicing` and `Contracts` specify every transaction as a function from the
  tables to the new tables or an error, and state the invariants. `CashDesk`, `InvoiceDesk` and
  `ContractDesk` are the transactions in the form of the source: guards in order, loops over rows,
  updates in place. Each is proved to commit exactly what its specification says, or to refuse with
  the specified error and leave the tables unchanged.
* `InvoicingProofs` and `ContractProofs` prove that every transaction keeps its invariant.
  `Settlement` puts all transactions together: a run is a sequence of commands, refused ones included,
  and every state of every run satisfies the three invariants at once. `Histories` proves what no later
  step takes back. `Guarantees` and `CreditRuns` state the promises of the service over whole runs,
  `Replays` what repeated, late and wrongly named provider reports can do, and `Revisions` exactly when
  a contract revision is accepted. `CashOutcomes`, `InvoiceOutcomes`, `PlanOutcomes`,
  `RevisionOutcomes` and `ImportOutcomes` say, column by column and apart from the specifications, when
  each transaction is accepted and what it leaves; `InvoiceFaces` which face an issued invoice has in
  every run. `Scenarios` and `InvoiceScenarios` are concrete runs from an empty
  store for the cases under Findings. `Service` executes any command through the imperative
  transactions and keeps the tables among those a run leads to.
* `ImportGate` puts the historical import in front of that store: which transactions a held snapshot
  lets through, when its version rises, when it may be released. `ImportDesk` is its imperative form.
* `Responsibility` is the responsibility stream; `Outbox` the leased event outbox, with
  `OutboxRefinement` tying it to the tax commands of the issuing protocol.
* `FileGateway` is the gateway as an environment: any request that was ever sent may be executed at any
  later time and any number of times. `ExportJob` and `Archive` are the two journals in front of it as
  state machines over their transactions, with calls that may not arrive, answers that may be lost and
  commits that may fail; `ExportWorker` and `ArchiveService` are their imperative forms.
  `ExportProgress`, `ArchiveProgress` and `OutboxProgress` say what is achieved when calls are answered.

## Assumptions

* Transactions are serial: each is one atomic step, and a transaction that holds a row lock across an
  external call holds it until it ends. A refused transaction rolls back.
* Identifiers drawn by a transaction are parameters; an insert of a used id is a duplicate key. Unique
  keys relied on: idempotency keys, inbox event ids (the id stands for provider and event id),
  (request, receivable) of reservations, (snapshot, installment) of plans, plan of receivables,
  (contract, version) of snapshots, red-flush request of the red-flush relation, (red-flush request,
  line) of reversal rows, content of documents. The foreign key from allocations to
  receivables is modelled: it blocks a deletion.
* The gateway gives distinct request keys distinct files, refuses uploads under a retired key and
  does not make a released binding again.
* An outbox worker works on one batch at a time and worker identities are distinct.

## Findings

* A revision that drops an installment whose receivable was paid and fully reversed is refused as a
  whole: no fact is left, so the code deletes the receivable, and the allocation rows block that.
  `Scenarios.ReversedPaymentBlocksRevision` is such a run; `Revisions.RevisionAcceptedIff` is the exact
  condition.
* A red-flush report is checked against the request of its attempt, but written to the request it
  names, and the two are never compared. `InvoiceScenarios.ReportCanFlushAnother` marks a request
  flushed whose invoice stands; `ReportCanRewriteFinished` sets a finished request back;
  `IgnoredRedReportCanApply` makes an ignored report apply. `Replays.ReportWritesOwnIff` and
  `ReportKeepsTerminalIff` are the exact conditions of one report. In any run the joint invariant with
  all money laws holds without a condition (`Settlement.RunSound`): a line is taken back at most once,
  and the invoiced amount is that of the standing lines. Runs whose reports name their own request or
  none also keep finished requests (`Replays.FinishedRedStays`) and ignore repeated red-flush reports
  (`Replays.RedeliveredRedReport`).
* The cancellation guard looks for inbox rows in state UNKNOWN, but no inbox row ever has it. An
  unknown report that was ignored after a failure therefore does not block the cancellation, and
  raises the sequence of the abandoned attempt when it is delivered again under a new event id
  (`InvoiceScenarios.RedeliveryCanRaiseSequence`). `Replays.RedeliveredIssueReport` says exactly when a
  repeated issue report changes anything.
* A red invoice can be red-flushed. The ledger stays right, but the invoice so produced fails the
  detail check (`InvoiceScenarios.RedOfRedFailsDetailCheck`): a red passes exactly when its original
  had a positive gross amount (`Billing.RedVerifiesIff`).
* A paper invoice is registered with its header only, so it fails the detail check
  (`InvoiceScenarios.PaperInvoiceFailsDetailCheck`, exactly `Guarantees.InvoiceFaceVerifies`).
* A plan adjustment can settle a receivable without a credit fact, and unsettle one that has a fact
  (`Scenarios.AdjustmentCanSettle`, `AdjustmentCanUnsettle`; `CreditRuns.StepCredits` is the exact
  condition of every step).
* A difference that is approved for reuse returns its money to the receipt but leaves the receipt's
  status. If the rest was allocated meanwhile, the receipt stays marked as fully allocated and the money
  cannot be allocated until something is reversed (`Scenarios.CarriedMoneyIsLocked`;
  `CashOutcomes.StepKeepsUsableIff` is the exact condition of every step).

## Model

| member | source | states |
|---|---|---|
| Guarantees.ReceiptsConserved | internal/service/service.go:660-687 | in every state of every run, receipt amount = unallocated + allocated minus reversed + differences held or refunded, and all three parts are non-negative |
| Guarantees.ReceivablesConserved | internal/service/reversal.go:57-111 | in every state of every run, original = open + received + write-off, received is the sum of net allocations, no part is negative, and the collection status is read off open and received |
| Guarantees.ReversalAcceptedIff | internal/service/reversal.go:57-118 | the exact condition under which a reversal is accepted; the negative-received exit and the missing-row exits are not part of it, so they are unreachable |
| CashOutcomes.AllocationAcceptedIff | internal/service/service.go:568-657 | an allocation is accepted if and only if receipt and receivable have the same customer and currency, both have room for the amount, the ids are unused and the receipt is not marked as used up |
| CashOutcomes.AllocationOutcome | internal/service/service.go:660-715 | exactly the amount moves; the receipt is marked used up exactly when nothing is left, the receivable settled exactly when nothing is open, and a credit fact is written exactly for an eligible settling allocation |
| CashOutcomes.RestCanBeAllocated | internal/service/service.go:670-680 | after an allocation that leaves money, any further allocation that fits is accepted |
| CashOutcomes.ReversalOutcome | internal/service/reversal.go:57-118 | exactly the amount moves back; the receipt is available exactly when all of it is unallocated, the allocation reversed exactly when nothing of it is left |
| CashOutcomes.ReversedMoneyCanBeAllocated | internal/service/reversal.go:98-106 | reversed money can be allocated again |
| CashOutcomes.DifferenceOutcome | internal/service/role_finance.go:37-90 | the exact acceptance of a difference, and that all but a shortpayment take their amount out of the balance |
| CashOutcomes.DifferenceStepsAcceptedIff | internal/service/role_finance.go:94-165 | exactly when a difference is resolved, approved and refunded, with its separation of duties |
| CashOutcomes.ResolutionIsCarriedOut | internal/service/role_finance.go:94-165 | resolution and approval together: a refund waits outside the balance, anything else is approved and returns its amount |
| CashOutcomes.RefundOutcome | internal/service/refund_confirmation.go:37-115 | only an approved refund is confirmed, and only its status moves |
| CashOutcomes.StepKeepsUsableIff | internal/service/role_finance.go:143-150 | a step leaves every receipt with money usable if and only if it does not return a difference to a receipt marked as used up |
| Scenarios.CarriedMoneyIsLocked | internal/service/role_finance.go:143-150 | a run from an empty store that ends with unallocated money on a used-up receipt, whose fitting allocation is refused |
| Cash.RemainderIsReceived | internal/service/reversal.go:95-98 | what is left of an allocation never exceeds what its receivable has received |
| Cash.ConfirmAllocationKeeps | internal/service/service.go:640-715 | an accepted allocation keeps both conservation laws and all row invariants |
| Cash.ReverseAllocationKeeps | internal/service/reversal.go:57-111 | an accepted partial or full reversal keeps both conservation laws and the allocation status |
| Cash.ReversalUndoesConfirmation | internal/service/reversal.go:57-111 | confirming an amount and reversing all of it restores every receivable row and every receipt balance |
| Cash.CreateReceiptKeeps | internal/service/service.go:457-565 | keeps both conservation laws: a new receipt is wholly unallocated |
| Cash.CreateDifferenceKeeps | internal/service/role_finance.go:37-90 | keeps both conservation laws: what a difference holds leaves the unallocated balance |
| Cash.ResolveDifferenceKeeps | internal/service/role_finance.go:94-120 | keeps both conservation laws |
| Cash.ApproveDifferenceKeeps | internal/service/role_finance.go:123-165 | keeps both conservation laws: money that is not refunded returns to the unallocated balance |
| Cash.ConfirmRefundKeeps | internal/service/refund_confirmation.go:37-115 | keeps both conservation laws: refunded money stays counted against the receipt |
| CashDesk.CreateReceipt | internal/service/service.go:457-565 | commits the specified rows, or refuses with the specified error and changes nothing |
| CashDesk.ConfirmAllocation | internal/service/service.go:568-722 | all guards in order, then exactly the specified rows, or the specified error and a rollback |
| CashDesk.PostAllocation | internal/service/service.go:660-715 | the four row updates of an allocation add up to the specified new state |
| CashDesk.ReverseAllocation | internal/service/reversal.go:12-140 | all guards in order with the remaining amount summed over the reversal rows, then exactly the specified rows |
| CashDesk.PostReversal | internal/service/reversal.go:61-118 | the row updates of a reversal add up to the specified new state |
| CashDesk.CreateReceiptDifference | internal/service/role_finance.go:37-90 | commits the specified rows or refuses |
| CashDesk.ResolveReceiptDifference | internal/service/role_finance.go:94-120 | commits the specified rows or refuses |
| CashDesk.ApproveReceiptDifference | internal/service/role_finance.go:123-165 | commits the specified rows or refuses |
| CashDesk.ConfirmReceiptRefund | internal/service/refund_confirmation.go:37-115 | commits the specified rows or refuses |
| CreditRuns.FactsFollowSettlement | internal/service/service.go:688-715 | in every run of safe steps a receivable has exactly one open credit fact when it is settled and none otherwise |
| CreditRuns.StepCredits | internal/service/invoice_totals.go:56-109 | a step keeps facts and settlement in step if and only if it is safe: a settling allocation is eligible, the fact a reversal must undo can be closed, a plan adjustment does not change settledness |
| CreditRuns.NeverCompensatedTwice | internal/service/invoice_totals.go:56-109 | in every run no completed fact has two compensations, and every fact belongs to an allocation of its receivable |
| Scenarios.AdjustmentCanSettle | internal/service/manual_plan.go:115-122 | a run from an empty store in which a plan adjustment settles a half-paid receivable without any credit fact |
| Scenarios.AdjustmentCanUnsettle | internal/service/manual_plan.go:115-122 | a run in which a plan adjustment reopens a settled receivable while its credit fact stays open |
| CreditRuns.IngestKeepsSettlement | internal/service/contract_revision.go:297-330 | no contract revision settles or unsettles a receivable |
| Cash.ConfirmKeepsCreditIff | internal/service/service.go:688-715 | an allocation keeps facts and settlement in step exactly when a settling one is eligible |
| Cash.ReverseKeepsCreditIff | internal/service/reversal.go:86-118 | a reversal keeps them in step exactly when the fact it must undo is unsent or the feed is subscribed |
| Cash.CompensateEffect | internal/service/invoice_totals.go:56-109 | compensation closes at most one open fact, of that receivable only |
| CashDesk.EnqueueCreditReversal | internal/service/invoice_totals.go:56-109 | cancels the newest open fact if unsent, otherwise compensates it when subscribed |
| CashDesk.LatestFact | internal/service/invoice_totals.go:56-75 | the loop finds the newest open fact, or none exactly when there is none |
| Guarantees.LockStep | internal/service/invoice_approval.go:52-100 | in every state of every run: a live attempt exists exactly for pending or unknown requests and is the newest attempt; a blue invoice exists exactly for issued requests and is unique; all reservations have the status the request dictates |
| Guarantees.InvoicedIsStanding | internal/service/invoice_totals.go:11-44 | in every state of every run: invoiced amount = invoiced reservations without a reversal; invoiced plus reserved never exceeds the receivable; a line is reversed at most once over all red flushes |
| InvoiceOutcomes.RequestAcceptedIff | internal/service/invoice_request.go:15-122 | a request is accepted if and only if its bill is well formed, the draws add up to it and each asks for no more than is neither standing invoiced nor reserved on a receivable of the effective snapshot |
| InvoiceOutcomes.RequestReserves | internal/service/invoice_request.go:100-138 | one reservation per draw, of its amount; what is free falls by exactly that |
| InvoiceOutcomes.DecisionAcceptedIff | internal/service/invoice_approval.go:13-48 | exactly who may approve or review a request, and when an attempt can be started |
| InvoiceOutcomes.ApprovalOutcome | internal/service/invoice_approval.go:13-100 | an ordinary request gets its next pending attempt and command, a special one goes to its review |
| InvoiceOutcomes.SpecialReviewOutcome | internal/service/invoice_approval.go:155-197 | an approved special review starts an attempt, a refused one rejects the request and gives back every reservation |
| InvoiceOutcomes.RejectionOutcome | internal/service/invoice_approval.go:105-150 | exactly when a rejection is accepted, and that it gives back every reservation |
| InvoiceOutcomes.CancelAcceptedIff | internal/service/invoice_cancel.go:47-135 | a cancellation is accepted if and only if nothing was issued, no conflict is filed and the provider provably never accepted the newest attempt |
| InvoiceOutcomes.CancellationOutcome | internal/service/invoice_cancel.go:136-150 | the request is closed, every reservation is free again, exactly the newest attempt is abandoned |
| InvoiceOutcomes.RecoverAcceptedIff | internal/service/invoice_recovery.go:13-75 | a failed request is recovered if and only if its newest attempt is a reported failure without a conflicting result |
| InvoiceOutcomes.RecoveryOutcome | internal/service/invoice_recovery.go:60-75 | the request waits for approval again and keeps its reservations |
| InvoiceOutcomes.ManualOutcome | internal/service/invoice_manual.go:10-94 | exactly when a paper invoice is registered; it has the header and no lines, and every line is invoiced |
| InvoiceOutcomes.IssueAppliedIff | internal/service/tax_callback.go:158-220 | an issue report is applied if and only if it is fresh, its attempt is live, a failure has a code and an issued result repeats the bill |
| InvoiceOutcomes.IssueOutcome | internal/service/tax_callback.go:200-245 | attempt, request and invoice after an applied report: an issued one stores the reported bill with its lines and invoices every line |
| InvoiceOutcomes.LateSuccessBlocks | internal/service/tax_callback.go:184-197 | a success reported for a failed or abandoned attempt is filed as a conflict, after which the request can neither be attempted nor cancelled |
| InvoiceOutcomes.FlushOutcome | internal/service/tax_callback.go:342-380 | the original is flushed, the red invoice has header and lines with the sign turned, the named request is linked, every standing line is taken back |
| InvoiceOutcomes.RedReportOutcome | internal/service/tax_callback.go:325-341 | an unknown or failed red-flush report moves its attempt and the named request and nothing else |
| InvoiceOutcomes.RedRequestOutcome | internal/service/invoice_redflush_request.go:11-85 | exactly when a red flush may be requested |
| InvoiceOutcomes.RedReviewAcceptedIff | internal/service/invoice_redflush_review.go:11-87 | exactly when a submitted red flush is decided |
| InvoiceOutcomes.RedReviewOutcome | internal/service/invoice_redflush_review.go:11-87 | a rejection closes the request, an approval opens its one attempt and command |
| InvoiceOutcomes.MarksAlwaysFollow | internal/service/invoice_totals.go:11-44 | whatever the transaction, an invoiced amount that changes takes the mark none, partial or full with it, and one that stays leaves its receivable as it was |
| InvoiceOutcomes.DeliveryOutcome | internal/outbox/worker.go:110-150 | a delivered command makes its pending attempt an accepted one |
| InvoiceOutcomes.AcceptedBlocksCancel | internal/service/invoice_cancel.go:60-92 | once the newest attempt is accepted its request cannot be cancelled |
| InvoiceOutcomes.DeadLetterRetriedIff | internal/service/tax_deadletter.go:118-262 | a dead issue command is retried if and only if its own attempt is pending and unaccepted; the other guards follow in sound tables |
| InvoiceFaces.ChannelDecidesFace | internal/service/tax_callback.go:215-232 | in every run a blue invoice issued on the tax channel has the bill of its request with all lines and passes the detail check; it has no lines exactly when it was registered on paper |
| InvoiceFaces.BlueHasIssuedAttempt | internal/service/invoice_manual.go:44-94 | in every run a blue invoice has an issued attempt, which decides its face |
| InvoicingProofs.ClampNeverFires | internal/service/invoice_totals.go:27-38 | the amount taken back is part of the stored invoiced amount, so clamping at zero has no effect |
| InvoicingProofs.OneLive | internal/service/invoice_approval.go:52-100 | at most one attempt of a request is live, it is the newest, and the request status mirrors it |
| InvoicingProofs.CreateRequestKeeps | internal/service/invoice_request.go:90-122 | keeps the invoicing invariant: invoiced plus reserved stays within every receivable |
| InvoicingProofs.CreateAttemptKeeps | internal/service/invoice_approval.go:52-100 | keeps the invoicing invariant: the new attempt is the one live attempt and the newest |
| InvoicingProofs.ApproveRequestKeeps | internal/service/invoice_approval.go:13-48 | approval or referral to special review keeps the invoicing invariant |
| InvoicingProofs.RejectRequestKeeps | internal/service/invoice_approval.go:105-150 | keeps the invoicing invariant, by which a rejected request holds no reservation |
| InvoicingProofs.ReviewSpecialKeeps | internal/service/invoice_approval.go:155-197 | special review keeps the invoicing invariant both ways |
| InvoicingProofs.CancelRequestKeeps | internal/service/invoice_cancel.go:93-150 | keeps the invoicing invariant, by which a cancelled request has no live attempt and holds no reservation |
| InvoicingProofs.RecoverRequestKeeps | internal/service/invoice_recovery.go:40-75 | keeps the invoicing invariant, by which a recovered request still holds its reservations and has no live attempt |
| InvoicingProofs.RegisterManualKeeps | internal/service/invoice_manual.go:44-94 | keeps the invoicing invariant, by which the one live attempt is closed and every reservation invoiced |
| InvoicingProofs.IssueCallbackKeeps | internal/service/tax_callback.go:158-245 | every issue report keeps the invariant, although the request update is conditional and its affected rows are not checked |
| InvoicingProofs.IssueCallbackResult | internal/service/tax_callback.go:175-245 | a report moves a live attempt, raises the sequence of a dead one, or changes nothing |
| InvoicingProofs.RedCallbackKeeps | internal/service/tax_callback.go:289-380 | every red-flush report keeps the invariant, whichever red-flush request it names, including flushes of a red invoice |
| InvoicingProofs.RelationDecidesFlush | internal/service/tax_callback.go:463-502 | the unique key of the relation alone decides: a named request without a relation row has taken back no line, so no second reversal row is ever refused |
| InvoicingProofs.MoveCommandKeeps | internal/outbox/worker.go:110-150 | keeps the invoicing invariant when a delivery record accepts an attempt |
| InvoicingProofs.ReviewRedFlushKeeps | internal/service/invoice_redflush_review.go:11-87 | reviewing a red flush keeps the invariant |
| InvoicingProofs.RequestRedFlushKeeps | internal/service/invoice_redflush_request.go:11-85 | requesting a red flush keeps the invariant |
| InvoiceDesk.InvoiceAvailableForUpdate | internal/service/invoice_reservation.go:11-46 | the running balance after subtracting every reservation is original minus invoiced minus the total reserved, with the same refusals |
| InvoiceDesk.CheckDraws | internal/service/invoice_request.go:90-99 | the first line that does not fit decides the refusal |
| InvoiceDesk.CreateInvoiceRequest | internal/service/invoice_request.go:15-138 | commits the specified request and reservations, or refuses with the specified error |
| InvoiceDesk.LatestAttempt | internal/service/invoice_cancel.go:47-55 | the loop finds the attempt with the highest number |
| InvoiceDesk.CreateApprovedAttempt | internal/service/invoice_approval.go:52-100 | commits attempt, command and request status, or refuses |
| InvoiceDesk.ApproveInvoiceRequest | internal/service/invoice_approval.go:13-48 | commits the specified state or refuses |
| InvoiceDesk.RejectInvoiceRequest | internal/service/invoice_approval.go:105-150 | commits the specified state or refuses |
| InvoiceDesk.ReviewSpecialInvoice | internal/service/invoice_approval.go:155-197 | commits the specified state or refuses |
| InvoiceDesk.CancelInvoiceRequest | internal/service/invoice_cancel.go:25-157 | commits the specified state or refuses, in the lock order of the source |
| InvoiceDesk.RecoverFailedInvoice | internal/service/invoice_recovery.go:13-84 | commits the specified state or refuses |
| InvoiceDesk.RegisterManualInvoice | internal/service/invoice_manual.go:10-104 | commits the specified state or refuses |
| InvoiceDesk.FinalizeAllocations | internal/service/tax_callback.go:432-461 | the loop turns every reserved line into an invoiced one and raises its receivable once |
| InvoiceDesk.ReverseAllocations | internal/service/tax_callback.go:463-502 | the loop takes back every invoiced line that no other red flush took back, once |
| InvoiceDesk.ApplyInvoiceIssueCallback | internal/service/tax_callback.go:158-245 | the guards in source order decide verdict and new state |
| InvoiceDesk.RecordLateIssueCallback | internal/service/tax_callback.go:254-286 | a late success or unknown only raises the sequence, a late failure does nothing |
| InvoiceDesk.ApplyRedFlushCallback | internal/service/tax_callback.go:289-380 | the guards in source order, on the request of the attempt, decide the verdict; the row written is that of the request the report names, and of the attempt only if it names none |
| InvoiceDesk.ApplyTaxCallback | internal/service/tax_callback.go:56-127 | one inbox row per event; a repeated event with other content is refused |
| InvoiceDesk.RecordDelivery | internal/outbox/worker.go:110-150 | a delivery accepts the attempt only if it is still pending |
| InvoiceDesk.MoveCommand | internal/outbox/worker.go:48-175 | claim, failure, dead letter and delivery of a command row, or the specified refusal |
| InvoiceDesk.RetryTaxCommandDeadLetter | internal/service/tax_deadletter.go:118-262 | requeues a dead command only if its attempt is the pending, unaccepted, newest one |
| InvoiceDesk.RetryOutboxCommand | internal/service/outbox_action.go:10-36 | requeues any dead command |
| InvoiceDesk.RequestInvoiceRedFlush | internal/service/invoice_redflush_request.go:11-85 | commits the specified state or refuses |
| InvoiceDesk.ReviewInvoiceRedFlush | internal/service/invoice_redflush_review.go:11-87 | commits the specified state or refuses |
| Replays.RedeliveredIssueReport | internal/service/tax_callback.go:100-127 | in every run, an issue report filed before and delivered again under any event id leaves requests, invoices, red flushes and balances alone, and changes the attempts if and only if it raises the sequence of an abandoned one, under explicit guards |
| Replays.RedeliveredRedReport | internal/service/tax_callback.go:289-324 | in every run, a red-flush report filed before is at most filed again if and only if it fails the guards of its attempt, and it always fails them when all reports so far named their own request |
| InvoiceScenarios.RedeliveryCanRaiseSequence | internal/service/tax_callback.go:254-262 | a run from an empty store: failure, ignored unknown report, cancellation; the same report under a new event id then raises the sequence |
| InvoiceScenarios.CancelledReachable | internal/service/invoice_cancel.go:118-125 | the cancellation is accepted although an unknown report was filed: both states are reached from an empty store |
| Replays.StaleReportIsHarmless | internal/service/tax_callback.go:175-178 | an issue or red-flush report at or below the stored sequence of its attempt is at most filed |
| Replays.InboxAlwaysSound | internal/service/tax_callback.go:175-197 | in every run, every filed report carries the identity of its attempt, and no filed issue report can move its attempt again |
| Replays.ReportWritesOwnIff | internal/service/tax_callback.go:300-304 | an applied red-flush report writes the request of its attempt and no other if and only if it names that one or none |
| Replays.ReportKeepsTerminalIff | internal/service/tax_callback.go:328-375 | an applied red-flush report leaves all finished red-flush requests alone if and only if the one it names is not finished |
| Replays.FinishedRedStays | internal/service/tax_callback.go:311-321 | between two points of a run in which reports name their own request, a finished red-flush request row does not change |
| Replays.RedAlwaysSound | internal/service/tax_callback.go:308-324 | in runs whose reports name their own request, a flushed request has a flushed original, a failed one has no live attempt, and no filed report can move its attempt again |
| InvoiceScenarios.ReportCanFlushAnother | internal/service/tax_callback.go:363-375 | a run from an empty store in which the result of one red flush is accepted under the name of another |
| InvoiceScenarios.CrossedRows | internal/service/tax_callback.go:363-375 | its outcome: the named request is flushed while its invoice stands, the own request is pending while its invoice is flushed, and the invoiced amount is right |
| InvoiceScenarios.RealResultIsIgnored | internal/service/tax_callback.go:311-313 | every result for the request flushed by mistake, the issued one included, is then ignored |
| InvoiceScenarios.ReportCanRewriteFinished | internal/service/tax_callback.go:328-331 | a later report of that run names the finished request again and is applied |
| InvoiceScenarios.RewrittenRow | internal/service/tax_callback.go:328-331 | the finished request goes from flushed back to unknown, its red invoice still linked |
| InvoiceScenarios.IgnoredRedReportCanApply | internal/service/tax_callback.go:308-324 | the ignored report then passes all guards when it is delivered again |
| Histories.RunLater | internal/service/tax_callback.go:175-197 | between any two points of a run attempt sequences and contract versions do not fall, an ended issue attempt keeps its status unless a cancellation abandons a failed one, an ended red-flush attempt keeps its status, terminal requests, inbox rows and superseded or voided snapshots stay |
| Guarantees.CancelIsFinal | internal/service/invoice_cancel.go:47-150 | after a cancellation, at every later point of every run, the request row is unchanged, it has no invoice and no live attempt, its lines are released and every dead-letter retry of its commands is refused |
| Billing.NormalizeItems | internal/service/invoice_items.go:8-58 | accepts exactly the items whose amounts are the rounded products, and returns lines and header that add up |
| Billing.HeaderAddsUp | internal/service/invoice_items.go:8-58 | gross header = net header + tax header, to the cent |
| Billing.GrossWithin | internal/service/invoice_items.go:20-50 | for n lines at rates up to 100% the gross header is within 0.015 n of the unrounded total |
| Billing.VerifyDetailLines | internal/httpapi/api.go:1580-1616 | true exactly when lines exist, add up to the header and agree with its sign |
| Billing.RedVerifiesIff | internal/service/tax_callback.go:342-362 | a red invoice passes the detail check if and only if its original had a positive gross amount |
| Guarantees.InvoiceFaceVerifies | internal/service/tax_callback.go:215-232 | in every run every blue invoice with lines and every red of a blue passes the detail check with the right sign; a blue fails exactly when it has no lines, a red exactly when its original had no positive gross amount |
| InvoiceScenarios.PaperInvoiceFailsDetailCheck | internal/service/invoice_manual.go:56 | a run that registers a paper invoice, which fails the detail check |
| InvoiceScenarios.RedOfRedFailsDetailCheck | internal/service/tax_callback.go:342-362 | a run that flushes a red invoice: the red passes the detail check, its own red does not |
| Guarantees.OneEffectiveSnapshot | internal/service/service.go:248-289 | in every run, each contract has exactly one effective snapshot, at its stream version; every plan sits under an effective snapshot, or is cancelled under a voided baseline, and every receivable under that of its plan |
| Guarantees.VoidedStaysEmpty | internal/service/native_financial_query.go:115-171 | from a voided local baseline on, at every later point of every run, its row is unchanged, its plans are cancelled and no receivable is under it |
| Guarantees.VersionsRise | internal/service/service.go:262-268 | versions never fall, whatever the order and repetition of events |
| ContractProofs.FirstVersionKeeps | internal/service/service.go:283-349 | the first version plans exactly the contract amount and keeps the contract invariant |
| ContractProofs.IngestKeeps | internal/service/service.go:202-349 | every contract event keeps the contract invariant |
| ContractProofs.MergeKeeps | internal/service/contract_revision.go:285-376 | a merged revision keeps the contract invariant |
| ContractProofs.MergeIsExact | internal/service/contract_revision.go:247-340 | if no difference is held, the plans under the new snapshot are exactly the new terms and total the new amount |
| ContractProofs.FactsPinPlan | internal/service/contract_revision.go:262-276 | a plan with received, written-off, invoiced or reserved money keeps amount and date in every merge, and its receivable changes nothing but snapshot and customer |
| ContractProofs.MismatchKeeps | internal/service/contract_revision.go:225-236 | a term-total mismatch only files the event and a hold: no snapshot, plan, receivable or version changes |
| ContractProofs.CreateManualPlanKeeps | internal/service/manual_plan.go:21-72 | a manual plan keeps the contract invariant |
| ContractProofs.ConfirmPlanKeeps | internal/service/service.go:366-454 | keeps the contract invariant, by which a confirmed plan has exactly one receivable with its amount and date |
| ContractProofs.AdjustPlanKeeps | internal/service/manual_plan.go:75-132 | keeps the contract invariant, by which the receivable follows its plan |
| ContractProofs.CreateNativeKeeps | internal/service/native_financial.go:225-284 | a local baseline plans exactly its amount and keeps the contract invariant |
| ContractProofs.VoidNativeKeeps | internal/service/native_financial_query.go:115-171 | voiding a baseline keeps the contract invariant, by which it has no receivable and only cancelled plans |
| Revisions.RevisionAcceptedIff | internal/service/contract_revision.go:297-306 | in every sound state a newer version with normal terms, matching total and fresh keys is accepted if and only if no dropped installment without money, dunning or draws still has an allocation row |
| RevisionOutcomes.PlanFollowsTerm | internal/service/contract_revision.go:262-331 | after an accepted revision a plan without money has exactly the amount and date of its term, and so has its receivable |
| RevisionOutcomes.PlanWithMoneyStays | internal/service/contract_revision.go:262-331 | a plan that bears money keeps its row under the new snapshot, and so does its receivable |
| RevisionOutcomes.CitedPlanStays | internal/service/contract_revision.go:250-262 | a dropped plan that a dunning case or an invoice request refers to keeps its row |
| RevisionOutcomes.DroppedPlanIsGone | internal/service/contract_revision.go:297-306 | a dropped plan without money or reference is gone with its receivable |
| RevisionOutcomes.NewTermIsPlanned | internal/service/contract_revision.go:332-340 | a term without an old plan gets a pending plan of its own |
| RevisionOutcomes.HeldIffContested | internal/service/contract_revision.go:341-376 | a difference is held if and only if some plan bears money and its term differs or is gone, or its term is gone while something refers to it; the held installments are exactly those |
| RevisionOutcomes.OthersStay | internal/service/contract_revision.go:285-376 | the new version stands, and plans, receivables, cash and invoice rows of others are untouched |
| RevisionOutcomes.FirstVersionOutcome | internal/service/service.go:283-349 | the first version is accepted if and only if its terms are positive, distinct and add up; one pending plan per term, nothing else |
| RevisionOutcomes.OldVersionsAreRefused | internal/service/service.go:248-268 | a known event changes nothing, a version that is not newer is refused |
| PlanOutcomes.ManualPlanOutcome | internal/service/manual_plan.go:21-72 | a manual plan is accepted if and only if it is covered under an effective snapshot and its place is free, with both limits as inequalities between amounts |
| PlanOutcomes.ConfirmationAcceptedIff | internal/service/service.go:366-420 | a plan is confirmed if and only if version, reason, amount, coverage and limits allow it |
| PlanOutcomes.ConfirmationOutcome | internal/service/service.go:415-454 | plan and receivable have the chosen amount and date |
| PlanOutcomes.AdjustmentAcceptedIff | internal/service/manual_plan.go:75-118 | a plan is adjusted if and only if the amount covers what was received, written off, invoiced and reserved and the plan stays covered |
| PlanOutcomes.AdjustmentOutcome | internal/service/manual_plan.go:112-132 | plan and receivable have the given amount and date, what was received stays and the rest is open |
| PlanOutcomes.CoverageIff | internal/service/plan_coverage.go:100-197 | the coverage rule as inequalities: gap times 100 at most gap limit times contract, drop times 100 at most drop limit times the previous amount |
| PlanOutcomes.BaselineAcceptedIff | internal/service/native_financial.go:225-284 | a baseline is registered if and only if its terms are normal and add up and its keys are free; one pending plan per term |
| PlanOutcomes.VoidAcceptedIff | internal/service/native_financial_query.go:115-216 | a baseline is voided if and only if no plan was confirmed or dunned and no invoice asked for; its plans are then cancelled |
| Scenarios.ReversedPaymentBlocksRevision | internal/service/contract_revision.go:297-306 | a run from an empty store: plan, confirmation, payment, full reversal; the revision that drops the installment is refused |
| Guarantees.PlanEditStaysWithin | internal/service/plan_coverage.go:100-197 | every accepted create, confirm or adjust leaves the plan total within the contract amount and, without override, within the gap threshold |
| Guarantees.OnlyHeldRevisionsExceed | internal/service/contract_revision.go:341-348 | the only step that can bring a plan total above the contract amount is a revision that puts its new snapshot on hold with the disputed installments |
| ContractDesk.RequirePlanCoverage | internal/service/plan_coverage.go:151-197 | sums the other plans and refuses exactly as specified |
| ContractDesk.CreateManualPlan | internal/service/manual_plan.go:21-72 | commits the specified state or refuses |
| ContractDesk.ConfirmPlan | internal/service/service.go:366-454 | commits the specified state or refuses |
| ContractDesk.AdjustPlan | internal/service/manual_plan.go:75-132 | commits the specified state or refuses |
| ContractDesk.NormalizeContractTerms | internal/service/contract_revision.go:113-137 | accepts exactly positive terms with distinct positive installments, and totals them |
| ContractDesk.InsertTerms | internal/service/service.go:320-337 | one plan per term in order, or the refusal of the first bad term |
| ContractDesk.IngestFirstVersion | internal/service/service.go:283-349 | commits the specified state or refuses |
| ContractDesk.PlanHasFacts | internal/service/contract_revision.go:48-55 | true exactly when money was received, written off, invoiced or reserved on the plan |
| ContractDesk.ClassifyPlans | internal/service/contract_revision.go:247-283 | the maps the loop fills give every old plan its specified fate |
| ContractDesk.RewritePlans | internal/service/contract_revision.go:297-332 | the rewriting loop yields the specified plan table |
| ContractDesk.RewriteReceivables | internal/service/contract_revision.go:299-331 | the receivables follow their plans as specified |
| ContractDesk.RegisterContractRevisionHold | internal/service/contract_revision.go:386-405 | keeps an existing hold of the same event and reason |
| ContractDesk.MergeRevision | internal/service/contract_revision.go:238-376 | commits the specified merge or refuses |
| ContractDesk.ApplyContractRevision | internal/service/contract_revision.go:196-378 | commits the specified revision, holds it, or refuses |
| ContractDesk.IngestContract | internal/service/service.go:202-349 | a replay changes nothing, an older or equal version is refused, otherwise the specified state is committed |
| ContractDesk.CreateNativeFinancialBaseline | internal/service/native_financial.go:225-284 | commits the specified baseline and plans or refuses |
| ContractDesk.NativeConsumed | internal/service/native_financial_query.go:176-216 | true exactly when a plan was confirmed, cancelled or dunned, or a receivable or invoice request exists |
| ContractDesk.VoidNativeFinancialBaseline | internal/service/native_financial_query.go:115-171 | commits the specified state or refuses |
| Settlement.RunSound | internal/service/service.go:568-722 | every state of every run of the modelled cash, invoice, contract and local-baseline transactions satisfies the ledger, invoicing and contract invariants together |
| Service.Execute | internal/service/service.go:568-722 | any command executed on tables that a run leads to commits its specified outcome and leaves tables that a run leads to, so the joint invariant and every law about runs hold of them |
| Settlement.CashStepKeeps | internal/service/service.go:568-722 | cash transactions keep all three invariants |
| Settlement.InvoiceStepKeeps | internal/service/tax_callback.go:56-127 | invoice transactions keep all three invariants, reports that name another red-flush request included |
| Settlement.ContractStepKeeps | internal/service/contract_revision.go:196-378 | contract and plan transactions keep all three invariants, including invoice capacity |
| Settlement.ReferencesSurvive | internal/service/contract_revision.go:297-306 | no merge deletes a receivable that an allocation or reservation refers to |
| ImportGate.VersionStandsForBalances | internal/service/contract_import.go:165-189 | while a snapshot is on hold, two states of a run with equal import version have the same rows and contract amount and the same outcome of the balance computation, whatever ordinary transactions ran in between; what was declared never changes |
| ImportGate.ReleaseIsFaithful | internal/service/import_reconciliation.go:200-217 | an accepted release sees exactly the rows the named reconciliation saw, and the restored facts are the declared ones |
| ImportGate.VersionDecidesRelease | internal/service/import_reconciliation.go:195-217 | the exact condition of a release; comparing the stored statement adds nothing to comparing the version |
| ImportOutcomes.ReconciliationAcceptedIff | internal/service/import_reconciliation.go:39-162 | a reconciliation is accepted if and only if plans are confirmed and they and the receivables come to the contract amount, exactly the declared facts are restored, a closed import has nothing open, and the declared sums are those of the books; the statement stores these sums under their names |
| ImportOutcomes.ReceivedIsPaid | internal/service/import_reconciliation.go:63-70 | in sound books the received amounts are the net allocations, so that guard never fires |
| ImportOutcomes.PartsAddUp | internal/service/import_reconciliation.go:55-62 | open, received and written-off amounts come to the original ones, so that guard never fires |
| ImportOutcomes.NothingInvoicedYet | internal/service/import_reconciliation.go:109-113 | nothing is invoiced on a held snapshot, so that guard never fires |
| ImportOutcomes.RestoreReceiptOutcome | internal/service/contract_import.go:194-270 | exactly when a receipt is restored; fact, receipt and version move together |
| ImportOutcomes.RestoringRaisesReceipts | internal/service/import_reconciliation.go:71-74 | a restored receipt raises the sum of restored receipts by its amount |
| ImportOutcomes.RestoreAllocationOutcome | internal/service/contract_import.go:194-270 | exactly when an allocation is restored, and that it is posted like any other |
| ImportOutcomes.GateStopsIff | internal/service/contract_import.go:286-296 | the exact list of ordinary transactions the hold stops |
| ImportOutcomes.ReleasedGateIsOpen | internal/service/contract_import.go:286-296 | after the release nothing is stopped |
| ImportGate.OrdinaryLeaves | internal/service/contract_import.go:286-296 | every ordinary transaction the gate lets through without a version change leaves the rows of the held snapshot alone |
| ImportGate.NextSteps | internal/service/contract_import.go:165-270 | every import and ordinary step keeps the import invariant, and changes the rows of a held snapshot only together with its version |
| ImportGate.PrepareIsSound | internal/service/contract_import.go:111-145 | a freshly prepared import satisfies the import invariant |
| ImportGate.ValidateManifest | internal/service/contract_import.go:86-104 | accepts exactly the manifests of known fact types without duplicates |
| ImportGate.RestoredMatches | internal/service/import_reconciliation.go:84-108 | counting the restored facts and looking up each declared one decides equality of the two sets |
| ImportDesk.Snapshot.LockImportWrite | internal/service/contract_import.go:165-189 | raises the version and withdraws the reconciliation |
| ImportDesk.Snapshot.ClaimImportFact | internal/service/contract_import.go:194-270 | claims only declared facts, each once, under the write lock |
| ImportDesk.ComputeBalances | internal/service/import_reconciliation.go:39-114 | the sums and refusals of the reconciliation |
| ImportDesk.Snapshot.ReconcileContractImport | internal/service/import_reconciliation.go:119-162 | stores a certificate of the current version, or refuses |
| ImportDesk.Snapshot.ReleaseContractImport | internal/service/import_reconciliation.go:167-244 | releases, or refuses and changes nothing |
| Responsibility.DeliveryEndsAtTop | internal/service/contract_responsibility_ingest.go:67-103 | any order and repetition of valid events, agreeing or not, ends at an event of the highest version of every contract |
| Responsibility.NothingRefused | internal/service/contract_responsibility_ingest.go:86-88 | when equal versions agree, every delivered event is accepted and filed |
| Responsibility.AllOrdersConvergeIff | internal/service/contract_responsibility_ingest.go:86-98 | all orders of a set of events end with the same rows if and only if the events at the highest version of each contract agree |
| Responsibility.OrdersConverge | internal/service/contract_responsibility_ingest.go:67-103 | two delivery orders of the same agreeing events, with any repetition, end in the same state, rows and inbox |
| Responsibility.PairConvergesIff | internal/service/contract_responsibility_ingest.go:86-88 | the two orders of two events agree if and only if equal versions agree |
| Responsibility.NeverLowersVersion | internal/service/contract_responsibility_ingest.go:92-98 | no event lowers a version |
| Responsibility.Projection.IngestContractResponsibility | internal/service/contract_responsibility_ingest.go:53-103 | commits the specified rows or refuses; applied exactly for a new event with a higher version |
| Outbox.LeasesAndAttempts | internal/outbox/worker.go:48-82 | in every run an event has an owner exactly while it is processed, its attempt count is the number of failures since the last manual retry and at most 7, and every due event is free, so the lease-lost exit is unreachable |
| Outbox.OnlyOwnerRecords | internal/outbox/worker.go:110-175 | a recorded outcome changes one row, and only for its current owner |
| Outbox.NextMovesStatus | internal/outbox/worker.go:48-175 | the status moves an event can make; delivered and cancelled events never change |
| Outbox.DeliveredIsFinal | internal/outbox/worker.go:110-122 | DELIVERED is final in every run |
| Outbox.Backoff | internal/outbox/worker.go:176-185 | between one minute and six hours, and not shorter for a later attempt |
| OutboxProgress.FailureOutcome | internal/outbox/worker.go:153-185 | the seventh failure or a permanent one makes a dead letter at once, the k-th before that waits 1, 5, 15, 60, 180 or 360 minutes |
| OutboxProgress.FailuresInARow | internal/outbox/worker.go:153-185 | an event that keeps failing is retried six times at these delays and is then dead |
| OutboxProgress.StatusTellsFailures | internal/outbox/worker.go:48-185 | in every run a waiting event has no failure, a retried one has one to six, a dead one at most seven |
| OutboxProgress.AcquisitionOutcome | internal/outbox/worker.go:48-82 | due events are taken with their attempt numbers, others are left |
| OutboxProgress.DeliveryOutcome | internal/outbox/worker.go:110-122 | the owner marks its event delivered and nothing else changes |
| OutboxProgress.RetryOutcome | internal/service/outbox_action.go:10-36 | a dead letter is requeued without failures, nothing else is |
| Outbox.SelectedIsDue | internal/outbox/worker.go:54-70 | the acquisition takes due events only, at most the limit, and all of them below it |
| Outbox.Store.Acquire | internal/outbox/worker.go:48-82 | takes exactly the selected events with their attempt counts and never reports a lost lease |
| Outbox.Store.Delivered | internal/outbox/worker.go:110-150 | marks owned events delivered one by one and reports a lost lease exactly when some event is not owned |
| Outbox.Store.Failed | internal/outbox/worker.go:153-175 | counts one failure per owned event and moves it to retry or dead letter |
| Outbox.Store.RetryOutboxEvent | internal/service/outbox_action.go:10-36 | requeues dead events only and resets their count |
| OutboxRefinement.OutboxRefinesCommands | internal/outbox/worker.go:110-175 | every outbox move of a tax command is a step of the issuing protocol with the same outcome |
| ExportJob.PublishesAtMostOnce | internal/reportexport/lifecycle.go:237-250 | in every interleaving of workers, crashes, lease expiries, failed commits, recoveries and late messages a job is published at most once, exactly when it is ready |
| ExportJob.PublishedStaysBound | internal/reportexport/lifecycle.go:237-250 | the binding of a published generation is live, was never released, and no request on the wire can release it |
| ExportJob.SettledBindings | internal/reportexport/reconcile.go:43-119 | once no effect is open, the live bindings of the job are exactly its published file, or none |
| ExportJob.ReadyIsFinal | internal/reportexport/lifecycle.go:52-76 | no move touches a published job row again |
| ExportJob.LatePublicationUnreachable | internal/reportexport/reconcile.go:76-83 | the recovery branch that would publish late is unreachable |
| ExportJob.RetirementAgrees | internal/reportexport/reconcile.go:92-99 | the file a retirement names never differs from the recorded one |
| ExportJob.LeasedIsUntouched | internal/reportexport/lifecycle.go:97-122 | while a generation is leased nothing was retired or released for it |
| ExportJob.ExecuteSentKeeps | internal/filegatewayclient/client.go:119-121 | executing a sent request at any time, any number of times, keeps the invariant |
| ExportProgress.PublishingPublishes | internal/reportexport/lifecycle.go:237-250 | a worker with the lease of a bound file publishes exactly that file: job and journal row together, once; a rolled-back commit publishes nothing |
| ExportProgress.PublishingWithoutFile | internal/reportexport/lifecycle.go:225-250 | a worker without a bound file publishes the job without one and leaves its journal row |
| ExportProgress.AttemptPublishes | internal/reportexport/lifecycle.go:52-250 | from every reachable state in which the job is due, an attempt whose calls are answered and whose commits succeed ends ready with its file bound and its journal row published |
| ExportProgress.FirstAttemptPublishes | internal/reportexport/lifecycle.go:52-250 | the same from the beginning |
| ExportProgress.FencedWorkerChangesNothing | internal/reportexport/lifecycle.go:97-122 | without its lease a worker changes nothing |
| ExportProgress.RecoveryCompensates | internal/reportexport/reconcile.go:43-119 | an answered and committed recovery of an abandoned effect leaves it compensated, its key retired and its file released |
| ExportProgress.RecoverySkips | internal/reportexport/reconcile.go:43-83 | published, closed and leased effects are not recovered |
| ExportJob.ReconcileKeeps | internal/reportexport/reconcile.go:43-119 | a recovery keeps the invariant whichever of its calls and commit fail |
| ExportJob.RunKeeps | internal/reportexport/lifecycle.go:52-275 | every run keeps the export invariant |
| ExportWorker.ReconciledAllKeeps | internal/reportexport/reconcile.go:12-41 | the recovery loop keeps the invariant |
| ExportWorker.Store.Claim | internal/reportexport/lifecycle.go:52-76 | claims a pending or expired job under the next generation, exactly as its specification says, for every outcome of calls and commit |
| ExportWorker.Store.Renew | internal/reportexport/lifecycle.go:97-105 | extends exactly a running lease of this generation, exactly as its specification says, for every outcome of calls and commit |
| ExportWorker.Store.PrepareEffect | internal/reportexport/lifecycle.go:193-202 | inserts PREPARED under the lease, exactly as its specification says, for every outcome of calls and commit |
| ExportWorker.Store.MarkIntent | internal/reportexport/lifecycle.go:203-209 | turns PREPARED into INTENT before any request, exactly as its specification says, for every outcome of calls and commit |
| ExportWorker.Store.UploadFile | internal/reportexport/lifecycle.go:210-218 | uploads under the lease and records the file, exactly as its specification says, for every outcome of calls and commit |
| ExportWorker.Store.BindFile | internal/reportexport/lifecycle.go:219-223 | binds under the lease, exactly as its specification says, for every outcome of calls and commit |
| ExportWorker.Store.Publish | internal/reportexport/lifecycle.go:237-250 | publishes job and effect together, or nothing, exactly as its specification says, for every outcome of calls and commit |
| ExportWorker.Store.FailWithMessage | internal/reportexport/lifecycle.go:264-271 | fails only under a running lease, exactly as its specification says, for every outcome of calls and commit |
| ExportWorker.Store.ReconcileEffect | internal/reportexport/reconcile.go:43-119 | retires, releases and records one abandoned effect, exactly as its specification says, for every outcome of calls and commit |
| ExportWorker.Store.ReconcileEffects | internal/reportexport/reconcile.go:12-41 | a failing item does not stop the next, exactly as its specification says, for every outcome of calls and commit |
| Archive.OneRowPerContent | internal/service/invoice_archive.go:148-221 | in every run each content has at most one of: a document, or a pending effect |
| Archive.KeyNeverChangesContent | internal/service/invoice_archive.go:168-174 | at any two points of a run a key names the same row with the same content, and an archived or retired row never changes |
| Archive.ArchivedStaysBound | internal/service/invoice_archive.go:118-146 | the binding of an archived document is live and no request on the wire can end it |
| Archive.RetiredLeavesNothing | internal/service/invoice_archive.go:255-305 | after RETIRED no late upload or bind leaves a live binding of that effect |
| Archive.SettledArchive | internal/service/invoice_archive.go:255-305 | once nothing is pending, the live bindings are exactly the files of the documents |
| Archive.PrepareKeeps | internal/service/invoice_archive.go:148-221 | preparing keeps the archive invariant, also when a document is inherited |
| Archive.SessionKeeps | internal/service/invoice_archive.go:88-146 | a session keeps the archive invariant whichever of its calls and commit fail |
| Archive.RecoverKeeps | internal/service/invoice_archive.go:255-305 | a recovery keeps the archive invariant whichever of its calls and commit fail |
| ArchiveProgress.SessionArchives | internal/service/invoice_archive.go:88-146 | an answered and committed session archives the pending effect: one document at its place, its file bound |
| ArchiveProgress.SessionNeedsCommit | internal/service/invoice_archive.go:88-146 | without commit or answers, or after the key was retired, nothing is archived |
| ArchiveProgress.RecoveryRetires | internal/service/invoice_archive.go:255-305 | an answered and committed recovery retires the effect and releases its file |
| ArchiveProgress.NewContentIsArchived | internal/service/invoice_archive.go:71-221 | from every reachable state new content is archived by a preparation and one answered session |
| ArchiveProgress.PreparingOpens | internal/service/invoice_archive.go:205-221 | unknown content gets one pending row with what was asked for |
| ArchiveProgress.PreparingInherits | internal/service/invoice_archive.go:176-204 | archived content is inherited within its origin only |
| ArchiveProgress.PreparingRepeats | internal/service/invoice_archive.go:160-174 | a known key or pending content changes nothing |
| ArchiveService.Journal.PrepareInvoiceArchive | internal/service/invoice_archive.go:148-221 | accepted exactly when the key is known with the same content and origin, or is new and the content is neither archived under another origin nor pending; then the specified journal row, otherwise a conflict and no change |
| ArchiveService.Journal.UploadInvoiceDocument | internal/service/invoice_archive.go:71-146 | the specified session |
| ArchiveService.Journal.RecoverOne | internal/service/invoice_archive.go:255-305 | the specified recovery |
| FileGateway.ExecuteKeeps | internal/filegatewayclient/client.go:166-167 | files, retirements and releases are never taken back, a retired key without a file never gets one, a released binding never comes back |

## Left out

- Roles, scopes and permissions: an oracle that may refuse a step before it starts.
- HTTP routing, sessions, configuration, licence checks, text and date validation, hashing and JSON: no state that the properties speak of.
- Idempotency records: a replayed command is a step that changes nothing; only the inbox tables, whose replays decide something, are modelled.
- MySQL isolation: steps are serial, so an interleaving inside a transaction that a plain read would expose (the plan-total sum) is not captured.
- Audit events, reminders, dunning scans, handover, dashboards, CSV content and list queries: they only read or append rows nothing else reads. Dunning enters as a reference that keeps a plan from being removed.
- Receipt archive: the same journal protocol as the invoice archive under other names.
- ArchiveInvoiceDocument (internal/service/invoice_archive_service.go:7): inserts a document without the journal and would break `Archive.OneRowPerContent`; only a test calls it.
- Attempt statuses PROCESSING and CANCELLED: the code accepts them but nothing writes them.
- Write-offs: the column is carried through every law, but no modelled transaction writes it.
- Customer of a receivable: kept in its row and moved with the snapshot, where the code joins the snapshot.
- Eligibility and subscription of the credit feed, and the SUPPRESSED mark of imported facts: parameters of the steps.
- Lease owner of an export job: the generation identifies the claim, so the owner column is not kept beside it.
- Resolving a revision hold (ResolveContractRevisionHold): it only closes the hold row and writes an audit event; holds are modelled as filed.
- Registers of local customers and document numbers: whether the customer is active and the number free are parameters of a local baseline.
- Liveness: nothing states that a pending effect, event or command is eventually handled.
- ContractDesk.AdjustPlan: requires the unique key (plan) of the receivable table, which the database enforces.
- ContractDesk.IngestContract: requires the unique key (contract, version) of the snapshot table, which the database enforces.
- Outbox.Store.Failed: requires that the remembered attempt numbers of owned events are current, which `Outbox.RunKeeps` proves for every run.
