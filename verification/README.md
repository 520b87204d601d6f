# The back office, proved

A model in Dafny 4.11 of four parts of an accounting practice's back office, with
proofs of what they keep:

1. **Finance.** Invoices, payments and clients with derived totals, updated
   incrementally by every call, with the exact condition under which a run stays
   reconciled; the double-entry ledger and the dashboard, which compute the same
   figures in two other ways; the repair that rebuilds everything; the integrity
   checker. Money is integer paise.
   (`Money`, `Finance`, `Reconciliation`, `PaymentLaws`, `Exactness`, `Figures`,
   `BackOffice`, `Repair`, `Accounting`, `Agreement`, `Integrity`, `Shortfalls`)
2. **The gated workflow.** Work items move through a review protocol. A gate call
   reads the item, reads the history, decides, and commits under an expected-status
   guard; the step machine in `Gates` takes these one by one, so any number of calls
   may be in flight. Intake approval has the same shape.
   (`Practice`, `Gates`, `GateSafety`, `Segregation`, `Authority`, `WorkMeaning`,
   `StaleEdits`, `WorkService`, `Intake`)
3. **Hierarchy and visibility.** Who reports to whom on a manager map that may have
   cycles, and the list filter that must show only what the view rule allows.
   (`Hierarchy`, `Visibility`)
4. **Storage and streaming.** The in-memory document store with order slices on the
   heap, snapshot rollback and generated ids; the chat reply cut into chunks, framed,
   split by the network and reassembled in the browser.
   (`Ids`, `Documents`, `RecordMeaning`, `DocStore`, `StoredBooks`, `StoreScripts`, `StoredDrafts`,
   `StoredCalls`, `Stream`, `Delivery`, `Fusing`)

`Tables`, `Sums`, `Text` and `Listing` hold what these share. The services are
classes whose methods are proved against specification functions (`Finance.Call`,
`Gates.Next`, `Documents.Effect`); the theorems are about those functions and about
runs of them. `dafny verify dfyconfig.toml` checks everything.

## How the parts fit

A finance method ends in `Finance.Outcome` of the books it started from, so
`Reconciliation.RunReconciled` and the laws beside it speak of every run of the
methods. A gate method ends in `Gates.CallGate`, which is the machine's `Whole` step;
`Begin`, `Check` and `Commit` are the same reads, decision and commit with anything in
between. In `DocumentStore` a method ends in `Documents.Effect` and a transaction in
`Documents.Perform`, or where it started. `StoredBooks` reads the finance tables off
that store, and `StoredCalls` shows every finance call to be a transaction of its
operations, so that runs of the finance model are runs of the store.

## What the proofs found

The model follows the code. Where a promise does not hold of it, a lemma gives an input
and another the exact condition.

- Payment sync counts "completed" in any letter case; the journals and the integrity
  checker only the lower-case word. The receivable balance then exceeds the dashboard
  by exactly the payments spelled otherwise (`Agreement.ThreeWaysAgree`,
  `Agreement.AgreeExactlyWhen`), and a repaired store still fails the checker
  (`Integrity.RepairPassesExactlyWhen`). One such payment does both
  (`Shortfalls.ShoutedPaymentIsMissed`).
- Nothing makes a payment name its invoice's client. A create that does not breaks
  reconciliation exactly when it moves what that client owes
  (`Shortfalls.CreateForAnotherClient`, `PaymentLaws.CreateKeepsExactlyWhen`). So does a
  patch of the invoice alone that moves a payment to another client's invoice; the
  payment form picks client and invoice independently (`Shortfalls.MoveAcrossClients`,
  `ExactReconciliation.UpdateKeepsExactlyWhen`). For every run the exact condition is
  `ExactReconciliation.RunReconciledExactlyWhen`.
- Restoring a payment does not re-validate it and can overpay the invoice
  (`Shortfalls.RestoreOverpays`); the exact condition is
  `PaymentLaws.RestoreWithinTotals`.
- Repair recalculates only clients that own an invoice, so it reconciles exactly when
  the other clients carried no totals (`Shortfalls.RepairLeavesStale`,
  `Repair.RepairReconciles`).
- Segregation of duties is checked on the history as read. A CA verification in flight
  while its item is rejected and passed again by the same actor commits, because the
  status has come round (`Segregation.InterleavingCanBreakSegregation`); the exact
  condition at each commit is `Segregation.CommitSeparateExactlyWhen`. For the same
  reason the second of two calls in flight succeeds exactly when the first committed a
  move to the status the item was already in (`GateSafety.SecondCommitConflicts`).
- Assigned work may be created in any status, also past verification
  (`GateSafety.AssignedStartsAnywhere`); an item is safe for good exactly when its
  creation status claims no verification (`GateSafety.AlwaysSafeExactlyWhenEarly`).
- An edit of a work item reads it and writes it back whole, with no guard on the status.
  If the item is closed and reopened in between, the write-back can restore a verified
  status (`StaleEdits.StaleEditBreaksSafety`), and it can open cancelled work again
  (`StaleEdits.CancelledComesBack`). The exact conditions, over every interleaving, are
  `StaleEdits.SafeWithStaleEditsExactlyWhen` and
  `StaleEdits.CancelledStaysExactlyWhen`.
- Creating an intake or an engagement keeps an id the caller gives, and the memory
  store writes it over whatever stands there, where the database's insert would refuse
  it. An approved intake created again can be
  approved again (`IntakeDesk.RecreatedIsApprovedTwice`); an engagement created under a
  named one's id leaves the intake naming another client's
  (`IntakeDesk.ReplacedEngagementIsMisnamed`). The exact conditions are
  `IntakeDesk.DecisionKeptExactlyWhen` and `IntakeDesk.NamedExactlyWhen`; creates under
  ids not in use, as generated ones are, never do this
  (`IntakeDesk.UnusedIdReplacesNothing`).
- Reassigning work stores the user in the older of two assignee fields, and the newer one
  wins: work created for somebody stays theirs (`WorkMeaning.ReassignedWorkStays`,
  `WorkMeaning.ReassignTakesEffectExactlyWhen`).
- A gate's commit is guarded by the status alone and stores the whole item as it was read,
  so an edit of another field made in between is lost (`Authority.CommitForgetsEdits`).
- Role lists are narrower than the view rule: a CA does not get work listed that has
  them as team leader only, nor a team leader work they own or handed out
  (`Visibility.ViewableButUnlisted`).
- No gate call leads out of TL_VERIFIED (`WorkMeaning.TLVerifiedIsStuck`). Only an assigned
  create reaches it; work created early can always still be closed
  (`WorkMeaning.EarlyItemsCanBeClosed`).
- A list filter with a preset team-leader scope can show a professional items the view
  rule hides (`Visibility.ListedIsViewableExactlyWhen`), and one with a preset owner
  scope can do so to a team leader (`Visibility.LeaderListsViewableExactlyWhen`); the
  listing endpoint presets neither.
- The database id is computed from the lexicographically last row. With generated ids
  it works exactly until ten to the padded width of them exist, and is taken from then
  on (`Ids.GeneratedUntilRollover`).
- A comment says line ends are normalised so that frames split reliably behind any
  proxy. Events arrive under every cut exactly when each frame is closed by what reads
  as two line ends when read in one piece (`StreamFusing.DeliversExactlyWhen`). A lone
  carriage return before a lone line feed is one line end then, and two when the read
  ends between them (`StreamFusing.ReturnThenFeed`).

## Model

| member | source | states |
|---|---|---|
| `Money.DerivedStatusTells` | Go/internal/domain/money/money.go:69-89 | An invoice neither draft nor cancelled is paid exactly when a positive total has nothing remaining and counts as outstanding otherwise; with nothing paid it is overdue exactly once its due day has passed, and sent till then |
| `Money.DerivedStatusStays` | Go/internal/domain/money/money.go:69-89 | Drafts and cancelled invoices keep their status, and the passing of days alone never takes an invoice back from overdue |
| `Figures.SyncShows` | Go/internal/app/services/invoice_service.go:216-242 | A sync on a day leaves the invoice showing what is paid, what is missing and the status of that day: paid once a positive total is covered, partly paid once something is, before that sent up to the due day and overdue after it; drafts and cancelled ones keep theirs |
| `Figures.PaymentCallShows` | Go/internal/app/services/payment_service.go:53-197 | After every successful payment call the invoice the payment is on shows the day of the call and the payments there now are |
| `Figures.LeaveShows` | Go/internal/app/services/payment_service.go:143-150 | When a payment moves, the invoice it leaves shows the day of the call too |
| `Figures.InvoiceUpdateShows` | Go/internal/app/services/invoice_service.go:120-158 | After a successful invoice update the invoice shows the day of the call as patched |
| `Figures.RepairShows` | Go/internal/app/services/invoice_service.go:333-354 | After a repair on a day every invoice shows that day and its payments |
| `Figures.SideEffectsFailExactlyWhen` | Go/internal/app/services/invoice_service.go:307-330 | Side effects fail, as not found, exactly when the invoice the payment names or the client to recalculate is not there |
| `Figures.PaymentCallFails` | Go/internal/app/services/payment_service.go:53-197 | Delete, archive and restore fail exactly for a payment that is not there or whose invoice or client is not; a create also when the payment is invalid or its id is taken |
| `Figures.ClientFigures` | Go/internal/app/services/invoice_service.go:244-269 | In reconciled books a client's revenue is the totals of its live invoices paid in full and its outstanding what is missing on its live invoices, drafts and cancelled ones aside, computed from totals and payments alone |
| `Reconciliation.SettleForgets` | Go/internal/app/services/invoice_service.go:216-242 | Syncing an invoice depends only on what is paid now and the day: earlier syncs, in whatever order payments came, leave no trace |
| `Reconciliation.PaidOnPut` | Go/internal/app/services/invoice_service.go:216-229 | Rewriting one payment moves the paid sum of every invoice by exactly what stopped counting and what started to |
| `Reconciliation.PaidOnInsert` | Go/internal/app/services/invoice_service.go:216-229 | A new payment adds its amount to the invoice it counts on and to no other |
| `Reconciliation.PaidOnDrop` | Go/internal/app/services/invoice_service.go:216-229 | A deleted payment takes its amount off the invoice it counted on and off no other |
| `Reconciliation.SyncStep` | Go/internal/app/services/invoice_service.go:216-242 | From books reconciled but for some invoices and clients, syncing an invoice settles it and leaves at most its own client out of date |
| `Reconciliation.RecalcStep` | Go/internal/app/services/invoice_service.go:244-269 | Recalculating a client settles that client and disturbs no invoice and no other client |
| `Reconciliation.SideEffectsStep` | Go/internal/app/services/invoice_service.go:307-330 | A payment's side effects bring books that are off only at the payment's invoice back to reconciled, when the payment names that invoice's client |
| `Reconciliation.LeaveInvoiceStep` | Go/internal/app/services/payment_service.go:143-150 | When a payment moves, the invoice it leaves and its client are settled first, so only the new invoice is still off |
| `Reconciliation.CreateKeeps` | Go/internal/app/services/payment_service.go:53-113 | A successful create of a payment that names no client or its invoice's keeps the books reconciled |
| `Reconciliation.UpdateKeeps` | Go/internal/app/services/payment_service.go:115-158 | A successful payment update that leaves the payment naming its invoice's client, moves between invoices included, keeps linked books reconciled |
| `Reconciliation.DeleteKeeps` | Go/internal/app/services/payment_service.go:160-171 | A successful payment delete keeps the books reconciled |
| `Reconciliation.ArchiveKeeps` | Go/internal/app/services/payment_service.go:173-184 | A successful payment archive keeps the books reconciled |
| `Reconciliation.RewriteKeeps` | Go/internal/app/services/payment_service.go:186-197 | Rewriting a payment on its own invoice, as restore does, keeps the books reconciled |
| `Reconciliation.CreateInvoiceKeeps` | Go/internal/app/services/invoice_service.go:59-118 | Creating an unpaid draft or sent invoice keeps the books reconciled |
| `Reconciliation.UpdateInvoiceKeeps` | Go/internal/app/services/invoice_service.go:120-158 | Any successful invoice update keeps the books reconciled, changes of client, total, due date and status included |
| `Reconciliation.PaymentCallFrame` | Go/internal/app/services/payment_service.go:53-197 | A successful payment call writes exactly its own payment; no invoice changes client or total |
| `Reconciliation.LinksKept` | Go/internal/app/services/payment_service.go:53-197 | Every call that itself names the invoice's client keeps all payments naming their invoice's client; an invoice update may repeat its client, or change it where no payment is left behind |
| `Reconciliation.RunReconciled` | Go/internal/app/services/payment_service.go:53-197 | Over every run of payment and invoice calls that keep payments naming their invoice's client, incremental bookkeeping equals the from-scratch totals of every invoice and client |
| `ExactReconciliation.CallKeepsExactlyWhen` | Go/internal/app/services/payment_service.go:53-197 | Whichever clients payments name: from reconciled books a call reaches reconciled books exactly when it fails or is harmless, that is, leaves no client behind whose figures its syncs move and it does not recalculate; a new invoice must come with the figures its payments give it |
| `ExactReconciliation.RunReconciledExactlyWhen` | Go/internal/app/services/invoice_service.go:59-158 | Any run of payment and invoice calls keeps the books reconciled all along exactly when each successful call is harmless where it happens |
| `ExactReconciliation.UpdateKeepsExactlyWhen` | Go/internal/app/services/payment_service.go:115-158 | From linked, reconciled books a successful update, moving or not, keeps them reconciled exactly when the payment then names no client or its invoice's, or nothing changes of what that invoice owes a stored client |
| `Shortfalls.MoveAcrossClients` | Go/internal/app/services/payment_service.go:115-158 | A concrete patch of the invoice alone that moves a payment to another client's invoice is accepted from linked, reconciled books and leaves that client stale |
| `Shortfalls.CreateForAnotherClient` | Go/internal/app/services/payment_service.go:53-113 | A concrete create naming another client than its invoice's is accepted and leaves reconciled books unreconciled |
| `Shortfalls.RestoreOverpays` | Go/internal/app/services/payment_service.go:173-197 | From reconciled books within totals a concrete run of four accepted calls, pay, archive, pay again and restore, ends with an invoice overpaid |
| `Shortfalls.ShoutedPaymentIsMissed` | Go/internal/app/services/accounting_service.go:72-94 | One accepted payment spelled Completed leaves the books reconciled, the ledger off the dashboard, and a repaired store failing the checker |
| `Shortfalls.RepairLeavesStale` | Go/internal/app/services/invoice_service.go:333-354 | A repair succeeds on a client without invoices that carries a figure, leaves the figure, and the checker reports it |
| `PaymentLaws.CallSound` | Go/internal/repository/memory/store.go:292-411 | Every call keeps order lists duplicate-free and equal to the stored ids |
| `PaymentLaws.ValidationTells` | Go/internal/app/services/payment_service.go:27-51 | A payment is refused as invalid exactly without an invoice, without a positive amount or beyond what its invoice still asks for, and else as a conflict exactly when another completed payment of the invoice bears its reference up to letter case and surrounding space |
| `PaymentLaws.RunNeverOverpays` | Go/internal/app/services/invoice_service.go:271-305 | Over every run of create, update, delete and archive with totals not lowered below what is paid, completed payments never exceed an invoice total |
| `PaymentLaws.RestoreWithinTotals` | Go/internal/app/services/payment_service.go:186-197 | Restore, which does not re-validate, keeps within totals exactly when the payment was not an archived completed one or its amount still fits the balance |
| `PaymentLaws.RunKeepsReferencesUnique` | Go/internal/app/services/payment_service.go:27-51 | Over every run, two distinct completed payments of one invoice, archived or not, never share a non-blank reference up to case and surrounding space |
| `PaymentLaws.Conservation` | Go/internal/app/services/invoice_service.go:244-290 | In reconciled, not overpaid books each client's billed totals are what was paid on them plus the client's outstanding |
| `PaymentLaws.CreateKeepsExactlyWhen` | Go/internal/app/services/payment_service.go:53-113 | A create keeps the books reconciled exactly when the payment names its invoice's client or moves nothing that client owes |
| `BackOfficeService.BackOffice.SyncInvoiceFromPayments` | Go/internal/app/services/invoice_service.go:216-242 | The accumulating loop stores the paid sum of the counted payments, what remains, and the status of the day: overdue from the day after the due day while nothing is paid, sent till then; a missing invoice is not found and nothing changes |
| `BackOfficeService.BackOffice.RecalcClientFinancials` | Go/internal/app/services/invoice_service.go:244-269 | The loop stores the sums over the live invoices of the client; a missing client is not found and nothing changes |
| `BackOfficeService.BackOffice.RemainingBalance` | Go/internal/app/services/invoice_service.go:271-290 | The balance loop yields the total less the other counted payments, never below zero |
| `BackOfficeService.BackOffice.AssertValid` | Go/internal/app/services/payment_service.go:27-51 | The checks fail in the order of the code, and a reference conflict is reported exactly when another completed payment of the invoice holds it |
| `BackOfficeService.BackOffice.SyncPaymentSideEffects` | Go/internal/app/services/invoice_service.go:307-330 | Invoice first, then client, with the errors of either passed on |
| `BackOfficeService.BackOffice.CreatePaymentCall` | Go/internal/app/services/payment_service.go:53-113 | Blanks are defaulted, the client is taken from the invoice, the payment is validated and stored under a fresh id, then invoice and client are brought up to date; any error on the way, a dangling client included, leaves the books as they were |
| `BackOfficeService.BackOffice.UpdatePaymentCall` | Go/internal/app/services/payment_service.go:115-158 | The patched payment is validated without counting itself and stored; the invoice it left is synced first, then the one it is on; any error leaves the books as they were |
| `BackOfficeService.BackOffice.DeletePaymentCall` | Go/internal/app/services/payment_service.go:160-171 | The payment is gone, and its invoice and client are brought up to date without it; any error leaves the books as they were |
| `BackOfficeService.BackOffice.ArchivePaymentCall` | Go/internal/app/services/payment_service.go:173-184 | The payment is flagged, and its invoice and client no longer count it; any error leaves the books as they were |
| `BackOfficeService.BackOffice.RestorePaymentCall` | Go/internal/app/services/payment_service.go:186-197 | The flag is cleared, an archived status made active, and invoice and client count the payment again without validating it; any error leaves the books as they were |
| `BackOfficeService.BackOffice.CreateInvoiceCall` | Go/internal/app/services/invoice_service.go:59-118 | The invoice is stored under a fresh id with what remains of it, a blank status becomes draft, and its client is brought up to date; any error leaves the books as they were |
| `BackOfficeService.BackOffice.UpdateInvoiceCall` | Go/internal/app/services/invoice_service.go:120-158 | The patched invoice is synced from its payments, and the old client, if another, and the new one are recalculated; any error leaves the books as they were |
| `BackOfficeService.BackOffice.RepairAllFinancials` | Go/internal/app/services/invoice_service.go:333-354 | The two loops, walking clients in any order, reach the repaired books or roll back; the count returned is the number of invoices |
| `Repair.RepairSettles` | Go/internal/app/services/invoice_service.go:333-354 | From any sound store a repair settles every invoice and every client owning one, and touches no other client |
| `Repair.RepairSucceedsExactlyWhen` | Go/internal/app/services/invoice_service.go:333-354 | A repair goes through exactly when every client an invoice names is there, and else reports not found |
| `Repair.RepairReconciles` | Go/internal/app/services/invoice_service.go:333-354 | A successful repair reconciles the books exactly when clients without invoices carried no totals |
| `Repair.RepairTwice` | Go/internal/app/services/invoice_service.go:333-354 | A second repair at the same instant changes nothing |
| `Repair.RepairOfReconciled` | Go/internal/app/services/invoice_service.go:333-354 | On reconciled books a repair changes no amount and no client; a status may only move between sent and overdue as days pass |
| `Accounting.AssertBalanced` | Go/internal/app/services/accounting_service.go:96-111 | Accepts exactly the journals whose debits equal their credits and are positive |
| `Accounting.BuildLedger` | Go/internal/app/services/accounting_service.go:138-168 | One row for each account that occurs, with the sums of its lines |
| `Accounting.DebitsPreserved` | Go/internal/app/services/accounting_service.go:138-183 | Regrouping lines by account preserves the debit column |
| `Accounting.CreditsPreserved` | Go/internal/app/services/accounting_service.go:138-183 | Regrouping lines by account preserves the credit column |
| `Accounting.ListBalances` | Go/internal/app/services/accounting_service.go:42-94 | System journals together with posted manual journals balance, whatever the books |
| `Accounting.AccountingService.PostJournal` | Go/internal/app/services/accounting_service.go:114-136 | Appends the journal with trimmed account names exactly when it balances and is positive, and keeps every stored journal balanced |
| `Accounting.AccountingService.TrialBalance` | Go/internal/app/services/accounting_service.go:170-183 | The trial balance always balances |
| `Accounting.AccountingService.ListJournals` | Go/internal/app/services/accounting_service.go:38-94 | The journals listed are the derived ones followed by the live manual ones |
| `Agreement.SystemSides` | Go/internal/app/services/accounting_service.go:54-94 | On the derived journals receivables hold what is billed less the payments spelled completed, professional fees minus what is billed, the bank those payments, and no other account occurs |
| `Agreement.SystemDebits` | Go/internal/app/services/accounting_service.go:54-94 | The debit column of the derived journals is everything billed and everything banked |
| `Agreement.TrialRows` | Go/internal/app/services/accounting_service.go:138-183 | Each row of the trial balance is what the books put on its account and what was posted there by hand |
| `Agreement.DashboardOutstanding` | Go/internal/app/services/dashboard_service.go:57-78 | The dashboard loop totals what the listed outstanding invoices owe |
| `Agreement.DashboardIsOwed` | Go/internal/app/services/dashboard_service.go:57-78 | That total is what all live invoices owe |
| `Agreement.ClientsAreOwed` | Go/internal/app/services/invoice_service.go:244-269 | The clients' outstanding, summed, is what all live invoices owe |
| `Agreement.ReceivableSides` | Go/internal/app/services/accounting_service.go:54-94 | The receivable balance of the ledger is what is billed less the payments journalled |
| `Agreement.ThreeWaysAgree` | Go/internal/app/services/accounting_service.go:54-168 | In reconciled, not overpaid books the dashboard equals the clients' outstanding, and the ledger's receivable exceeds them by exactly the completed payments spelled in another letter case |
| `Agreement.AgreeExactlyWhen` | Go/internal/app/services/accounting_service.go:72-94 | All three figures agree exactly when every counted payment has the status word in lower case |
| `Integrity.RunChecks` | saas/src/services/reconciliationService.ts:80-137 | The checker reports exactly the mismatches of paid, remaining, outstanding and dashboard |
| `Integrity.InvoiceIssuesTell` | saas/src/services/reconciliationService.ts:80-104 | Of one invoice the checker reports the paid and the remaining amount, each exactly when it is not what the payments give |
| `Integrity.TotalIssuesTell` | saas/src/services/reconciliationService.ts:105-137 | The checker reports a client outstanding and a dashboard total exactly when they are not what the invoices give |
| `Integrity.SettledInvoicePasses` | saas/src/services/reconciliationService.ts:80-118 | A settled invoice passes exactly when the amounts counted on it under another spelling of the status sum to zero |
| `Integrity.SettledInvoicePassesExactlyWhen` | saas/src/services/reconciliationService.ts:80-118 | With positive payments, a settled invoice passes exactly when no counted payment on it is spelled in another letter case |
| `Integrity.RepairPassesChecks` | saas/src/services/reconciliationService.ts:80-137 | After a repair the checker finds nothing exactly when on every live invoice the amounts under another spelling sum to zero and listed clients without invoices owe nothing |
| `Integrity.RepairPassesExactlyWhen` | saas/src/services/reconciliationService.ts:80-137 | With positive payments, after a repair the checker finds nothing exactly when no payment counted on a live invoice is spelled in another letter case and no listed client without invoices owes anything |
| `GateSafety.DecidedIsPending` | Go/internal/workmgmt/practice_service.go:126-385 | Whatever a gate decides is one legal edge from the status it read |
| `GateSafety.StepEffect` | Go/internal/workmgmt/memory_store.go:1079-1119 | Every step of the machine does nothing to status and history, commits one legal edge, creates an item, or patches a non-terminal status to a free one |
| `GateSafety.WorkflowSafety` | Go/internal/workmgmt/practice_service.go:187-348 | In every interleaving an item created in an early status never stands in the two transient verified statuses, and once past verification its history since the last reopening holds a TL pass followed later by a CA pass |
| `GateSafety.UnassignedStartsEarly` | Go/internal/workmgmt/service.go:137-146 | Unassigned work starts open or waiting for documents, whatever was asked for |
| `GateSafety.AlwaysSafeExactlyWhenEarly` | Go/internal/workmgmt/service.go:137-146 | After every run, an item just created is safe under all continuations of the run exactly when its creation status claims no verification |
| `GateSafety.AssignedStartsAnywhere` | Go/internal/workmgmt/service.go:100-172 | For every status that claims a verification, delivered among them, one accepted create with an assignee leaves an unsafe item in it |
| `GateSafety.HistoryIsPath` | Go/internal/workmgmt/memory_store.go:1079-1119 | In every interleaving the history of an item leads contiguously from creation to current status; with status patches every gap is a patch |
| `GateSafety.OneCommitPerVisit` | Go/internal/workmgmt/memory_store.go:1079-1119 | In gate-only runs the commits leaving a status are the visits to it less the one still on: each visit ends at most once |
| `GateSafety.SecondCommitConflicts` | Go/internal/workmgmt/concurrent_gate_test.go:21-23 | Of two calls in flight that read the same status, the second to commit succeeds exactly when the first left the status as it was; otherwise it conflicts and changes nothing |
| `GateSafety.HistoryGrows` | Go/internal/workmgmt/memory_store.go:1055-1077 | The history is append-only over every run |
| `GateSafety.TerminalStays` | Go/internal/workmgmt/transitions.go:75-79 | Cancelled work stays cancelled however a run goes on; closed work stays closed unless the history gains a reopening of it |
| `Segregation.SegregationOfDuties` | Go/internal/workmgmt/practice_service.go:263-268 | Over whole-call runs every CA verification, pass or fail, is by someone other than the actor of the latest TL pass before it |
| `Segregation.SeparateWhenReadAlways` | Go/internal/workmgmt/practice_service.go:238-298 | In every interleaving, item and history being read in two store calls, each CA verifier differs from the latest TL passer of the history the call had read |
| `Segregation.CommitSeparateExactlyWhen` | Go/internal/workmgmt/practice_service.go:238-298 | In every interleaving a CA verification that commits is separate exactly when its actor is not the latest to have passed the item since the call read the history; where it is, the item had been sent to review again after that read, was passed there, and is back in CA verification |
| `Segregation.TitleOnlyIsPlain` | Go/internal/workmgmt/service.go:100-172 | Work as the concrete runs take it exists: unassigned, with nothing but a title |
| `Segregation.InterleavingCanBreakSegregation` | Go/internal/workmgmt/practice_service.go:238-298 | A concrete interleaving after which one actor has both passed TL verification and then CA verification |
| `Authority.EveryEntryIsWarranted` | Go/internal/workmgmt/practice_service.go:126-385 | In every interleaving each history entry was committed by a step whose call asked for it, from the status it read, and whose actor was entitled to it by the rules of its gate; what was stored is the item as read with status, actor, overlay and percentage set |
| `Authority.PassesWereDecided` | Go/internal/workmgmt/practice_service.go:187-298 | In every interleaving what stands as a TL or CA pass was decided as a pass by someone who may verify and is no manager, and what was decided as a fail stands as a rejection |
| `Authority.ClosesWereEntitled` | Go/internal/workmgmt/practice_service.go:302-348 | In every interleaving whoever closed an item held a permission to close, and was a partner where the item as read required sign-off; the item was then 100 per cent complete |
| `Authority.CommitForgetsEdits` | Go/internal/workmgmt/memory_store.go:1079-1119 | In every interleaving a commit stores the item as its call had read it, but for status, actor, overlay, percentage, creator and assignee: edits of anything else made in between are undone |
| `Authority.CommitEndsCall` | Go/internal/workmgmt/memory_store.go:1079-1119 | A commit ends its own call, whether it goes through or not, and no other |
| `Authority.TLVerifyAccepted` | Go/internal/workmgmt/practice_service.go:187-235 | A TL verification is accepted exactly for a verdict, with remarks where it is a fail, by a holder of the permission who is no manager, on an item in READY_FOR_TL_VERIFY |
| `Authority.CAVerifyAccepted` | Go/internal/workmgmt/practice_service.go:238-298 | A CA verification likewise in READY_FOR_CA_VERIFY, save for the latest TL passer and for juniors on high risk |
| `Authority.CloseAccepted` | Go/internal/workmgmt/practice_service.go:302-348 | A close is accepted exactly on an item delivered or queued, by a partner where sign-off is required and else by a holder of either closing permission; otherwise such an item answers forbidden |
| `Authority.ReopenAccepted` | Go/internal/workmgmt/practice_service.go:351-385 | A reopening is accepted exactly with the permission, a reason and a closed item |
| `Authority.MoveAccepted` | Go/internal/workmgmt/practice_service.go:126-184 | A move is accepted exactly along an edge by someone who may move and view the item, into review only by its own people or leadership, to cancelled only by seniors |
| `Authority.GatesByRole` | Go/internal/workmgmt/hierarchy.go:75-118 | By role alone partners and team leaders verify as TL, partners and CAs as CA, partners and managers close and reopen, partners alone where sign-off is required, and executors none of it; likewise for the other permissions |
| `Authority.GrantsTell` | Go/internal/workmgmt/hierarchy.go:64-118 | A grant counts whatever the role; by role alone the permission to close as partner is for partners and the other for partners and managers |
| `Authority.VerifiedByTwo` | Go/internal/workmgmt/practice_service.go:187-298 | Over whole-call runs an item created early that is past verification was passed as TL and later, since the last reopening, as CA by someone else |
| `WorkMeaning.EdgesFromHere` | Go/internal/workmgmt/transitions.go:124-161 | The edge table read forwards: where each status may move to |
| `WorkMeaning.FreeMeans` | Go/internal/workmgmt/transitions.go:88-122 | A patch may set exactly the statuses that claim no verification, ask for none and end nothing |
| `WorkMeaning.CanBeClosed` | Go/internal/workmgmt/practice_service.go:126-348 | From every status but cancelled and TL_VERIFIED at most five gate calls by partners of the firm close an item, whatever the run so far |
| `WorkMeaning.EarlyItemsCanBeClosed` | Go/internal/workmgmt/practice_service.go:126-348 | In every interleaving an item created early that is neither deleted nor cancelled can still be closed: the workflow has no dead end |
| `WorkMeaning.TLVerifiedIsStuck` | Go/internal/workmgmt/transitions.go:124-223 | No gate call takes an item out of TL_VERIFIED |
| `WorkManagement.MemoryStore.ListTransitionHistory` | Go/internal/workmgmt/memory_store.go:1067-1077 | The entries of one item, oldest first |
| `WorkManagement.MemoryStore.ApplyGateWrite` | Go/internal/workmgmt/memory_store.go:1079-1119 | Stores item and entry together exactly when the item is there and its normalized status is the expected one; otherwise nothing changes |
| `WorkManagement.MemoryStore.UpdateItem` | Go/internal/workmgmt/memory_store.go:72-86 | Replaces an item that is not deleted and keeps its creator |
| `WorkManagement.Service.TLPassVerifier` | Go/internal/workmgmt/practice_service.go:67-79 | The overwriting loop yields the actor of the latest TL pass of the item |
| `WorkManagement.LatestInOwnHistory` | Go/internal/workmgmt/practice_service.go:67-79 | The latest TL pass of an item is the same in its own history as in the whole one |
| `WorkManagement.Service.Transition` | Go/internal/workmgmt/practice_service.go:126-184 | A legal non-verify move by someone who may view the item, review requests only by its own people, cancelling only by seniors; one entry and one status change together, or the right error and nothing |
| `WorkManagement.Service.VerifyTLCall` | Go/internal/workmgmt/practice_service.go:187-235 | Only from review, never by a manager, a fail only with remarks: the item moves on to CA verification or back, with one entry, or the right error and nothing |
| `WorkManagement.Service.VerifyCACall` | Go/internal/workmgmt/practice_service.go:238-298 | Only from CA verification, never by a manager, by the latest TL passer, or by a junior on high risk: the item is delivered, queued for closing or sent back, with one entry, or the right error and nothing |
| `WorkManagement.Service.CloseWork` | Go/internal/workmgmt/practice_service.go:302-348 | Only from delivered or the closing queue, with partner sign-off only by a partner: closed and complete, with one entry, or the right error and nothing |
| `WorkManagement.Service.ReopenWork` | Go/internal/workmgmt/practice_service.go:351-385 | Only from closed and with a reason: open again, with one entry, or the right error and nothing |
| `WorkManagement.Service.UpdateWorkCall` | Go/internal/workmgmt/service.go:202-302 | A patch is refused, with its error, on missing or terminal work, to gated statuses and to executors on others' work; else the item is stored with every given field, status, priority and overlay normalised and the percentage kept within bounds |
| `WorkManagement.Service.ReassignCall` | Go/internal/workmgmt/service.go:305-329 | Reassignment stores only the new assignee and assigner, under the assignment rule |
| `WorkManagement.Service.AssignSlotCall` | Go/internal/workmgmt/practice_service.go:388-437 | Each slot is guarded by its own rule and stores only its own fields |
| `WorkManagement.Service.CreateWorkCall` | Go/internal/workmgmt/service.go:100-172 | The stored item is the draft with status, priority, ownership and assignment filled in as the creation rules say, or the right error and nothing |
| `WorkMeaning.PatchStoresByName` | Go/internal/workmgmt/service.go:223-238 | An accepted patch stores each text it gives under its own name and keeps the others |
| `WorkMeaning.PatchStoresFlags` | Go/internal/workmgmt/service.go:239-287 | Whatever else a patch gives is stored and what it does not give is kept; statuses are free ones, percentages are cut to 0 and 100 |
| `WorkMeaning.PatchKeepsTheRest` | Go/internal/workmgmt/service.go:202-302 | A patch never touches ids, people, or whether the item is deleted |
| `WorkMeaning.EditAccepted` | Go/internal/workmgmt/service.go:202-222 | An edit is accepted exactly on open work, with the permission, from the assignee where the actor is an executor, and with no gated status |
| `WorkMeaning.AssignedToSlot` | Go/internal/workmgmt/practice_service.go:388-437 | An accepted assignment puts the user into the slot named and into no other, the assignee into both of its fields |
| `WorkMeaning.AssignAccepted` | Go/internal/workmgmt/practice_service.go:388-437 | Owners are set by partners and managers alone, team leaders by them and CAs, assignees by whoever may assign to their role |
| `WorkMeaning.AssignsDownwards` | Go/internal/workmgmt/hierarchy.go:256-274 | Outside leadership work is assigned strictly down the ranks, by team leaders to executors only |
| `WorkMeaning.ReassignTells` | Go/internal/workmgmt/service.go:305-329 | A reassignment is accepted exactly under the assignment rule and stores the user in the older assignee field alone |
| `WorkMeaning.ReassignTakesEffectExactlyWhen` | Go/internal/workmgmt/service.go:305-329 | A reassignment changes who the assignee is exactly when the newer assignee field is blank or already names the user |
| `WorkMeaning.ReassignedWorkStays` | Go/internal/workmgmt/service.go:100-172 | Work created for an assignee keeps that assignee whomever it is reassigned to |
| `WorkMeaning.CreatorIsForever` | Go/internal/workmgmt/memory_store.go:72-86 | Over every run, stale commits included, the creator of an item never changes |
| `WorkMeaning.DeletionTells` | Go/internal/workmgmt/service.go:363-396 | Deleting and restoring set nothing but the mark and are for those who may delete, deleting not for executors and support |
| `WorkMeaning.LegacyWordsTell` | Go/internal/workmgmt/transitions.go:46-76 | Of the legacy and unknown status words only review asks for a verification and only completed claims one; the others are open |
| `WorkMeaning.CompanyNeededTells` | Go/internal/workmgmt/service.go:125-130 | A company is needed exactly when GST or ROC occurs in the work type in whatever case |
| `WorkMeaning.TriadOfNewWork` | Go/internal/workmgmt/hierarchy.go:405-429 | Owner and team leader of a new item are those asked for, else the creator or else the assignee if of that grade; the assignee stands in both fields |
| `WorkMeaning.NewWorkKeepsDraft` | Go/internal/workmgmt/service.go:100-172 | The rest of a new item is the draft, but for who made it, its status and what is normalised |
| `WorkMeaning.NewWorkAccepted` | Go/internal/workmgmt/service.go:100-133 | A create is accepted exactly with the permission, outside support roles, with a title, an assignee the creator may assign, a company where the work type needs one, and a parent that is there |
| `WorkMeaning.PriorityMeans` | Go/internal/workmgmt/service.go:44-51 | A priority is kept up to letter case exactly when it is one of the four words, spaces aside, and else becomes medium |
| `StaleEdits.SafeWithStaleEditsExactlyWhen` | Go/internal/workmgmt/service.go:202-329 | In every interleaving of gate calls and of edits that read first and write back later, items created early are safe all along exactly when every write-back that lands on one is in time: it claims no verification, or the item was not reopened since the edit read it, or has passed again |
| `StaleEdits.WriteBackSafeExactlyWhen` | Go/internal/workmgmt/memory_store.go:72-86 | From a safe state one unguarded write-back keeps every early-created item safe exactly when it lands on none or is in time |
| `StaleEdits.UndisturbedEditIsWhole` | Go/internal/workmgmt/service.go:202-329 | Read and written back with nothing in between, an edit is the whole-call step |
| `StaleEdits.StaleEditBreaksSafety` | Go/internal/workmgmt/service.go:202-302 | A concrete run: an edit of verified work reads, the work is closed and reopened, the write-back puts it back to verified without a verification since |
| `StaleEdits.CancelledStaysExactlyWhen` | Go/internal/workmgmt/memory_store.go:72-86 | In every such interleaving cancelled work stays cancelled all along exactly when no write-back of it comes that had read another status |
| `StaleEdits.CancelledComesBack` | Go/internal/workmgmt/service.go:202-302 | A concrete run in which a write-back opens cancelled work again, with no entry in its history |
| `IntakeDesk.IntakeService.ApproveIntakeAtomic` | Go/internal/workmgmt/memory_store.go:1121-1154 | Stores engagement and intake together exactly when the stored intake still waits |
| `IntakeDesk.IntakeService.ApproveIntake` | Go/internal/workmgmt/practice_service.go:475-529 | The whole approval call is decide and commit; an error leaves both stores as they were |
| `IntakeDesk.IntakeService.RejectIntakeCall` | Go/internal/workmgmt/practice_service.go:531-554 | Rejects exactly a waiting intake, with remarks |
| `IntakeDesk.ApprovalAccepted` | Go/internal/workmgmt/practice_service.go:475-529 | An approval is accepted exactly with the permission, for a waiting intake, naming a client and an owner |
| `IntakeDesk.ApprovalStores` | Go/internal/workmgmt/practice_service.go:475-529 | An approval stores an engagement on the terms asked for, with the services of the request or else of the intake and never without a title, and the intake approved on the same terms; nothing else changes |
| `IntakeDesk.RejectionStores` | Go/internal/workmgmt/practice_service.go:531-554 | A rejection is accepted exactly with permission and remarks for a waiting intake, and records who and why |
| `IntakeDesk.CreationStores` | Go/internal/workmgmt/practice_service.go:441-458 | Creating an intake or an engagement is accepted exactly with the permission, an engagement also with a client, and records who created it |
| `IntakeDesk.CreatorKept` | Go/internal/workmgmt/memory_store.go:1121-1154 | No step but its own creation changes who created an intake, whatever an approval in flight had read |
| `IntakeDesk.IntakeService.CreateIntakeCall` | Go/internal/workmgmt/practice_service.go:441-458 | The draft is stored as waiting under its id, whatever stood there, or forbidden and nothing |
| `IntakeDesk.IntakeService.CreateEngagementCall` | Go/internal/workmgmt/practice_service.go:558-581 | The engagement is stored under its id, whatever stood there, or the right error and nothing |
| `IntakeDesk.OneApprovalPerCreation` | Go/internal/workmgmt/memory_store.go:937-954 | In every interleaving, creates under used ids included, an intake is approved at most once for each time it was created; created once, it is approved exactly when one approval committed |
| `IntakeDesk.RecreatedIsApprovedTwice` | Go/internal/workmgmt/memory_store.go:937-954 | A concrete run creates an approved intake again under its id and approves it a second time |
| `IntakeDesk.ApprovedNamesItsEngagement` | Go/internal/workmgmt/memory_store.go:1121-1154 | In every interleaving approved intakes name stored engagements, no two the same one; all along each names one of its own client, company and owner exactly when no engagement create replaces a named one on other terms |
| `IntakeDesk.NamedExactlyWhen` | Go/internal/workmgmt/memory_store.go:873-887 | One step keeps every approved intake naming its own engagement exactly when it is not a create that replaces a named engagement with another client, company or owner |
| `IntakeDesk.EngagementCreateExactly` | Go/internal/workmgmt/memory_store.go:873-887 | An engagement create keeps every approved intake naming its own engagement exactly when it does not replace a named one on other terms, with no assumption on calls in flight |
| `IntakeDesk.ReplacedEngagementIsMisnamed` | Go/internal/workmgmt/memory_store.go:873-887 | A concrete run after which an approved intake names an engagement of another client |
| `IntakeDesk.DecisionsAreFinal` | Go/internal/workmgmt/practice_service.go:475-554 | Once approved or rejected an intake never changes again over any run that does not create it anew under its id |
| `IntakeDesk.DecisionKeptExactlyWhen` | Go/internal/workmgmt/practice_service.go:441-554 | One step changes a decided intake exactly when it is an accepted create under its id |
| `IntakeDesk.SecondApprovalConflicts` | Go/internal/workmgmt/memory_store.go:1121-1154 | Of two approvals in flight on one intake the second to commit is refused and changes nothing |
| `Hierarchy.CollectDownlineIDs` | Go/internal/workmgmt/hierarchy.go:353-380 | On every manager map, cyclic ones included, returns without duplicates exactly the users other than the root from whom following managers one or more times reaches the root |
| `Hierarchy.Expand` | Go/internal/workmgmt/hierarchy.go:367-379 | One turn of the breadth-first loop keeps that nobody reporting to a seen, unqueued manager is unseen, and makes progress |
| `Hierarchy.Complete` | Go/internal/workmgmt/hierarchy.go:353-380 | With the queue empty, whoever reaches the root in any number of steps has been seen |
| `Visibility.ListedIsViewable` | Go/internal/workmgmt/hierarchy.go:484-516 | Every item listed under the scoped filter passes the view rule, for every actor with an id and a filter without a foreign preset scope |
| `Visibility.ListedIsViewableExactlyWhen` | Go/internal/workmgmt/hierarchy.go:484-516 | For professionals everything listed is viewable exactly when the preset team-leader scope is empty, the actor, or a seeded firm's user a default-firm actor cannot meet |
| `Visibility.LeaderListsViewableExactlyWhen` | Go/internal/workmgmt/hierarchy.go:484-516 | For team leaders everything listed is viewable exactly when the preset owner scope or the assignee filter is harmless: the actor, one of its downline, or a seeded firm's user a default-firm actor cannot meet |
| `Visibility.LeadershipListsExactly` | Go/internal/workmgmt/hierarchy.go:299-336 | For partners and managers the listing is exactly the viewable, undeleted items that match the rest of the filter |
| `Visibility.DownlineHasNoBlank` | Go/internal/workmgmt/hierarchy.go:353-380 | The collected downline never holds a blank user |
| `Visibility.Collect` | Go/internal/workmgmt/memory_store.go:119-213 | The list loop selects exactly the stored items that pass every test, each once, in whatever order the map is walked |
| `Visibility.ListWork` | Go/internal/workmgmt/memory_store.go:119-254 | The page is its slice of the listing, the total is exact, and the page count is the least that covers it |
| `Visibility.PageHolds` | Go/internal/workmgmt/memory_store.go:231-254 | The k-th item of a page is the k-th of the listing after the pages before it, and a page is as full as the listing allows |
| `Visibility.ListsByRole` | Go/internal/workmgmt/hierarchy.go:484-516 | The scoped listing is, role by role, exactly: for CAs what they own, are assigned, created or handed out and what their downline holds, for team leaders what they lead, are assigned or created and what their downline holds, for executors what is assigned to them, for leadership what they may view, for HR and reception nothing, within firm and filter |
| `Visibility.ViewTells` | Go/internal/workmgmt/hierarchy.go:299-336 | HR views nothing, leadership its firm, and others the items that name them or are held by their downline, across firms only in the default firm |
| `Visibility.OwnWorkIsTheirFirms` | Go/internal/workmgmt/hierarchy.go:431-445 | What a user of a seeded firm made belongs to the firm their id gives |
| `Visibility.FilterTells` | Go/internal/workmgmt/memory_store.go:119-213 | An item matches a filter exactly when every text wanted is met, exactly or up to case, its status is the one wanted, its due day lies within the days wanted and the search is found |
| `Visibility.InvolvementTells` | Go/internal/workmgmt/memory_store.go:119-213 | Asked for the involvement of a user, exactly the items that name the user are listed |
| `Visibility.SearchFinds` | Go/internal/workmgmt/memory_store.go:119-213 | What occurs in title, description, client name, department or a tag in whatever case is found |
| `Visibility.ViewableButUnlisted` | Go/internal/workmgmt/hierarchy.go:299-336 | What may be viewed within the firm but is not listed: for CAs work that has them as its team leader only, for team leaders work they own or handed out, for executors work assigned to others |
| `Visibility.ListForActor` | Go/internal/workmgmt/service.go:355-361 | The listing endpoint returns only stored items the caller may view, as a page of exactly what the role lists, or the empty page for HR and reception |
| `Ids.NextIdByScan` | Go/internal/repository/memory/store.go:527-554 | The scan, in any order, yields prefix and padded successor of the largest number; it is taken only once the numbers are exhausted and the fallback is in use |
| `Ids.ScanIsFresh` | Go/internal/repository/memory/store.go:527-554 | The next number's id is not in the collection, whatever ids it holds |
| `Ids.PaddedParses` | Go/internal/repository/memory/store.go:544-553 | Padding and parsing are inverse on every number an id can carry |
| `Ids.LexIsNumeric` | Go/internal/repository/postgres/store.go:467-497 | On digit strings of one length byte order is numeric order |
| `Ids.LastAgreesWithScan` | Go/internal/repository/postgres/store.go:467-497 | When every prefixed id has exactly the padded number of digits, the lexicographically last id yields the same next id as the scan |
| `Ids.LastCollidesAfterRollover` | Go/internal/repository/postgres/store.go:467-497 | Once all nines and its successor are both in use, the id computed from the last row is already taken |
| `Ids.GeneratedUntilRollover` | Go/internal/repository/postgres/store.go:467-497 | With generated ids only, the id computed from the last row is the next one, and free, exactly until ten to the width ids exist; from then on every create that asks for an id is refused |
| `OrderLists.ShiftLeft` | Go/internal/repository/memory/store.go:395-411 | The in-place shift yields what was before the gap followed by what was after it |
| `OrderLists.OrderMap.Append` | Go/internal/repository/memory/store.go:329-330 | Appending, in spare capacity or in a larger copy, extends one list and leaves every other as it was |
| `OrderLists.OrderMap.Remove` | Go/internal/repository/memory/store.go:395-411 | Removes the first occurrence in place and leaves every other list as it was |
| `OrderLists.OrderMap.Clone` | Go/internal/repository/memory/store.go:152-156 | The copied lists equal the originals and share no backing array with them |
| `DocumentStore.Store.CreateRecord` | Go/internal/repository/memory/store.go:292-331 | Over slices on the heap: the record, stamped and under its own or a generated id, goes to the end of its collection and is returned, or a conflict when the id is in use |
| `DocumentStore.Store.UpdateRecord` | Go/internal/repository/memory/store.go:334-352 | Every field of the patch but the id replaces the stored one, order untouched, and the new record is returned, or not found |
| `DocumentStore.Store.ArchiveRecord` | Go/internal/repository/memory/store.go:360-373 | The record is flagged and dated, order untouched, or not found and nothing |
| `DocumentStore.Store.RestoreRecord` | Go/internal/repository/memory/store.go:376-392 | The flag and its date are gone and an archived status is active, order untouched, or not found and nothing |
| `DocumentStore.Store.PermanentDeleteRecord` | Go/internal/repository/memory/store.go:395-411 | Record and first listing of the id are gone and every other list is as it was, despite the in-place edit, or not found and nothing |
| `DocumentStore.Store.ReplaceAllRecords` | Go/internal/repository/memory/store.go:414-438 | The collection holds the given records in the given order, generated ids seeing the ids placed before them; other collections are as they were |
| `DocumentStore.Store.WithTx` | Go/internal/repository/memory/store.go:119-160 | For every sequence of operations and every verdict: an error, the first of an operation or else the verdict, leaves data, order and sessions as they were at the start, and no error leaves exactly what the operations did |
| `RecordMeaning.StampedTells` | Go/internal/repository/memory/store.go:292-331 | A new record keeps what it brings; id, creation date and flag are filled in where missing, the date of change always |
| `RecordMeaning.MergedTells` | Go/internal/repository/memory/store.go:334-352 | A patch replaces exactly the fields it names, the id never among them |
| `RecordMeaning.ErrorsTell` | Go/internal/repository/memory/store.go:292-411 | An operation reports a conflict exactly for a create under an id in use, not found exactly for a record that is not there, and else no error |
| `RecordMeaning.SessionsTell` | Go/internal/repository/memory/store.go:475-515 | Putting, revoking and clearing touch exactly the session named, or all of them, and no collection |
| `RecordMeaning.ReplacementHolds` | Go/internal/repository/memory/store.go:414-438 | A bulk replacement with distinct ids holds every record as given under its own id |
| `RecordMeaning.ReplacementCarriesIds` | Go/internal/repository/memory/store.go:414-438 | Whatever records a bulk replacement is given, each is stored under the id it then carries |
| `RecordMeaning.ArchivedTells` | Go/internal/repository/memory/store.go:360-373 | Archiving flags and dates the record and touches nothing else |
| `RecordMeaning.RestoredTells` | Go/internal/repository/memory/store.go:376-392 | Restoring clears flag and date, makes an archived status active and touches nothing else |
| `RecordMeaning.RestoreUndoesArchive` | Go/internal/repository/memory/store.go:360-392 | Restoring an archived record gives back every field but flag and date, save for a status that said archived |
| `RecordMeaning.GeneratedIdTells` | Go/internal/repository/memory/store.go:527-554 | While the numbers fit, a generated id is the prefix of its collection and the next number, in five digits for invoices and payments and in four otherwise |
| `RecordMeaning.DefaultPrefix` | Go/internal/repository/memory/store.go:527-531 | A collection without a prefix takes its first three letters in upper case and a dash |
| `RecordMeaning.OwnPrefix` | Go/internal/repository/memory/store.go:527-531 | A collection with a prefix in the table uses it |
| `StoredBooks.Transact` | Go/internal/repository/memory/store.go:119-160 | Of the finance tables a store shows: a transaction that ends in an error leaves the books as they were, and one that does not leaves the books its operations make |
| `StoredBooks.ListedTells` | Go/internal/repository/memory/store.go:209-241 | The finance lists leave out exactly the records the store lists leave out: archived by flag or by any spelling of the status |
| `StoreScripts.SyncYields` | Go/internal/app/services/invoice_service.go:216-242 | The update a sync writes into the invoice record, three fields of it, makes of the books what syncing does, or ends in its error |
| `StoreScripts.RecalcYields` | Go/internal/app/services/invoice_service.go:244-269 | The update a recalculation writes into the client record makes of the books what recalculating does, its error returned or dropped |
| `StoreScripts.PatchedPaymentView` | Go/internal/app/services/payment_service.go:115-137 | Merging any patch into a payment record, unknown fields included, is patching the payment |
| `StoredDrafts.EnrichedView` | Go/internal/app/services/payment_service.go:59-94 | The record a payment create stores, blanks filled in and enriched from its invoice, is the payment the finance model stores |
| `StoredDrafts.EnrichedTexts` | Go/internal/app/services/payment_service.go:59-94 | A new payment is dated today and a bank transfer unless it says otherwise, and takes client name and invoice number from its invoice where it brings none |
| `StoredCalls.CallIsItsScript` | Go/internal/app/services/payment_service.go:53-197 | Whatever the store holds: the store operations any payment or invoice call performs, in order, end in the error of the finance model or leave exactly its books |
| `StoredCalls.NoteTells` | Go/internal/app/services/payment_service.go:100-108 | The activity of a create is recorded under its own or a generated id unless that is in use |
| `StoredCalls.StoredRunIsTheRun` | Go/internal/app/services/invoice_service.go:59-158 | Over every run of transactions on the store, failing ones rolled back and ids generated on the way, the books shown are those of the finance model's run |
| `StoredCalls.RunCall` | Go/internal/repository/memory/store.go:119-160 | The transaction on the heap: its error is the finance model's and leaves every document as it was, and without one the books are the model's |
| `Documents.EffectRepresented` | Go/internal/repository/memory/store.go:292-438 | Every operation keeps order lists duplicate-free and equal to the data keys, and records under their own id |
| `Documents.RunRepresented` | Go/internal/repository/memory/store.go:292-438 | So does every run of operations whose bulk replacements carry distinct, non-empty ids |
| `Documents.ReplacementRepresented` | Go/internal/repository/memory/store.go:420-438 | A bulk replacement with non-empty ids is represented exactly when the ids are distinct |
| `Documents.GeneratedIdConflictsExactlyWhen` | Go/internal/repository/memory/store.go:292-315 | A create that asks for an id conflicts exactly when the numbers are exhausted and the fallback is taken, or for chat the unique id is |
| `Stream.Response.WriteFrame` | Go/internal/api/handlers/ai.go:68-83 | Appends one event as one frame, or reports that the connection takes no more and writes nothing |
| `Stream.ChunkEmit` | Go/internal/ai/factory.go:282-298 | Writes the frames of the text cut into pieces of four or twelve, in order, then one closing frame; it stops at the first write that fails and reports it |
| `Stream.SplitIncremental` | saas/src/services/aiService.ts:113-119 | Splitting what has come, keeping the remainder and splitting again with the rest is splitting the whole |
| `Stream.NormAppend` | saas/src/services/aiService.ts:116-117 | Normalising the buffer again with each read normalises each read on its own |
| `Stream.ChatStream` | saas/src/services/aiService.ts:107-145 | For any reads whatever, the loop makes the handler calls of the frames closed in the normalised stream, up to and including the first error |
| `Stream.HandlePart` | saas/src/services/aiService.ts:120-143 | One part: no data lines and payloads that do not parse are skipped, an error throws, otherwise delta then done |
| `StreamDelivery.ReceivedReadAs` | saas/src/services/aiService.ts:115-117 | Whatever the cuts, what is read is the stream with some feeds after a return dropped and the other returns made feeds |
| `StreamDelivery.StreamDelivers` | saas/src/services/aiService.ts:107-145 | However the stream is cut and whatever line ends a proxy closes its frames with, as long as they make two or more, the handlers see exactly the emitted events in order |
| `StreamDelivery.PiecesConcat` | Go/internal/ai/factory.go:282-298 | The pieces are non-empty, no longer than the step, and concatenate to the text |
| `StreamDelivery.ChunksTell` | Go/internal/ai/factory.go:282-298 | A reply of less than forty characters goes out by fours, a longer one by twelves, only the last piece shorter |
| `StreamDelivery.ReplyEventsTell` | Go/internal/ai/factory.go:282-298 | Every event of a reply names the model, and only the last is the end and tells the usage |
| `StreamDelivery.ReplyRoundTrip` | saas/src/services/aiService.ts:107-145 | A reply arrives as non-empty deltas that concatenate to its text, followed by done, once |
| `StreamDelivery.ErrorAfter` | Go/internal/api/handlers/ai.go:84-99 | A stream cut off by an error delivers what came before, then the error once, and throws |
| `StreamDelivery.Conversation` | saas/src/services/aiService.ts:107-145 | Server loop, any cut of the written bytes and browser loop together deliver the text and one done, without throwing |
| `StreamFusing.DeliversExactlyWhen` | saas/src/services/aiService.ts:107-145 | For every list of events that are heard, only the last of them an error, with any runs of line ends behind them, empty ones included: every cut of the stream delivers them all in order exactly when every run makes two line ends; between frames a shorter run is covered while run-on payloads do not decode |
| `StreamFusing.ReturnThenFeed` | saas/src/services/aiService.ts:115-119 | For every event that is heard: a lone return and a lone feed behind it close its frame when read apart, and lose it when read together |

## Left out

- HTTP routes, sessions and passwords, configuration, React components, CSV export, AI provider clients and the SQL bodies other than the id query.
- Floating point and the tax rounding rule: amounts are integer paise, hours are reals, and `total` is the total after tax.
- The width of amounts: paise are unbounded integers; the 64-bit limit is modelled for generated ids only.
- Dates: a due date is a day number, or none when empty or unparseable; clocks, random ids and stamps are parameters.
- Letter case outside ASCII, and how role, status and risk words are spelled: statuses and roles are datatypes that keep exactly the distinctions the code makes.
- Default texts, numbers and dates of a new invoice or payment: the modelled draft carries its due date already.
- Invoice delete, archive, restore and duplicate, and the archive service, which bypass reconciliation.
- The other checks of the integrity checker (orphans, duplicates, roles), profit and loss, balance sheet and the other dashboard figures.
- Activities, audit entries, notifications, checklists, notes and the other records of the workflow service; of activities, only that a new payment or invoice notes one.
- RejectIntake in two steps, and what edits in two steps do to the history as a path and to closed work: there `GateSafety.HistoryIsPath` and `GateSafety.TerminalStays` take edits as whole calls.
- Work created under a used id: the create request carries none (Go/internal/api/handlers/work.go:104-166), ids are generated, and such a create does nothing in the machine.
- The order of a listing: the page is a slice of some enumeration of the matching items, not sorted.
- The database's newest-first history, for which the latest TL pass would be another entry.
- Isolation of concurrent store calls and nested transactions: store calls are sequential.
- A transaction's function is the sequence of store operations it performs and the verdict it returns; the reads that choose those operations are not modelled.
- Splitting inside a multi-byte character: the text decoder is taken to hand over whole characters, and a chunk is cut between characters.
- The JSON codec: any invertible encoding without line breaks whose text neither starts nor ends in white space.
- The prefix table of generated ids: any map from collection to prefix.
- StreamFusing.DeliversExactlyWhen: for a codec that can decode payloads run together or joined by newlines, which JSON objects are not, it covers separators between frames that make two line ends, and any behind the last.
- Ids.LastCollidesAfterRollover: states one family of collisions; the exact statement, `Ids.GeneratedUntilRollover`, is for collections of generated ids, because callers may also store ids of any shape.
- The database's collation: ids are compared by character code.
