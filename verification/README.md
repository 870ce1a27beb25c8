# IoT platform: billing ledger, export files, caches and limiters, alerts

A Dafny model of the parts of a multi-tenant IoT platform whose correctness depends on more than one function:
operations that commit in several steps and can be cut between them, workers that interleave on one row, caches and
pruned lists that stand for a database or a log, and an alert engine that keeps the same state twice.
`dafny verify dfyconfig.toml` checks everything.

- **Ledger** (`Calendar`, `Billing`, `Prices`, `Ledger*`). The daily batch backfills missed months, finalizes stale
  drafts and bills the current month again; a manual correction appends rows of differences. Every operation is a
  sequence of commits and can be cut after any of them: a budget says how many effects take place. Prices and tax rates
  are integers in ten-thousandths. Where a query is unordered (`first()` without an order), the row it picks is an
  arbitrary legal choice. `LedgerStore`, with `InvoiceDetail`, is the code in its imperative form, each method proved
  equal to the function that `LedgerSound`, `LedgerMoney`, `LedgerRuns`, `LedgerNotices` and `LedgerCuts` reason about;
  `LedgerBills` says what each row is billed at, without the functions that compute it; `LedgerWitness` holds runs from
  the empty ledger in which a promise fails.
- **Export files** (`Export*`). `ExportProtocol` is a state machine over job rows, the bucket, workers, requests and
  portal deletions, with every storage call and commit a step of its own that can fail, or take effect and be reported
  as failed. A second worker gets to a row through a stale lock, through two requests that both read the row before
  either commits, or while the handler of a commit wrongly reported as failed still runs. `ExportSafety` proves what
  holds in every interleaving, `ExportAccounts` what holds while no row has two workers that may still write it and
  exactly what a second one can break, `ExportGate` when the lock keeps a second one off, `ExportOrphans` which files are
  left behind, `ExportTakeover` concrete runs in which things break. `ExportJobs` and `ExportSchedule` are the
  sequential code; `ExportAlone` shows that the worker there is the protocol's, left alone.
- **Caches, revocation, limiters** (`TtlCache`, `TokenBlocklist`, `Windows`, `SendLimiter`, `FailureLimiter`). Each is
  compared with what it stands for: the history of the database, the set of used tokens, the full log of sends and
  failures. Times are reals.
- **Alerts** (`Evaluator`, `Alerts`, `AlertRuns`, `AlertNotices`, `AlertEngine`). Events open and resolve,
  notifications follow them, and the delivery status of each rule lives in memory and in the database. Again a
  budget cuts a cycle between any two effects.
- **Chunking**. The splitter for oversized document sections, and why no other grouping needs fewer parts.

What the outside answers - usage counts, verdicts of external systems, clocks, whether a write succeeds - is input.

## What the proofs found

Properties that fail are kept as lemmas with a concrete input, next to the exact condition under which they hold.

- A correction that finds no difference in money records nothing, even if quantities changed
  (`LedgerMoney.QuantityIsCorrectedIff`, `LedgerWitness.FreeUsageStaysWrong`).
- After a correction cut between its two commits, the next one that reaches its end adds a row whose lines do not sum to
  its own subtotal; the month as a whole is right again (`LedgerMoney.AddedRowBalancesIff`,
  `LedgerMoney.AddedCorrectionMakesWhole`, `LedgerWitness.CutCorrectionUnbalancesTheNext`). Which of the rows
  it writes a completed operation leaves balanced is `LedgerRuns.WrittenRowsBalanceIff`.
- The docstring of the backfill promises the latest invoice's number of devices; the code takes it from whichever row of
  the latest month the database returns first, and a correction row shows none; a month whose backfill is cut before its
  lines has none either (`LedgerCuts.BackfillCarriesTheMonthIff`, `LedgerWitness.BackfilledMonthLosesItsDevices`).
- The docstring of the stale-draft pass calls it the only path to `finalized`; the backfill creates finalized rows too.
- A batch stopped after the bill-shock mail and before its mark sends the mail again; stopped anywhere else it does not
  (`LedgerNotices.BatchKeepsMarksIff`, `LedgerWitness.MonthMailedTwice`).
- The lock of a row is not all that decides whether two workers can be on it: of two requests that read the row before
  either commits both pass, and a commit that took effect and was reported as failed opens the row while its handler
  still runs (`ExportTakeover.SimultaneousRequestsBothRun`, `ExportTakeover.HandlerDoesNotHoldTheRow`). Without these,
  and with requests that come before the lock is stale, there is one worker (`ExportGate.GateKeepsOneWorker`).
- After a takeover a failing worker can mark a row as failed that has a file (`ExportTakeover.TakeoverCanHideAFile`,
  `ExportAccounts.FailureHidesAFileIff`), and a commit can leave the size of another worker's file
  (`ExportTakeover.TakeoverCanRecordAnotherSize`, `ExportAccounts.CommitRecordsTheSizeIff`).
- The early return of the failure handler leaves its upload behind (`ExportTakeover.EarlyReturnLeavesAFile`); the files
  left behind are exactly the lost ones (`ExportOrphans.OrphansAreTheLostFiles`).
- An outage that a schedule meets before its first period loses the time it lasts: that period is counted back from the
  poll. A schedule that has run loses none (`ExportSchedule.FailedEstimateLosesNoTimeIff`,
  `ExportSchedule.FirstPeriodSlides`).
- Forgetting a device or session takes effect at once only if no running lookup has already read another answer
  (`TtlCache.ForgetIsImmediateIff`).
- A refresh token is accepted a second time when its expiry falls between the verification and the revocation check, or
  when the process restarts after a revocation that could not be stored (`TokenBlocklist.AcceptedAgainIff`,
  `TokenBlocklist.AcceptedAfterRestartIff`).
- Both limiters read the clock before they take the lock. When callers may wait D seconds in between, more than five sends
  can fall within any length of time above 60 - D seconds, and within none up to it (`SendLimiter.SafeLengthIff`). The
  failure limiter forgets a failure that a reading ahead of the present one has pruned
  (`FailureLimiter.KeptIsEnoughIff`, `FailureLimiter.LateReadingForgetsAFailure`).
- An alert cycle cut between a change of an event and the notification never sends it, and after a lost alert the next
  one says "resolved" (`AlertRuns.CutAlertIsLost`); a cut anywhere else loses nothing (`AlertRuns.EverythingIsToldIff`).
  `device_offline` events are never resolved, so each is notified once for ever (`AlertRuns.OfflineAlertsComeOnce`).

## Model

| member | source | states |
|---|---|---|
| Calendar.MonthsBetweenExclusive | core-api/app/services/billing_batch.py:18-31 | terminates with exactly the months strictly between its arguments, ascending; none when start is not before end |
| Calendar.ParseUndoesPrint | core-api/app/services/billing_batch.py:15-30 | parsing a printed month gives that month, for every year |
| Calendar.PrintUndoesParse | core-api/app/services/billing_batch.py:20-30 | printing a parsed well-formed "YYYY-MM" gives the text back |
| Calendar.TextOrderIsCalendarOrder | core-api/app/services/billing_batch.py:45 | text order and equality are calendar order and equality up to the year 9999, so max, `<` and sort on texts are right |
| Calendar.TextOrderBreaksAtYear10000 | core-api/app/services/billing_batch.py:162 | with five-digit years text order is not calendar order |
| Billing.RoundDown | core-api/app/services/billing.py:18-20 | rounding toward zero for either sign, as negative delta lines need |
| Billing.CalculateInvoice | core-api/app/services/billing.py:23-51 | the accumulating loop yields one line an item, subtotal the sum of the rounded lines, tax rounded down, unknown items at price zero |
| Billing.InvoiceSays | core-api/app/services/billing.py:23-51 | one line an item with its unit price, free when it has none, and its amount in whole yen; the tax on the sum of the amounts |
| Billing.SubtotalError | core-api/app/services/billing.py:30-41 | 0 <= exact sum - subtotal, and less than one yen an item |
| Billing.RoundingBounds | core-api/app/services/billing.py:23-51 | 0 <= tax <= subtotal, and the exact taxed amount exceeds the total by less than n(1+r)+1 yen |
| Prices.GetEffectiveUnitPrices | core-api/app/services/billing.py:58-72 | the first-per-key scan returns, for each item that has an applicable row and no other, the price in force on the first of the month |
| Prices.InForceIsUnique | core-api/app/services/billing.py:60-65 | with unique starts the row in force is unique |
| Prices.PriceBook.SetUnitPrice | core-api/app/services/billing.py:92-118 | accepted exactly for a known item, the first of a month, a future month; refused changes nothing; accepted overwrites or adds one row and keeps starts unique |
| Prices.ChangeSparesThePast | core-api/app/services/billing.py:99-101 | no change alters what is in force in any month up to the current one |
| Prices.PastPricesAreFrozen | core-api/app/services/billing.py:92-118 | the same over any sequence of changes made later |
| Prices.ChangeTakesEffect | core-api/app/services/billing.py:103-118 | an accepted change is in force from its month until a later row, and other items are untouched |
| LedgerSound.BatchKeepsSound | core-api/app/services/billing_batch.py:213-256 | a batch cut anywhere keeps the ledger invariant, never meets skipped_not_draft, and if it ends leaves the current month as the only draft |
| LedgerSound.BackfillKeepsSound | core-api/app/services/billing_batch.py:34-76 | backfill cut anywhere keeps the invariant and, if it ends, leaves no gap before the current month |
| LedgerSound.FinalizeKeepsSound | core-api/app/services/billing_batch.py:151-187 | finalizing cut anywhere keeps the invariant, touches only stale drafts, and if it ends leaves none |
| LedgerSound.OpenDraftKeepsSound | core-api/app/services/billing_batch.py:190-200 | get-or-create keeps the invariant, and the row it returns is a draft |
| LedgerSound.RefreshKeepsSound | core-api/app/services/billing_batch.py:236-251 | billing the current draft changes that row alone, not its month or status; it is skipped exactly when the row is no draft |
| LedgerSound.CorrectKeepsSound | core-api/app/services/billing_batch.py:83-148 | a correction cut anywhere keeps the invariant |
| LedgerSound.SoundMeansGapFree | core-api/app/services/billing_batch.py:34-76 | the invariant means: from the first month to the latest each month has exactly one non-corrected row, and no row lies outside |
| LedgerBills.FinalizeBills | core-api/app/services/billing_batch.py:159-187 | row by row, at every cut: the drafts of earlier months are settled in order, each at the usage, prices and tax of its own month with the devices it last showed - money and status first, lines second - and nothing else changes |
| LedgerBills.BackfillBills | core-api/app/services/billing_batch.py:61-78 | at every cut: one finalized invoice a missing month, in order, each at its own month's usage, prices and tax with the devices kept |
| LedgerBills.RefreshBills | core-api/app/services/billing_batch.py:241-251 | at every cut: the draft is billed from the current reading, devices and all, and the outcome says whether it went through |
| LedgerBills.BatchBills | core-api/app/services/billing_batch.py:228-253 | an uncut batch settles each stale draft from its own month, fills each missing month from its own, bills the current draft, and changes no other row |
| LedgerBills.BatchEndsIff | core-api/app/services/billing_batch.py:228-256 | a batch ends well exactly when all the effects it needs take place, and reports the cost of the current month |
| LedgerBills.OpenDraftSays | core-api/app/services/billing_batch.py:190-200 | a month without a row gets a blank draft in one commit |
| LedgerBills.CorrectionBills | core-api/app/services/billing_batch.py:95-148 | at every cut: refused exactly when the month is not final, nothing exactly when it already sums to the cost of the reading; else the first commit makes it sum to that, the second sets every item's totals, at the reading's prices |
| LedgerBills.SettledNeedsNoCorrection | core-api/app/services/billing_batch.py:117-127 | a month settled on a reading and corrected on the same reading needs no correction |
| LedgerBills.DevicesShown | core-api/app/services/billing_batch.py:167-173 | the devices kept are those of the first line about them, zero without one |
| LedgerRuns.EveryRunIsSound | core-api/app/services/billing_batch.py:213-256 | in every run of batches and corrections, cut anywhere, with a current month that does not go back: no gaps, one base row a month, one draft at most, total = subtotal + tax |
| LedgerRuns.EveryRunIsGapFree | core-api/app/services/billing_batch.py:34-76 | the same read row by row in every reachable state |
| LedgerRuns.EveryUncutBatchBillsTheCurrentMonth | core-api/app/services/billing_batch.py:236-252 | after a batch that ends, the draft is the current month and the outcome is ok |
| LedgerRuns.WrittenRowsBalanceIff | core-api/app/services/billing_batch.py:122-187 | in any run, each row that a completed operation writes has lines summing to its subtotal - a correction's delta row exactly when the month's items agreed with its subtotal before |
| LedgerRuns.UncutRunsBalance | core-api/app/services/billing_batch.py:122-187 | so in a run without cuts every row balances in every state, delta rows included |
| LedgerRuns.DevicesNeverChange | core-api/app/services/billing_batch.py:107-118 | once a month is past, its provisionable devices never change, through finalization and all corrections, cut or not |
| LedgerCuts.BatchSpares | core-api/app/services/billing_batch.py:213-256 | a batch cut anywhere touches no finalized or corrected row, and adds rows only for months that had none |
| LedgerCuts.StepWholeIff | core-api/app/services/billing_batch.py:122-148 | exactly what each operation, cut anywhere, does to the agreement of a final month's items with its subtotal |
| LedgerCuts.WholeUntilCut | core-api/app/services/billing_batch.py:129-146 | in any run, once a completed correction added its row the month's items sum to its subtotal, until a correction of that month is cut between its commits |
| LedgerCuts.EveryRunDeltasCarryNone | core-api/app/services/billing_batch.py:114-118 | in every run a correction row carries no provisionable devices |
| LedgerCuts.PickShowsTheMonthIff | core-api/app/services/billing_batch.py:51-59 | the row the query returns shows the month's devices exactly when it is the base row, or there are none |
| LedgerCuts.BackfillCarriesTheMonthIff | core-api/app/services/billing_batch.py:51-64 | in any run, cut anywhere, a backfilled month carries the latest month's devices exactly when there are none, or the row picked is the base row and the budget reached the new month's lines |
| LedgerNotices.BatchNotices | core-api/app/services/bill_shock.py:31-60 | a completed batch sends a notice exactly when its total exceeds the threshold and the month has had none |
| LedgerNotices.RefreshKeepsMarksIff | core-api/app/services/bill_shock.py:37-60 | billing a draft, cut anywhere, keeps the marks right exactly unless it is cut between mail and mark |
| LedgerNotices.BatchKeepsMarksIff | core-api/app/services/billing_batch.py:228-252 | the same of a whole batch |
| LedgerNotices.OneNoticePerMonth | core-api/app/services/bill_shock.py:37-60 | over any run, cut anywhere but between a mail and its mark, no month gets two notices, and the marks say which months got one |
| LedgerNotices.CutAfterMailRepeatsTheNotice | core-api/app/services/bill_shock.py:53-60 | whatever ledger it started from: after a batch cut between mail and mark, the next batch of the month that ends above the threshold mails again |
| LedgerMoney.CorrectionReconciles | core-api/app/services/billing_batch.py:103-148 | after a correction the month's rows sum to exactly the fresh calculation, row added or not; other months are untouched |
| LedgerMoney.MoneyAppend | core-api/app/services/billing_batch.py:103-105 | a row adds its own money to the sums of its month and to no other |
| LedgerMoney.ItemAppend | core-api/app/services/billing_batch.py:107-112 | and its own lines to the item totals of its month |
| LedgerMoney.LastCorrectionDecides | core-api/app/services/billing_batch.py:83-148 | after any number of corrections, earlier ones cut or not, the sums are those of the last calculation |
| LedgerCuts.LastCorrectionDecidesTheRun | core-api/app/services/billing_batch.py:83-148 | in any run, with batches and corrections of other months in between, all cut anywhere: a month sums to what the last correction of it that reached its first commit would bill |
| LedgerCuts.OthersKeepSums | core-api/app/services/billing_batch.py:213-256 | every other operation, cut anywhere, leaves a final month's sums alone |
| LedgerMoney.RepeatedCorrectionAddsNothing | core-api/app/services/billing_batch.py:122-127 | a repeat on the same inputs adds nothing |
| LedgerMoney.AddedCorrectionMatchesItems | core-api/app/services/billing_batch.py:138-146 | when a row is added, each item's quantity and amount over the month equal the fresh calculation |
| LedgerMoney.QuantityIsCorrectedIff | core-api/app/services/billing_batch.py:126-127 | an item's quantity is right after a completed correction exactly when the month's money differed from the fresh bill's, or the quantity was right before |
| LedgerMoney.AddedRowBalancesIff | core-api/app/services/billing_batch.py:107-146 | the delta row's lines sum to its subtotal exactly when the month's items did before |
| LedgerMoney.AddedCorrectionMakesWhole | core-api/app/services/billing_batch.py:107-146 | whatever was cut before, after an added row the month's items sum to its subtotal |
| LedgerMoney.CorrectionKeepsDevices | core-api/app/services/billing_batch.py:114-118 | a correction, cut or not, changes no month's number of provisionable devices |
| LedgerMoney.CorrectionBalances | core-api/app/services/billing_batch.py:122-146 | over balanced rows a completed correction's delta lines sum to its delta subtotal |
| LedgerMoney.ItemsMakeSubtotal | core-api/app/services/billing.py:259-282 | over balanced rows the items' amounts of a month sum to its subtotal |
| LedgerWitness.CutCorrectionUnbalancesTheNext | core-api/app/services/billing_batch.py:134-146 | a run from the empty ledger in which a completed correction adds a row that does not balance |
| LedgerWitness.BackfilledMonthLosesItsDevices | core-api/app/services/billing_batch.py:51-64 | a run in which a month with seven devices is followed by a backfilled month with none |
| LedgerWitness.FreeUsageStaysWrong | core-api/app/services/billing_batch.py:126-127 | a run in which unpriced usage went from five to eight and the month says five before and after its correction |
| LedgerWitness.MonthMailedTwice | core-api/app/services/bill_shock.py:53-60 | a run from the empty ledger with two notices for one month |
| LedgerStore.Store.BackfillMissingMonths | core-api/app/services/billing_batch.py:34-76 | the loop of commits is the backfill the lemmas are about, at every cut |
| LedgerStore.Store.FinalizeStaleDrafts | core-api/app/services/billing_batch.py:151-187 | likewise for finalizing |
| LedgerStore.Store.GetOrCreateDraftInvoice | core-api/app/services/billing_batch.py:190-200 | likewise; returns the position of the month's row |
| LedgerStore.Store.CheckAndNotifyBillShock | core-api/app/services/bill_shock.py:31-60 | mail first, mark second, and nothing when no threshold, not exceeded, or marked |
| LedgerStore.Store.RunMonthlyBillingBatch | core-api/app/services/billing_batch.py:228-252 | one tenant's batch, phase after phase, at every cut |
| LedgerStore.Store.CorrectInvoice | core-api/app/services/billing_batch.py:83-148 | the correction with its running totals and delta lines, at every cut |
| LedgerStore.Store.RunningTotals | core-api/app/services/billing_batch.py:93-114 | the loop over rows and lines yields the month's sums and each item's totals |
| LedgerStore.Store.ListInvoicesAggregated | core-api/app/services/billing.py:207-233 | exactly the months on record, latest first, each with the sums over its rows |
| LedgerStore.Store.GetInvoiceDetailAggregated | core-api/app/services/billing.py:236-282 | none exactly for a month without rows; otherwise the sums over its rows, the differences of its corrections in order, and each item once, in the items' order, with its totals and latest unit price |
| LedgerStore.GroupSums | core-api/app/services/billing.py:217-232 | summing a month's group is summing that month over the whole table |
| LedgerStore.CorrectionsFollow | core-api/app/services/billing.py:247-256 | the differences shown are those of the month's corrected rows, in order, and of no other |
| LedgerStore.SummarySays | core-api/app/services/billing.py:222-232 | a month is listed as a draft exactly when a row of it is one, with its sums and the number of its corrections |
| InvoiceDetail.PriceIsTheLatest | core-api/app/services/billing.py:259-271 | the unit price shown is that of the latest line of the item in the month |
| ExportSafety.NothingEverDangles | core-api/app/services/export_jobs.py:117-216 | in every interleaving a row's file key names an object in the bucket, and a row that says done has one |
| ExportSafety.StepSafe | core-api/app/services/export_jobs.py:160-216 | every single step, failures and takeovers included, keeps the invariant behind it |
| ExportSafety.CommitSafe | core-api/app/services/export_jobs.py:187-192 | recording a new file keeps it, whether or not the commit is reported as done |
| ExportSafety.UndoSafe | core-api/app/services/export_jobs.py:201-209 | the failure handler deletes a new file only after reading the row again |
| ExportSafety.DeleteOldSafe | core-api/app/services/export_jobs.py:194-198 | deleting the replaced file never removes one a row names |
| ExportSafety.UploadSafe | core-api/app/services/minio_client.py:73-86 | an upload under a fresh key disturbs no row |
| ExportSafety.DeleteCommitSafe | core-api/app/routers/tenant_portal.py:1780-1796 | the portal's deletion, a row first and its file after, breaks no row |
| ExportAccounts.OnlyCommitsChangeTheFile | core-api/app/services/export_jobs.py:93-157 | no step but the success commit alters the key or the size of a row |
| ExportAccounts.RejectedRequestsChangeNoRow | core-api/app/services/export_jobs.py:123-138 | a rejected request leaves every row as it was |
| ExportAccounts.EveryFileIsAccountedFor | core-api/app/services/export_jobs.py:194-211 | in every interleaving each object is referenced, somebody's to delete, or recorded as lost |
| ExportAccounts.OneWorkerKeepsRowsCoherent | core-api/app/services/export_jobs.py:93-157 | while no row has two workers that may still write it - one that only deletes the old file does not count: done means a key, failed means none, recorded size is stored size |
| ExportAccounts.SmoothRunsLeaveNoOrphans | core-api/app/services/export_jobs.py:171-211 | with one such worker a row and no accident, at rest the bucket holds the rows' files and nothing else |
| ExportAccounts.CommitRecordsTheSizeIff | core-api/app/services/export_jobs.py:187-192 | exactly when a commit leaves the right size, given that unchanged columns are not written |
| ExportAccounts.FailureHidesAFileIff | core-api/app/services/export_jobs.py:93-103 | exactly when the failure handler marks a row with a file as failed |
| ExportAccounts.CeilingMegabytes | core-api/app/services/billing_usage.py:156-158 | the least number of megabytes that holds the bytes |
| ExportAccounts.StoredBytesAreBilled | core-api/app/services/billing_usage.py:156-158 | in a coherent world the billed megabytes are the ceiling of the bytes really stored for the rows |
| ExportGate.GateKeepsOneWorker | core-api/app/services/export_jobs.py:119-155 | no row gets a second such worker while a slot has one request at a time between its read and its commit, and requests come before the lock of a working row is stale and not while the handler runs on a row already done |
| ExportGate.GatedRowsAreCoherent | core-api/app/services/export_jobs.py:119-155 | so in those runs status, key and size of every row agree with the bucket |
| ExportGate.TurnedAwayIff | core-api/app/services/export_jobs.py:106-127 | a request is turned away exactly when its row is queued or processing and its work, or the request while it has not begun, is at most 600 seconds old |
| ExportGate.QueuedAgain | core-api/app/services/export_jobs.py:140-155 | the commit on a row nobody has changed queues it from now on and keeps its file |
| ExportGate.QueuedAnew | core-api/app/services/export_jobs.py:140-155 | a slot without a row gets one, unless it has one by then; a row that has gone is not made again |
| ExportGate.MarkedIsLocked | core-api/app/services/export_jobs.py:172-175 | after a worker has marked its row every request of the next 600 seconds is turned away |
| ExportOrphans.OrphansAreTheLostFiles | core-api/app/services/export_jobs.py:194-211 | in every interleaving, at rest, the objects no row refers to are exactly the lost files in the bucket |
| ExportOrphans.EveryRunLosesOnlyFreed | core-api/app/services/export_jobs.py:194-211 | no lost file is ever referred to again, nor can any worker still record it |
| ExportTakeover.TakeoverCanHideAFile | core-api/app/services/export_jobs.py:123-127 | a reachable state in which a takeover has left a failed row with a file |
| ExportTakeover.TakeoverCanRecordAnotherSize | core-api/app/services/export_jobs.py:184-192 | a reachable state in which a row says twenty bytes and its object has ten |
| ExportTakeover.EarlyReturnLeavesAFile | core-api/app/services/export_jobs.py:200-203 | a reachable state at rest with no row and a file in the bucket |
| ExportTakeover.SimultaneousRequestsBothRun | core-api/app/services/export_jobs.py:119-155 | a reachable state with two workers on a row whose lock is fresh, after two requests that read it before either committed |
| ExportTakeover.HandlerDoesNotHoldTheRow | core-api/app/services/export_jobs.py:192-211 | a reachable state with a failure handler and a new worker on one row, after a commit that took effect and was reported as failed |
| ExportJobs.Exports.RequestAdhocExport | core-api/app/services/export_jobs.py:117-157 | which request is refused and why, in the order of the gates; refused changes nothing, accepted queues the row and keeps its file |
| ExportJobs.Exports.RecordFailedAttempt | core-api/app/services/export_jobs.py:93-103 | done if a file is left, failed if not; key and size stay |
| ExportJobs.Exports.HandleFailure | core-api/app/services/export_jobs.py:199-211 | returns if the row is gone; else removes a new file the row does not name, if it can, and notes the failure |
| ExportJobs.Exports.RunExportJob | core-api/app/services/export_jobs.py:160-216 | row and bucket after a run, for an error at any step, a mark, upload or commit that takes effect and is reported as failed, a deletion that fails, and a row gone at the re-read; every row still names a stored file of its size |
| ExportJobs.AfterConsistent | core-api/app/services/export_jobs.py:182-211 | for each of these, no two rows share a slot or file, and every file a row names is stored with the size it says |
| ExportJobs.RunSays | core-api/app/services/export_jobs.py:160-216 | row and bucket after each error, spelled out: the new file in the old one's place, or the file there was, still stored, with the new one left only if nobody knew it or could delete it |
| ExportJobs.Exports.DeleteExport | core-api/app/routers/tenant_portal.py:1780-1796 | the row goes, and its file if the storage lets it, and nothing else; not found changes nothing |
| ExportAlone.AloneIsAProtocolRun | core-api/app/services/export_jobs.py:160-216 | for each of these errors the sequential worker's table and bucket are those of a run of the protocol that nothing but that deletion interrupts |
| ExportSchedule.PeriodsTile | core-api/app/services/export_scheduler.py:47-112 | over any polls (cut anywhere), edits, outages and generations, each advancing attempt starts where the previous ended and is at least its interval long |
| ExportSchedule.EveryMomentOnce | core-api/app/services/export_scheduler.py:55-57 | every moment up to the last run lies in exactly one period |
| ExportSchedule.TurnSays | core-api/app/services/export_scheduler.py:47-112 | a turn spelled out at every cut: nothing for a schedule that is disabled or ran less than a day, a week or thirty days ago; else the row takes the period from the last run to now and keeps its file, and the schedule moves on unless the estimate failed |
| ExportSchedule.AcceptedIff | core-api/app/services/export_scheduler.py:47-82 | accepted exactly when enabled, never run or a whole interval ago, and within the limit |
| ExportSchedule.FailedEstimateLosesNoTimeIff | core-api/app/services/export_scheduler.py:55-94 | failed size estimates, however many in a row, advance nothing; the poll after them starts its period where one before them would have exactly when the schedule has run before |
| ExportSchedule.FirstPeriodSlides | core-api/app/services/export_scheduler.py:55-57 | a moment that the first period would have begun with and that after an outage is in none |
| ExportSchedule.PollIsTurns | core-api/app/services/export_scheduler.py:46-112 | what a poll leaves of each tenant is that tenant's own turn, cut somewhere or nowhere: the polls that PeriodsTile speaks of |
| ExportSchedule.PollTiles | core-api/app/services/export_scheduler.py:46-112 | so a poll, cut anywhere, keeps the periods of all tenants tiled |
| ExportSchedule.Scheduler.TakeOneTurn | core-api/app/services/export_scheduler.py:47-112 | one schedule's turn with its two commits, at every cut |
| ExportSchedule.Scheduler.RunDuePeriodicExports | core-api/app/services/export_scheduler.py:36-115 | a poll is all turns in order, is cut exactly when it needs more commits than take effect, and keeps all periods tiled; uncut it hands on exactly the accepted tenants, each with its row queued for the period of its last attempt; cut it hands on none |
| ExportSchedule.Scheduler.UpdateSchedule | core-api/app/routers/tenant_portal.py:1846-1857 | an edit changes frequency and switch and never the last run, and keeps all periods tiled |
| TtlCache.EveryAnswerIsTruthful | core-api/app/services/device_access.py:18-42 | in any interleaving a cached answer was the database's less than its lifetime before the caller's clock reading (30 s, 5 s, 10 s), a read answer was the database's during the lookup, a failed read turns away |
| TtlCache.CachedAnswersAreYoung | core-api/app/services/device_access.py:10-12 | in seconds: a registered device is served from the cache on an answer less than 30 seconds old, an unregistered one on less than 5, a session on less than 10, an invalid session never |
| TtlCache.RunSound | core-api/app/services/tenant_session.py:47-60 | every cache entry, at all times, holds an answer the database gave after expiry minus lifetime: failed reads and invalid sessions are never cached |
| TtlCache.ForgetIsImmediateIff | core-api/app/services/device_access.py:45-47 | after a forget only the present answer is served from the cache exactly when no running lookup holds another that it will store alive |
| TtlCache.ThreatComesTrue | core-api/app/services/tenant_session.py:54-60 | each such lookup does lead to an old answer served after the forget |
| TtlCache.ServedForItsSeconds | core-api/app/services/device_access.py:24-42 | after one lookup a later one is served its answer exactly until those seconds are over, then reads anew; a failed read stores nothing and turns away |
| TtlCache.AccessCache.IsDeviceRegistered | core-api/app/services/device_access.py:18-42 | alone it behaves as one uninterrupted run of the protocol; a malformed tenant or failed read is refused |
| TtlCache.AccessCache.ForgetDevice | core-api/app/services/device_access.py:45-47 | afterwards the cache answers nothing for that device at any reading, and for every other key what it answered before |
| TtlCache.AccessCache.CurrentState | core-api/app/services/tenant_session.py:47-60 | alone it behaves as one uninterrupted run of the protocol, with the session lifetime |
| TtlCache.AccessCache.ForgetSession | core-api/app/services/tenant_session.py:69-71 | the same for a session |
| TtlCache.AccessCache.RevalidateSession | core-api/app/services/tenant_session.py:74-88 | accepted exactly with a valid session and the current fingerprint, and then with the current role |
| TokenBlocklist.AcceptedOnce | core-api/app/routers/auth.py:95-126 | over any sequential run with evictions, outages, logouts and restarts after a stored revocation, a token whose lookup precedes its expiry ("exp", section 4.1.4 of RFC 7519) is accepted at most once per "jti" (section 4.1.7) |
| TokenBlocklist.RefusedAfterLogout | core-api/app/routers/auth.py:129-138 | over the same runs a token that was logged out with is never accepted again before its expiry |
| TokenBlocklist.RefreshAcceptedIff | core-api/app/routers/auth.py:95-126 | a refresh is accepted exactly when the token has not expired, the user is good, the table answers, and neither cache nor table holds an unexpired revocation |
| TokenBlocklist.UsedUpForItsLife | core-api/app/routers/auth.py:113-138 | accepting a refresh and logging out both revoke for what is left of the token's life; a refused refresh only asks, an expired token changes nothing |
| TokenBlocklist.RevokeSays | core-api/app/services/token_blocklist.py:22-51 | entry by entry: the identifier in the cache for its time, in the table if it can be written and has no row of it; what has run out goes |
| TokenBlocklist.AskSays | core-api/app/services/token_blocklist.py:54-70 | entry by entry: asking changes the cache alone, and a hit in the table is kept for sixty seconds |
| TokenBlocklist.StaysBlocked | core-api/app/services/token_blocklist.py:42-51 | a token used, or logged out with, stays blocked in the cache or the table until its expiry |
| TokenBlocklist.AcceptedAgainIff | core-api/app/routers/auth.py:97-103 | for any expiry and clock readings, a verified second refresh is accepted exactly when the expiry falls before its lookup |
| TokenBlocklist.AcceptedAfterRestartIff | core-api/app/services/token_blocklist.py:47-51 | after a restart the used token is accepted exactly when its revocation was not stored |
| TokenBlocklist.Blocklist.Evict | core-api/app/services/token_blocklist.py:16-19 | the loop removes exactly the entries whose expiry has come |
| TokenBlocklist.Blocklist.Store | core-api/app/services/token_blocklist.py:22-30 | keeps an existing row, adds a missing one, sweeps expired ones |
| TokenBlocklist.Blocklist.RevokeJti | core-api/app/services/token_blocklist.py:42-51 | the cache always, the table when it can be written |
| TokenBlocklist.Blocklist.IsRevoked | core-api/app/services/token_blocklist.py:54-70 | cache, then table; an unreachable table means revoked; a hit is cached for a minute |
| TokenBlocklist.Blocklist.RefreshTokens | core-api/app/routers/auth.py:95-126 | the refresh the runs are about: verify, ask, check the user, revoke what was used |
| TokenBlocklist.Blocklist.LogOut | core-api/app/routers/auth.py:129-138 | a verified token is revoked for the rest of its life |
| Windows.DropOldIsFilterIff | core-api/app/services/alert_test_notify.py:37-38 | dropping from the front is filtering exactly when no old entry stands behind a newer one |
| SendLimiter.DequeIsTheWindowIff | core-api/app/services/alert_test_notify.py:33-42 | for readings in any order: exactly when the deque shows the window of the full log |
| SendLimiter.DequeRefinesTheLog | core-api/app/services/alert_test_notify.py:33-42 | with readings in order the deque decides as the full log would |
| SendLimiter.AtMostFiveInAnyMinute | core-api/app/services/alert_test_notify.py:21-42 | counted by the moments the lock is held: when accepted callers wait at most D after reading the clock, no 60 - D seconds hold more than five sends |
| SendLimiter.SafeLengthIff | core-api/app/services/alert_test_notify.py:34-42 | and for every D exactly the lengths of time up to 60 - D never hold more than five |
| SendLimiter.TestSends.CheckRateLimit | core-api/app/services/alert_test_notify.py:33-42 | the request joins the sends exactly when it is allowed, and it is allowed exactly when the full log holds fewer than five sends of the last sixty seconds, as long as the deque shows that window |
| FailureLimiter.KeptIsEnoughIff | core-api/app/services/rate_limiter.py:12-33 | for readings in any order: the pruned list shows the window of the history exactly when no failure in it was pruned by a later entry's reading, and never more than it |
| FailureLimiter.InOrderLosesNothing | core-api/app/services/rate_limiter.py:12-28 | with readings up to the present one, nothing is |
| FailureLimiter.LateReadingForgetsAFailure | core-api/app/services/rate_limiter.py:17-28 | a history and a reading for which the list is empty and the window is not |
| FailureLimiter.LoginFailures.Evict | core-api/app/services/rate_limiter.py:12-14 | keeps exactly the entries of the window, in order |
| FailureLimiter.LoginFailures.IsRateLimited | core-api/app/services/rate_limiter.py:17-21 | limited only when five or more failures since the last clear fall in the last 900 seconds, and exactly then unless one of them was pruned early |
| FailureLimiter.LoginFailures.RecordFailure | core-api/app/services/rate_limiter.py:24-28 | adds one failure to the history the list stands for |
| FailureLimiter.LoginFailures.ClearFailures | core-api/app/services/rate_limiter.py:31-33 | forgets the history of that key alone |
| Evaluator.CheckTrigger | alert-service/app/evaluator.py:77-115 | triggers exactly when the newest readings the mode asks for are there and all cross; the combined mode exactly when both do |
| Evaluator.CrossesIff | alert-service/app/evaluator.py:66-75 | strictly above, strictly below, or less than a billionth away; never without a threshold or for an unknown condition |
| Evaluator.TriggeredIff | alert-service/app/evaluator.py:86-115 | in plain terms for each mode: which of the newest readings must be there and cross |
| Evaluator.Streak | alert-service/app/evaluator.py:92-99 | the count reaches n exactly when the newest n readings all cross |
| Evaluator.Needed | alert-service/app/evaluator.py:102 | the number of full minutes in the duration, and one if there is none |
| Evaluator.EvaluateRule | alert-service/app/evaluator.py:146-154 | fires exactly when some device triggers, with the newest reading of the first that does |
| AlertRuns.EveryRunIsSound | alert-service/app/scheduler.py:92-156 | in every reachable state, cut or not: at most one unresolved event a rule and device, and events open and resolve strictly in turn |
| AlertRuns.TurnSound | alert-service/app/scheduler.py:108-128 | every turn cut anywhere keeps that |
| AlertRuns.TurnSays | alert-service/app/scheduler.py:108-156 | a turn spelled out at every cut: which event is added or resolved, when it is told of, and when it is marked as told |
| AlertRuns.TurnsFollow | alert-service/app/scheduler.py:92-156 | turns are taken one after the other until one is cut |
| AlertRuns.JudgesTheRule | alert-service/app/scheduler.py:95-106 | the pass over the readings judges each rule once, but none about offline devices |
| AlertRuns.ReadingsPassFollows | alert-service/app/scheduler.py:95-96 | and in the order of the rules |
| AlertRuns.WatchesTheDevice | alert-service/app/scheduler.py:139-148 | a silent device raises an alert of exactly the offline rules that name it or none, and whose group, if any, it is in |
| AlertRuns.WatchersFollow | alert-service/app/scheduler.py:139 | in the order of the rules |
| AlertRuns.NotesTheDevice | alert-service/app/scheduler.py:136-139 | a silent device is noted as offline first |
| AlertRuns.SilencePassFollows | alert-service/app/scheduler.py:136-138 | one device after the other |
| AlertRuns.ChangeIsToldIff | alert-service/app/scheduler.py:119-137 | a turn leaves a change without its notification exactly when it is cut between the two |
| AlertRuns.TurnsTellIff | alert-service/app/scheduler.py:92-128 | the same of all turns of a cycle, and a cycle that loses a notification ends there |
| AlertRuns.EverythingIsToldIff | alert-service/app/scheduler.py:92-156 | over any run, what was sent is what changed, in its order, exactly when no cycle was cut between a change and its notification |
| AlertRuns.NotificationsAlternate | alert-service/app/scheduler.py:92-156 | while no cycle is cut there - other cuts do no harm - the notifications about a rule and a device alternate alert, resolved, alert |
| AlertRuns.CutAlertIsLost | alert-service/app/scheduler.py:111-119 | a cut after the event commit loses the alert, and "resolved" is the first to be sent |
| AlertRuns.OfflineAlertsComeOnce | alert-service/app/scheduler.py:130-156 | an offline rule notifies about a device at most once over any run |
| AlertNotices.AgreementIff | alert-service/app/scheduler.py:14-57 | memory and database agree after a notification exactly when the result was written or nothing new; on the time of the last admin mail they always agree |
| AlertNotices.NotifySays | alert-service/app/scheduler.py:26-57 | a notification is sent; a mail goes to the admins exactly when Slack failed, was not known to fail, the last mail is none or 3600 seconds old and somebody can be reached; channels tried have their new result in memory, and in the database if written, others their old one |
| AlertNotices.WrittenRunsAgree | alert-service/app/scheduler.py:44-57 | while the results are written, memory and database agree on every rule's status in every reachable state |
| AlertNotices.NoticesAnHourApart | alert-service/app/failure_notice.py:68-71 | over any run, failing writes and clocks going back included, an admin mail comes at least an hour after every earlier recorded one for the rule |
| AlertNotices.OneMailPerStretch | alert-service/app/failure_notice.py:63-72 | through a stretch without a Slack success and with results written: one admin mail exactly when Slack was not known to fail and its first failure in the stretch finds the last mail an hour old and somebody to reach, otherwise none |
| AlertNotices.Wanted | alert-service/app/failure_notice.py:30-41 | exactly the deliverable normal forms, each once |
| AlertNotices.FilterDeliverable | alert-service/app/failure_notice.py:30-44 | the loop returns the first ten of them in order |
| AlertEngine.Engine.GetUnresolvedEvent | alert-service/app/db.py:34-48 | the latest unresolved event of the pair, none exactly when there is none |
| AlertEngine.Engine.CreateAlertEvent | alert-service/app/db.py:50-64 | adds one unresolved event |
| AlertEngine.Engine.ResolveAlertEvent | alert-service/app/db.py:66-77 | resolves that event alone |
| AlertEngine.Engine.RecordNotifyStatus | alert-service/app/db.py:133-158 | overwrites the channels that were tried and no other |
| AlertEngine.Engine.RecordAdminNotice | alert-service/app/db.py:185-201 | the time is set, both channels keep their results, and no other rule changes |
| AlertEngine.Engine.MergeLocalStatus | alert-service/app/scheduler.py:14-23 | the same merges in memory |
| AlertEngine.Engine.NotifyAdminsOfFailure | alert-service/app/scheduler.py:26-41 | mails exactly when Slack has just turned to failing outside the cooldown and someone can be reached; recorded in both places or neither |
| AlertEngine.Engine.NotifyAndRecord | alert-service/app/scheduler.py:44-57 | send, record, merge, tell the admins, in this order and past failing writes |
| AlertEngine.Engine.JudgeRule | alert-service/app/scheduler.py:108-128 | one rule's turn, at every cut |
| AlertEngine.Engine.EvaluateTenant | alert-service/app/scheduler.py:92-128 | the loop over the rules is the cycle the runs are about, at every cut |
| AlertEngine.Engine.CheckDeadDevices | alert-service/app/scheduler.py:130-156 | likewise for the loops over devices and offline rules |
| Chunking.GroupParagraphs | core-api/app/services/doc_chunking.py:61-71 | the buffer loop yields the texts of the greedy groups |
| Chunking.ParagraphsKeepTheirOrder | core-api/app/services/doc_chunking.py:61-71 | the groups together are the paragraphs, all of them, in order |
| Chunking.NothingIsLost | core-api/app/services/doc_chunking.py:70-71 | what the parts leave out is empty paragraphs at the end at most |
| Chunking.PartsAreReasonable | core-api/app/services/doc_chunking.py:64-69 | a part over 1200 characters is a single paragraph |
| Chunking.PartsAreFull | core-api/app/services/doc_chunking.py:64-67 | a part is closed only when the next paragraph would take it over 1200 characters |
| Chunking.PartsFitIff | core-api/app/services/doc_chunking.py:64-69 | every part is within 1200 exactly when every paragraph is |
| Chunking.FewestParts | core-api/app/services/doc_chunking.py:61-71 | no grouping of neighbouring paragraphs into parts within the limit has fewer parts |
| Chunking.SlicesMakeContent | core-api/app/services/doc_chunking.py:72-73 | the slices join to the content, each within 1200, all full but the last |
| Chunking.Slice | core-api/app/services/doc_chunking.py:72-73 | stepping by 1200 yields these slices |
| Chunking.OversizedIsSplit | core-api/app/services/doc_chunking.py:72-75 | an oversized text gives two parts or more, all within the limit unless in paragraph mode a paragraph is over it |
| Chunking.PiecesFit | core-api/app/services/doc_chunking.py:56-80 | no piece is over the limit unless the text is cut at blank lines and a paragraph is over it |
| Chunking.PiecesHoldTheContent | core-api/app/services/doc_chunking.py:55-80 | a chunk within 1200 characters is passed on; a longer one becomes two pieces or more, which are its parts in order, stripped of blanks at the ends and numbered (i/n) under its heading |
| Chunking.StripSays | core-api/app/services/doc_chunking.py:80 | stripping takes blanks off both ends and nothing else, and leaves none there |
| Chunking.TextSays | core-api/app/services/doc_chunking.py:68-69 | a part is its paragraphs joined by blank lines |
| Chunking.PiecesFollow | core-api/app/services/doc_chunking.py:54-81 | the pieces of one chunk come before those of the next |
| Chunking.SplitChunk | core-api/app/services/doc_chunking.py:56-80 | a chunk that fits is passed on; otherwise its stripped parts, numbered under its heading |
| Chunking.SplitOversized | core-api/app/services/doc_chunking.py:51-81 | the pieces of all chunks in order |

## Left out

- HTTP, SMTP, Slack, the object store, InfluxDB, SQL and thread start-up: their answers and failures are inputs.
- The batch's loop over tenants: one tenant is modelled; tenants share no rows, and an error in one does not stop the others.
- Operations of one tenant's ledger running at the same time: batches and corrections follow one another.
- Which items are counted and how: usage aggregation is eleven arbitrary numbers under the eleven fixed keys.
- Calendar.Parse: does not accept the signs, blanks and underscores that Python's int() takes.
- Seeding a new tenant's default prices, which sets prices of the current month and is not a change.
- LedgerStore.Store.GetInvoiceDetailAggregated: does not state when corrections were applied, nor the order among lines of keys outside the eleven, which nothing writes.
- Audit rows, error messages, finalized_at and completed_at stamps, device and group filters of an export.
- The poll's own commits on a periodic row, which it makes without asking for the lock (export_scheduler.py:65-106): the export protocol has requests, workers and portal deletions as steps, and no polls.
- A periodic generation runs after the poll; that its file is lost when the process dies between the two is not modelled, only the periods are.
- ExportJobs.Exports.RunExportJob: a worker that is killed is a step of the protocol and not of the sequential method.
- Tenant teardown, which removes objects before rows on purpose.
- TtlCache: lower-casing of identifiers and the UUID pattern are one boolean; the hash behind the fingerprint is an arbitrary text.
- TokenBlocklist.AcceptedOnce: refreshes run one after another; two at the same time can both pass the check, since nothing joins the check to the revocation. The wall, monotonic and database clocks are one time line.
- AlertNotices: error texts and the "at" of a channel result; the address pattern and reserved domains are an arbitrary predicate; a recorded time reads back as it was written.
- AlertNotices.NoticesAnHourApart: speaks of mails whose time was recorded; a mail whose record fails is followed by another when Slack next turns to failing.
- AlertEngine.Engine.CheckDeadDevices: the group resolver with its memo is a function, empty where the lookup failed.
- Evaluator.EvaluateRule: which devices a rule is about (one, a group, all) and the query for their readings; it starts from the readings.
- Floating-point rounding in the evaluator and the clocks: values are reals.
- Splitting Markdown and HTML into sections, and the pattern that finds blank lines.
- Trials, sign-up, SIM binding, provisioning counters and the user interfaces, which are one-step guards.
