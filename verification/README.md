# Verification of the task marketplace backend

A Dafny model of the parts of the backend in which steps interact: money movement, dispatch, and four smaller
cores. Values, tables and protocols are datatypes with functions and lemmas; services that update rows and
objects step by step are classes whose methods are proved against those functions. `dafny verify dfyconfig.toml`
checks everything.

**Durable transfers.** `TransferRow` is one row and its legal changes. `TransferProtocol` is the running system as
atomic events: jobs that claim under the row lock and keep their own copy of the row, calls to a provider that
honours each idempotency key once, marks, audit records, crashes at any point, both scans, webhooks and time. Every
sequence of events is a run. `TransferSafety`, `TransferProgress`, `TransferLog` and `TransferAudit` prove what holds
over all runs, and `TransferHistory` that rows, workers and records say what the events said.
`TransferTasks` covers the background jobs, and `TransferRefinement` shows that the serial service calls are runs of
the protocol.

**Payments.** `PaymentStore` gives, for each service call, the tables it leaves behind, and `PaymentServices` is the
code that does it; `PaymentTables` says what that is for each row, in terms of the message and the rows found.
`Settlement`, `DebtLedger`, `PaidInFull` and `ProviderIds` prove properties of all runs of serial calls, cut off by
crashes between their commits; `TornTransfers` says what that means for marks and `PayoutAccounts` for payouts. `ChargeDedup`
is about repeated webhooks, `WebhookRace` about interleaved ones at the granularity of the database locks, and
`BookingRace` about those that take no lock: debt payments, and charges for a task without a payout row.

**Dispatch.** `DispatchStore`, `DispatchServices` and `DispatchTables` are organised in the same way; `DispatchSafety`,
`DispatchQuiet`, `DutyHistory`, `FormerWinner` and `RetryEngine` prove what holds over all runs, and `DispatchRuns`
gives the runs that fail. `Matching` and `MatchingServices` rank candidates and cut them into batches, and
`EngineRace` is the race of engine runs for a session's version, with lock, commit and rollback.

**Smaller cores.** Administrator hierarchy (`AdminStore`, `AdminServices`, `AdminSafety`, `AdminTables`), prices
(`Rounding`, `Pricing`, and `PriceFields` on the fields of a breakdown), server-sent events (`SseStream`,
`SseRegistry`, `SseManager`) and one-time codes (`OtpStore`, `OtpService`, `OtpBudget`, `OtpVerdicts`).

## Reading the model

- Money is a whole number of kobo; rates and unrounded amounts are real numbers, rounded half to even. A missing
  amount and zero are the same where the code treats them alike.
- A missing id and an empty one are both `None` where the code tests only for truth.
- Clocks, jitter, provider answers, delivery results and what a search or scan returns are parameters. One clock
  reading serves a whole call, except in the OTP service, where time passes between the cache operations.
- `uuid4` is a counter that never repeats. A task has one payout, so a payout is named by its task.
- Really atomic actions may interleave in any way: the claim, the two compare-and-sets, the conditional UPDATE.
  Calls the code does not lock are single steps. A webhook or a scan does not touch a transfer that a live worker
  holds, and a live worker is done with a row before the row is ten minutes old.
- The tables are what is committed. Updates that a response makes last are committed by the notification of the
  customer or of the no-match report, or, like the version bump of a refused webhook, when the request's logger,
  which shares its database session, has entries to flush (`app/core/services/logger_service.py:23-40`, `159-167`): the parameter `flushed`.
  The credibility service commits what came before it.
- An enqueued job starts only after the call that enqueued it has returned.

## What turned out not to hold

- The audit log of a transfer is not always in order: a worker writes its record after the mark has released the
  row, so a later attempt can be logged first (`TransferLog.OvertakenRun`). `HastyClaimsBreakOrder` says exactly when.
- `app/core/models/transfers.py` says that every call to the provider creates an audit record; a crash between call
  and record leaves none (`TransferAudit.CallWithoutRecord`). `EveryCallIsLogged` says exactly when the log has no gap.
- A mark commits transfer, payout and task one after the other; a crash in between leaves a COMPLETED transfer
  unsettled (`TornTransfers.CrashTears`), and no scan looks at it again. `SettledUnlessTorn` says exactly when.
- Two different payments of one task can fire its payout twice, because the status that decides is loaded before the
  insert commits (`WebhookRace.TwoPaymentsFireTwice`). `FiresTwiceExactlyOnOverlap` says exactly when.
- A handler that crashes between booking a charge and moving the task on loses it: every redelivery is skipped as
  already booked (`WebhookRace.CrashLosesPayment`). `FiresUnlessLost` says exactly when.
- A payout commits its offset before its transfer. After a crash in between it can be called again, and the offset is
  taken for nothing (`PayoutAccounts.OffsetForNothing`). `PayoutAddsUp` says exactly when the accounts of a payout agree.
- A debt payment is booked under no lock, and no constraint keeps its reference unique: two deliveries can both be
  credited (`BookingRace.CreditedTwice`). `BookedTwiceExactlyOnOverlap` says exactly when.
- After a redispatch a task can go back to its former winner only (`FormerWinner.OnlyFormerWinner`), whoever else is
  pinged and accepts (`DispatchRuns.RedispatchInVain`).
- The version an engine run takes is rolled back when the run finds candidates, so a second run of the same version
  enqueues all batches again (`EngineRace.BothEnqueue`). `GoesOnUnlessCommitted` says exactly when.
- For a task without customer an acceptance may leave the session running and other pings pending
  (`DispatchRuns.LeftOpen`); a provider who declines may stay ON_DISPATCH. `QuietAfterAcceptance` and
  `ReleasedAfterDecline` say exactly when not.
- Nothing releases a provider whose ping was cancelled by the acceptance of another (`DutyHistory.LosersAreStranded`);
  in the model he stays ON_DISPATCH, and without pings, for good (`StrandedForGood`). `OnDispatchTells` says exactly
  who is ON_DISPATCH.
- After a FAILED transfer a second charge is booked and the payout reads TRANSFER_INITIATED, but no money moves
  (`DebtLedger.SecondChargeIsNotPaidOut`); `NetIsSentExactlyWhenNew` says exactly when it does.
- A no-match report does not look at the status of its task, so a late one can take an assigned task away
  (`DispatchRuns.LateReportUnassigns`). An engine job whose session is over reports no match, too. `AssignedUntil`
  says exactly when the task is lost.
- `docs/pricing_engine_guide.md` applies rules by specificity; the code applies them in query order
  (`Pricing.GeneralRuleMayWin`). `RulesCommute` says exactly when the order matters.
- `app/core/services/sse_manager.py` says that a connection is touched on each heartbeat; it is touched only when
  messages are handed out, so an idle one is stale after two minutes and goes with the next cleanup
  (`SseRegistry.QuietIsStale`).
- `docs/matching_engine_guide.md` describes five ranking factors and one batch a step; the model follows the code,
  with four factors and all batches queued at once.
- A demoted or deactivated administrator's open invitations stay valid (`AdminSafety.InvitationsOutliveAuthority`,
  `DemotedInviterStillAdmits`), and resending revokes an invitation even when the new one is refused (`AdminSafety.ResendAlwaysRevokes`).

## Model

| member | source | states |
|---|---|---|
| `TransferRow.EditsAreChanges` | app/features/payments/transfer_service.py:272-359 | each way the service changes a row follows the transition table, counts one version and keeps counters, timestamps and status in agreement |
| `TransferRow.BackoffSchedule` | app/features/payments/transfer_service.py:398-410 | the wait before jitter never falls from one attempt to the next and is capped; with jitter it lies between d and 1.2 d |
| `TransferRow.KeyInvertible` | app/features/payments/transfer_service.py:98-100 | the idempotency key determines the transfer, so no two transfers share one |
| `TransferSafety.RunKeeps` | app/features/payments/transfer_service.py:106-359 | the protocol invariant (rows, payments, workers, log) holds after every interleaving of jobs, crashes, scans and webhooks |
| `TransferSafety.AtMostOnePayment` | app/features/payments/transfer_service.py:78-220 | the provider pays each payout at most once, and then the amount of its only transfer |
| `TransferSafety.CompletedMeansPaid` | app/features/payments/transfer_service.py:283-309 | a COMPLETED transfer was paid, exactly once and in full |
| `TransferSafety.ClaimExclusive` | app/features/payments/transfer_service.py:119-149 | at most one worker is between claim and mark of a transfer, and its own copy equals the stored row |
| `TransferSafety.MarkNeverRejected` | app/features/payments/transfer_service.py:272-281 | the guard of the state machine never rejects the mark of a live worker, and the mark ends PROCESSING |
| `TransferSafety.CounterInvariant` | app/core/models/transfers.py:29-41 | after every run the version is twice the attempts, less one while PROCESSING; RETRYING has attempts left and a date; end timestamps are set exactly in their own end state; the key is the one derived from the id |
| `TransferSafety.StepEvolves` | app/features/payments/transfer_service.py:272-281 | one step leaves a row as it is or moves it once along the transition table |
| `TransferSafety.SettledForGood` | app/core/models/transfers.py:37-41 | COMPLETED and FAILED rows never change again, identity, amount and key of a row never change, and payments are never undone |
| `TransferSafety.StaleRowsAreNotHeld` | app/features/payments/celery/transfer_tasks.py:139-147 | a row old enough for the reconciliation scan is held by no live worker |
| `TransferProgress.VersionCountsChanges` | app/features/payments/transfer_service.py:279-281 | the version of a row is the number of status changes it went through |
| `TransferProgress.CallBudget` | app/features/payments/transfer_service.py:146-175 | provider calls never exceed attempts; a claim reserves one call and the call uses it up |
| `TransferProgress.TransferIsBounded` | app/core/models/transfers.py:101-104 | whatever is enqueued, a transfer changes status at most 20 times and is sent at most 10 times |
| `TransferProgress.TotalWaitBounded` | app/features/payments/transfer_service.py:311-331 | all retry delays of a transfer add up to at most 17820 seconds |
| `TransferProgress.MoneyConserved` | app/features/payments/transfer_service.py:161-175 | what the provider paid out is the sum of the amounts of the paid transfers |
| `TransferHistory.RowTells` | app/features/payments/transfer_service.py:78-359 | in every run a row is what the events said last: its status, provider id, failure code and dates are those of the latest answer, lookup or webhook, its attempts the claims so far, its last attempt the time of the last claim, and its payout, task, user, amount and key those it was created with |
| `TransferHistory.ProviderIdStays` | app/features/payments/transfer_service.py:283-292 | a transfer that was completed under a provider id keeps it over every continuation |
| `TransferHistory.WorkerIsAt` | app/features/payments/transfer_service.py:146-175 | in every run a worker holds the transfer it claimed last, the number of that claim and the answer it was given |
| `TransferHistory.RecordTells` | app/features/payments/transfer_service.py:376-396 | an audit record holds the transfer, the number of the claim and the answer its worker was given |
| `TransferHistory.OnlyRecordsLog` | app/features/payments/transfer_service.py:376-396 | nothing but the record of an attempt writes to the audit log |
| `TransferLog.LogNumbersUnique` | app/features/payments/transfer_service.py:376-396 | an attempt is logged at most once, under a number the row has reached |
| `TransferLog.HastyClaimsBreakOrder` | app/features/payments/transfer_service.py:119-220 | while every claim so far has waited, a further claim lets some continuation log out of order exactly when a worker still owes a record of that transfer |
| `TransferLog.PatientRunsAreOrdered` | app/features/payments/transfer_service.py:376-396 | as long as no job claims a transfer while a worker still owes its record, the log is in increasing order |
| `TransferLog.OvertakenRun` | app/features/payments/transfer_service.py:376-396 | a run in which attempt 2 is logged before attempt 1 |
| `TransferAudit.AttemptsAccountedFor` | app/core/models/transfers.py:180-186 | every attempt is in the log, in the hands of a worker, or was lost with a worker that died |
| `TransferAudit.CallsAccountedFor` | app/core/models/transfers.py:180-186 | every call to the provider is in the log, in the hands of its worker, or was lost with a worker that died before its record |
| `TransferAudit.EveryCallIsLogged` | app/core/models/transfers.py:180-186 | once nobody owes the record of a call, every call of the transfer is logged exactly when no worker died between its call and its record |
| `TransferAudit.CallWithoutRecord` | app/core/models/transfers.py:180-186 | a run in which a call pays and leaves no record |
| `TransferRefinement.AttemptRefines` | app/features/payments/transfer_service.py:119-220 | an uninterrupted process_transfer is a claim, a call, a mark and a record of the protocol |
| `TransferRefinement.CrashRefines` | app/features/payments/transfer_service.py:146-149 | a crash after the committed claim is a worker that starts and dies |
| `TransferRefinement.CutRefines` | app/features/payments/transfer_service.py:283-309 | a crash between or after the commits of a mark is a worker that dies before its record |
| `TransferRefinement.ReconcileRefines` | app/features/payments/transfer_service.py:222-268 | reconcile_transfer on a row the scan may pick is the protocol's reconciliation step |
| `TransferRefinement.CreateRefines` | app/features/payments/transfer_service.py:78-104 | create_transfer for a payout without one is the protocol's creation step |
| `TransferTasks.TransferJobs.ProcessTransferTask` | app/features/payments/celery/transfer_tasks.py:30-59 | one attempt; the transfer enqueues itself again exactly when it is left RETRYING with a date |
| `TransferTasks.TransferJobs.RecoverStuckTransfers` | app/features/payments/celery/transfer_tasks.py:98-102 | the loop enqueues one job for each scanned row, in order, and counts them |
| `TransferTasks.TransferJobs.ReconcileProcessingTransfers` | app/features/payments/celery/transfer_tasks.py:149-153 | the loop reconciles the scanned rows one after the other and counts them |
| `TransferTasks.CountdownCutsLessThanASecond` | app/features/payments/celery/transfer_tasks.py:45-57 | the truncated countdown starts the next attempt less than a second before its date and never after it |
| `TransferTasks.ScanReconcilesEachRow` | app/features/payments/celery/transfer_tasks.py:139-153 | the scan treats each row by what was said about that row alone and touches no other |
| `TransferTasks.NoTransferIsForgotten` | app/features/payments/celery/transfer_tasks.py:79-93 | an unfinished transfer is, from some time on, found by exactly one of the two scans; a finished one never |
| `TransferTasks.ScansTell` | app/features/payments/celery/transfer_tasks.py:79-147 | over every run the recovery scan finds a transfer exactly when it is new or its wait is over, and the reconciliation scan exactly when it was claimed over ten minutes ago and nothing was heard since |
| `TransferTasks.ScansMayAct` | app/features/payments/celery/transfer_tasks.py:79-153 | what a scan finds it may act on: a due row can be claimed, and a stale one is held by nobody |
| `PaymentServices.TransferRecord.SetStatus` | app/features/payments/transfer_service.py:272-281 | rejects a status the table does not allow and otherwise counts the change |
| `PaymentServices.TransferService.CreateTransfer` | app/features/payments/transfer_service.py:78-104 | returns the transfer the payout already has, or stores a new PENDING one under a fresh id |
| `PaymentServices.TransferService.ProcessTransfer` | app/features/payments/transfer_service.py:106-220 | one attempt leaves row, payout, task and log as specified; finished and foreign states are left alone |
| `PaymentServices.TransferService.MarkCompleted` | app/features/payments/transfer_service.py:283-309 | completes the row under the id given, then its payout, then its task |
| `PaymentServices.TransferService.MarkRetry` | app/features/payments/transfer_service.py:311-331 | schedules the next attempt, or fails the row when the attempts are used up |
| `PaymentServices.TransferService.MarkFailed` | app/features/payments/transfer_service.py:333-359 | fails the row and cancels payout and task unless they are settled |
| `PaymentServices.TransferService.ReconcileTransfer` | app/features/payments/transfer_service.py:222-268 | resolves a PROCESSING row by what the provider knows; other rows are left alone |
| `PaymentServices.PaymentService.SumDebts` | app/features/payments/payment_service.py:140-146 | the loop computes the sum of the provider's ledger entries |
| `PaymentServices.PaymentService.OffsetDebt` | app/features/payments/payment_service.py:147-182 | takes min(gross, positive debt) off the payout, with one ledger entry and one audit transaction |
| `PaymentServices.PaymentService.ProcessProviderPayout` | app/features/payments/payment_service.py:98-219 | offsets the debt, hands the rest to a transfer and marks payout and task, only for a payout the customer has paid |
| `PaymentServices.PaymentService.ProcessCashPayment` | app/features/payments/payment_service.py:229-260 | books the commission as debt and the payout as completed |
| `PaymentServices.PaymentService.ProcessOnlinePayment` | app/features/payments/payment_service.py:286-347 | requests the payment and queues a pending payout |
| `PaymentServices.PaymentService.GetProviderDebtSummary` | app/features/payments/payment_service.py:380-402 | reports the balance of the provider's ledger, at least zero, and the number of its entries |
| `PaymentServices.PaymentService.ReinitiatePayout` | app/features/payments/payment_service.py:518-590 | gives a pending payout of this customer a new reference, and refuses every other |
| `PaymentServices.PaymentWebhookProcessor.HandleChargeSuccess` | app/features/payments/processors.py:101-291 | books an acceptable charge once, settles a debt or moves the task on and triggers its payout; the bump of the payout's version is committed with the booking, on a refusal only by a log flush; a charge short of its task's price changes nothing |
| `PaymentServices.PaymentWebhookProcessor.HandleChargeFailed` | app/features/payments/processors.py:318-392 | books a failed charge once; the version bump is committed with the booking, on a repetition only by a log flush |
| `PaymentServices.TransferWebhookProcessor.HandleTransferSuccess` | app/features/payments/processors.py:495-649 | completes the matching transfer, or payout and task directly, and books the payout once; the version of one matching payout row is bumped when that is committed |
| `PaymentServices.TransferWebhookProcessor.HandleTransferFailed` | app/features/payments/processors.py:680-803 | fails the matching transfer, or cancels payout and task unless settled, and books the failure once; the version of one matching payout row is bumped when that is committed |
| `PaymentTables.AttemptTells` | app/features/payments/transfer_service.py:106-220 | what one attempt leaves in transfer, payout, task and audit log, by the answer it got: id and date of a success, code of a refusal, date and code of a retry, and the refusal that the last attempt turns a retry into |
| `PaymentTables.ReconcileTells` | app/features/payments/transfer_service.py:222-268 | the same for a reconciliation, by what the provider knows of a PROCESSING transfer; a provider that cannot be asked changes nothing |
| `PaymentTables.NoticeTells` | app/features/payments/processors.py:495-803 | a transfer webhook that is repeated, for nobody or too late changes nothing; otherwise it is entered as money that went out, and marks the transfer it finds or, without one to mark, the payouts and the task it is for |
| `PaymentTables.ChargeTells` | app/features/payments/processors.py:101-291 | a charge that is blank, on file, for no task or short of the price changes nothing; any other is booked, settles a debt or frees the task that waits for it, and pays out to the provider of task and payout |
| `PaymentTables.PayOutTells` | app/features/payments/payment_service.py:98-219 | a payout is made exactly when it is this provider's and the customer has paid: min(amount, positive debt) is kept, entered and audited, and a fresh transfer of the rest is enqueued unless the payout has one |
| `PaymentTables.LeftToSend` | app/features/payments/payment_service.py:136-188 | what a payout leaves to send: its amount, or the provider's share of the task where it has none, less what he owes, and nothing if he owes as much |
| `PaymentTables.CashTells` | app/features/payments/payment_service.py:229-260 | a task paid in cash owes its commission and has its payout recorded as made: the provider's share, or price less commission where there is none |
| `PaymentTables.OnlineTells` | app/features/payments/payment_service.py:286-347 | a task to be paid online is requested, with a pending payout of the provider's share under the reference |
| `PaymentTables.ReinitiateTells` | app/features/payments/payment_service.py:518-590 | only the reference of a pending payout of this customer, for a task with a price, is replaced |
| `PaymentTables.ChargeFailTells` | app/features/payments/processors.py:318-392 | a failed charge of a known user is entered once, and nothing else changes |
| `ProviderIds.ProviderIdTells` | app/features/payments/transfer_service.py:283-309 | over every run with crashes a transfer is COMPLETED exactly when an answer, a lookup or a webhook said so, and its provider id is the one that came with it |
| `ProviderIds.LaterNoticeFinds` | app/features/payments/processors.py:576-592 | however the run goes on, a transfer webhook that carries only that id finds the transfer |
| `ProviderIds.QueryTells` | app/features/payments/processors.py:576-592 | over every run the transfers a webhook may find are those completed under its reference, those whose key it is, and those of the task it names |
| `PaidInFull.UnderpaidIsRefused` | app/features/payments/processors.py:175-203 | a charge short of the price of its task changes nothing |
| `PaidInFull.PaidIsBooked` | app/features/payments/processors.py:175-215 | a charge that pays the price, under a reference that is written and not booked yet, is booked |
| `PaidInFull.PaidBeforePaidOut` | app/features/payments/processors.py:175-291 | over every run with crashes a payout reads CUSTOMER_PAID or TRANSFER_INITIATED, and a transfer exists, only if a successful payment of the task of at least its price is booked |
| `Settlement.RunKeeps` | app/features/payments/transfer_service.py:283-359 | transfers, payouts and tasks fit together after every run of serial calls, also when marks, payouts and charge webhooks are cut off between their commits |
| `TornTransfers.SettledUnlessTorn` | app/features/payments/transfer_service.py:283-309 | in every run a COMPLETED transfer has its payout COMPLETED, and its task PAID, exactly when no crash cut its completing mark off before that commit or a later transfer.success webhook has made up for it |
| `TornTransfers.CompletedMeansSettled` | app/features/payments/transfer_service.py:283-309 | without a crash between the commits of a mark every COMPLETED transfer has its payout COMPLETED and its task PAID |
| `TornTransfers.CrashTears` | app/features/payments/transfer_service.py:289-309 | a run whose crash leaves a COMPLETED transfer with its payout and task in TRANSFER_INITIATED |
| `TornTransfers.NoticeMends` | app/features/payments/processors.py:599-634 | the provider's webhook then settles both |
| `Settlement.SettledStatesAbsorb` | app/features/payments/processors.py:592-634 | COMPLETED transfers and payouts and PAID tasks are never left, however the run goes on and wherever it crashes |
| `DebtLedger.BalanceIsCommissionsLessPaid` | app/features/payments/payment_service.py:140-146 | a balance is commissions less debt payments less offsets |
| `DebtLedger.EntriesAreCounted` | app/features/payments/payment_service.py:386-394 | the number of entries in a summary is that of the provider's places in the ledger |
| `DebtLedger.PayoutSplits` | app/features/payments/payment_service.py:147-165 | gross = offset + net with offset = min(gross, positive debt); the ledger falls by the offset, not below zero, for this provider only |
| `DebtLedger.NetIsSentExactlyWhenNew` | app/features/payments/payment_service.py:188-219 | the net amount leaves as one fresh enqueued transfer exactly when there is nothing to send or the payout has no transfer yet |
| `DebtLedger.OffsetsWithinCommissions` | app/features/payments/payment_service.py:141-243 | over every run offsets never exceed commissions |
| `DebtLedger.SecondChargeIsNotPaidOut` | app/features/payments/processors.py:242-291 | a run in which a second charge after a FAILED transfer is booked and never paid out |
| `PayoutAccounts.PayoutAddsUp` | app/features/payments/payment_service.py:155-203 | over every run with crashes: all calls for a payout together take and send at least its amount, and exactly that exactly when no call was cut off between its offset and its transfer and none paid out a second time |
| `PayoutAccounts.StepAccounts` | app/features/payments/payment_service.py:98-219 | a call, whole or cut off, changes the offsets and the transfer of its own payout as specified; every other step changes neither of any payout |
| `PayoutAccounts.OffsetForNothing` | app/features/payments/routers/admin.py:208-223 | a run in which a crash after the offset and a second call take 15 off a payout of 85 and then send 85 |
| `ChargeDedup.DuplicatesAreHarmless` | app/features/payments/processors.py:160-173 | any list of serial charge webhooks has the effect of the list without repeats |
| `ChargeDedup.DedupKeepsEachOnce` | app/features/payments/processors.py:160-173 | the list without repeats has the same messages, each once |
| `ChargeDedup.DeliverExtends` | app/features/payments/processors.py:205-215 | a handled message only adds transactions and is spent afterwards |
| `WebhookRace.OncePerReference` | app/features/payments/processors.py:132-215 | however deliveries interleave and crash, a reference gets one SUCCESS transaction and fires one payout, after its commit |
| `WebhookRace.OnePaymentFiresOnce` | app/features/payments/processors.py:242-291 | when all deliveries are of one payment, the payout fires at most once |
| `WebhookRace.ApartFiresOnce` | app/features/payments/processors.py:175-291 | when no handler passes its check, finding the task unpaid, while another is about to fire, the payout fires once, and once more for each time the task is reopened |
| `WebhookRace.FiresTwiceExactlyOnOverlap` | app/features/payments/processors.py:175-291 | from a handler's check on the payout can fire twice, without any further overlap, exactly when this check is such an overlap |
| `WebhookRace.FiresUnlessLost` | app/features/payments/processors.py:160-291 | a booked payment that has not fired its payout can still do so exactly while a handler that found the task unpaid is about to, whatever is redelivered |
| `WebhookRace.CrashLosesPayment` | app/features/payments/processors.py:160-291 | a run whose crash leaves a payment booked and never to fire |
| `WebhookRace.TwoPaymentsFireTwice` | app/features/payments/processors.py:175-291 | a run in which two payments of one task fire its payout twice |
| `BookingRace.ApartBooksOnce` | app/features/payments/processors.py:132-216 | without a lock: when no handler passes its check while another of the same reference is between check and insert, a reference is booked once |
| `BookingRace.BookedTwiceExactlyOnOverlap` | app/features/payments/processors.py:132-216 | from a handler's check on a reference can be booked twice, without any further overlap, exactly when this check is such an overlap |
| `BookingRace.CreditedUnlessLost` | app/features/payments/processors.py:160-241 | a booked debt payment that is not in the ledger can still get there exactly while a handler of it is past its check |
| `BookingRace.CreditedTwice` | app/features/payments/processors.py:132-241 | a run in which two deliveries of one debt payment are each booked and credited |
| `DispatchPolicy.NextRetryDelay` | app/core/services/dispatch_policy.py:40-44 | the delay is always one of the five of the table |
| `DispatchServices.DispatchService.NextSequence` | app/features/tasks/dispatch_service.py:89-97 | one more than the highest sequence of the task's sessions |
| `DispatchServices.DispatchService.StartInitialDispatch` | app/features/tasks/dispatch_service.py:99-130 | opens the first session of a task that can be dispatched and marks it searching |
| `DispatchServices.DispatchService.AutoRetry` | app/features/tasks/dispatch_service.py:132-169 | opens and counts a retry, or gives the task up when none is left |
| `DispatchServices.DispatchService.ManualRedispatch` | app/features/tasks/dispatch_service.py:171-256 | frees the provider of an assigned task and opens a session, within the customer's limits |
| `DispatchServices.DispatchService.HandleNoMatch` | app/features/tasks/dispatch_service.py:258-292 | fails the session and schedules the retry, or gives the task up |
| `DispatchServices.DispatchService.HandleAutoExhaustion` | app/features/tasks/dispatch_service.py:294-330 | the task is exhausted and without a match |
| `DispatchServices.DispatchService.HandlePingResponse` | app/features/tasks/dispatch_service.py:332-390 | finds the provider's pending ping and accepts, declines or times it out, unless the task is taken; commits only what the code commits, and fails exactly when a query finds two rows |
| `DispatchServices.DispatchService.ProcessAcceptance` | app/features/tasks/dispatch_service.py:392-493 | task, assignment and duty after an acceptance; sessions and the other pings are closed exactly when a customer is notified or log entries are flushed |
| `DispatchServices.DispatchService.ProcessDeclineOrTimeout` | app/features/tasks/dispatch_service.py:495-531 | closes the ping and reports no match after the last one of a searching task; frees the provider only then or when log entries are flushed |
| `DispatchServices.CandidatePinger.RecoverStaleAttempts` | app/core/services/matching_engine.py:360-395 | expired pings of the task time out and their providers become available |
| `DispatchServices.CandidatePinger.PingCandidates` | app/core/services/matching_engine.py:490-551 | the conditional UPDATE wins exactly the available candidates; each gets the next number of the range |
| `DispatchServices.CandidatePinger.PingCandidate` | app/core/services/matching_engine.py:397-450 | a single ping is won exactly when the provider was available |
| `DispatchSafety.RunKeeps` | app/features/tasks/dispatch_service.py:99-557 | the dispatch invariant holds after every run of serial calls |
| `DispatchTables.PingTells` | app/features/tasks/dispatch_service.py:332-531 | in every step of the dispatch an open ping gets the status that its own response, its expiry or the acceptance of another gives it, and no other row changes |
| `DispatchTables.DutyTells` | app/features/tasks/dispatch_service.py:209-531 | in every step a provider's duty status changes by his own response, the expiry of his ping, a new ping or a redispatch of his task, and by nothing else |
| `DispatchTables.RefusalFreesOnly` | app/features/tasks/dispatch_service.py:508-516 | whatever the tables hold, a decline or timeout frees nobody but its provider, and him from ON_DISPATCH only |
| `DispatchTables.RecoveredAreFreed` | app/core/services/matching_engine.py:360-384 | the recovery of overdue pings makes available exactly the providers on dispatch who have one, and leaves every other |
| `DispatchTables.SessionTells` | app/features/tasks/dispatch_service.py:258-531 | in every step a session is failed or exhausted by a report, assigned with its task or counted up by the engine, and no other session changes |
| `DispatchTables.OpeningTells` | app/features/tasks/dispatch_service.py:99-256 | a start, a retry that is left and an allowed redispatch each add one running session of their kind for the task |
| `DispatchTables.TaskTells` | app/features/tasks/dispatch_service.py:99-531 | in every step a task changes as its own start, retry, redispatch, claim, acceptance or no-match report says, with the delay of the table, and by nothing else |
| `DispatchTables.AssignmentTells` | app/features/tasks/dispatch_service.py:209-442 | an assignment is made by the acceptance that wins, cancelled by the redispatch that takes the task away, and otherwise left |
| `DispatchTables.NewPingsTell` | app/core/services/matching_engine.py:490-551 | a batch pings exactly the available providers it names, with numbers from its start and the given duration |
| `DutyHistory.OnDispatchTells` | app/core/services/matching_engine.py:360-395 | in every run a provider is ON_DISPATCH exactly while he has an open ping, was so before, or had his last ping closed without a release that was committed |
| `DutyHistory.StrandedForGood` | app/features/tasks/dispatch_service.py:464-531 | who is ON_DISPATCH without an open ping stays so over every continuation |
| `DutyHistory.LosersAreStranded` | app/features/tasks/dispatch_service.py:464-472 | the providers whose pings an acceptance cancels are left ON_DISPATCH |
| `DispatchSafety.ProviderPingedOnce` | app/core/services/matching_engine.py:504-557 | a provider has at most one pending ping over all tasks, and is ON_DISPATCH while it has |
| `DispatchSafety.AssignmentIsConsistent` | app/features/tasks/dispatch_service.py:392-442 | task row, assignment, accepted ping and duty of an assigned task agree, and its provider has no other task |
| `DispatchSafety.SingleWinner` | app/features/tasks/dispatch_service.py:368-472 | all acceptances of a task come from one provider, redispatch included |
| `FormerWinner.OnlyFormerWinner` | app/features/tasks/dispatch_service.py:366-380 | once a task has been won and is not assigned, an acceptance goes through exactly when the former winner answers an open ping; anybody else's is ignored after one acceptance and raises an error after two |
| `FormerWinner.BackToFormerWinner` | app/features/tasks/dispatch_service.py:171-256 | such a task can be assigned again without a new ping of the former winner exactly when he still has an open one |
| `DispatchRuns.RedispatchInVain` | app/features/tasks/dispatch_service.py:372-380 | from any opening world: after k redispatches another provider is pinged and accepts in vain, with an error from the second redispatch on |
| `DispatchSafety.ResponseQueryFindsOne` | app/features/tasks/dispatch_service.py:347-360 | the query of a response never finds two rows |
| `DispatchSafety.AssignedUntil` | app/features/tasks/dispatch_service.py:209-304 | a task stays assigned exactly until it is redispatched or a no-match report, of a caller or of an engine job, finds its retries used up |
| `DispatchQuiet.QuietAfterAcceptance` | app/features/tasks/dispatch_service.py:444-492 | after an acceptance no ping is pending and no session running exactly when the closing updates were committed or there was nothing to close |
| `DispatchQuiet.ReleasedAfterDecline` | app/features/tasks/dispatch_service.py:508-531 | a provider who declines or times out is available again exactly when his ping was the last of a searching task or log entries were flushed |
| `DispatchQuiet.CustomerTasksAreQuiet` | app/features/tasks/dispatch_service.py:444-492 | in every run an assigned task that has a customer has no pending ping and no running session |
| `DispatchQuiet.CommittedIsQuiet` | app/features/tasks/dispatch_service.py:444-492 | without a customer the same holds as long as the acceptance was committed to the end |
| `DispatchRuns.LeftOpen` | app/features/tasks/dispatch_service.py:444-474 | from any opening world with a task without customer: a run that leaves it assigned with a pending ping and a running session |
| `DispatchRuns.LateReportUnassigns` | app/features/tasks/dispatch_service.py:258-304 | from any opening world: a run of five retries, a ping, an acceptance and a late report that takes the task away |
| `RetryEngine.SessionsNumberedAndBounded` | app/features/tasks/dispatch_service.py:89-169 | a task's sessions are numbered 1..n, and its automatic ones are its retry count, at most 5 |
| `RetryEngine.CounterCountsRetries` | app/features/tasks/dispatch_service.py:132-169 | over every run in which the task is not started, redispatched or accepted, its counter is the number of retries, capped at 5 |
| `RetryEngine.GivenUpExactly` | app/features/tasks/dispatch_service.py:132-304 | over every such run the task is given up exactly once a retry or a no-match report has found its five retries used up, and stays so |
| `RetryEngine.SixthRetryGivesUp` | app/features/tasks/dispatch_service.py:132-145 | over every such run the sixth retry at the latest gives the task up |
| `RetryEngine.WaitedFromTable` | app/core/services/dispatch_policy.py:24-44 | over every such run the delays of the retries that ran are at most their share of the table, and all of it when each followed a report |
| `RetryEngine.DelaysAreBounded` | app/core/services/dispatch_policy.py:24-44 | over every such run the delays of the retries that ran come to at most 4020 seconds |
| `RetryEngine.ExhaustedAfterFive` | app/core/services/dispatch_policy.py:24-44 | over every such run with five retries, each after a report, a fresh task has waited exactly 4020 seconds and the next retry or report gives it up |
| `Matching.ScoreMonotone` | app/core/services/matching_engine.py:310-336 | nobody scores lower for being better on some criteria and as good on the rest |
| `Matching.ScoreIsWeighted` | app/core/services/matching_engine.py:310-336 | the score is nearest to 0.3 acceptance + 5 rating + 0.25 credibility - 20 times the share of the radius, with the fallbacks of the code |
| `Matching.RatedInOrder` | app/core/services/matching_engine.py:308-337 | everybody with an id is scored under his id and distance, in the order given, and nobody else |
| `Matching.RankingSorts` | app/core/services/matching_engine.py:338 | the ranking has the same entries by falling score, equal scores in their old order |
| `Matching.StableSortIsUnique` | app/core/services/matching_engine.py:338 | those two properties leave only one possible ranking |
| `MatchingServices.ScoreCandidates` | app/core/services/matching_engine.py:297-344 | candidates without an id are passed over, the rest is scored and ranked |
| `MatchingServices.EnqueueBatches` | app/core/services/matching_engine.py:823-867 | batch k is the k-th slice of the ranking and knows its index, whether it is the last, its first number and its delay |
| `Matching.BatchTells` | app/core/services/matching_engine.py:823-867 | every batch but the last is full and none is empty, for the session's size, five without one; batch k waits k ping durations |
| `Matching.BatchesConcatenate` | app/core/services/matching_engine.py:832-835 | the batches, one after the other, are the ranking |
| `Matching.RangesPartition` | app/core/services/matching_engine.py:843-867 | every place 1..n lies in the number range of exactly one batch |
| `Matching.EarlierBatchScoresHigher` | app/core/services/matching_engine.py:832-835 | everybody in an earlier batch scores at least as high as anybody in a later one |
| `Matching.NumbersFollowRanking` | app/core/services/matching_engine.py:525-551 | whatever races are lost, attempt numbers follow the ranking strictly over all batches, and nobody's number exceeds his place |
| `MatchingServices.MatchingEngine.TakeVersion` | app/core/services/matching_engine.py:759-783 | the compare-and-set goes through exactly when the version is the one that was read; its update is not committed yet |
| `MatchingServices.MatchingEngine.Commit` | app/core/services/matching_engine.py:386-386 | commits the pending version |
| `MatchingServices.MatchingEngine.Run` | app/core/services/matching_engine.py:727-875 | what one uninterrupted run reports, commits, leaves uncommitted and enqueues, on every path |
| `MatchingServices.ExecuteMatchingEngine` | app/features/tasks/celery/dispatch.py:51-79 | the job: an unmatched run commits its version with the no-match report, a matched one loses it unless stale pings were recovered |
| `MatchingServices.RankedTells` | app/core/services/matching_engine.py:668-690 | the ranking holds every candidate with an id, scored within the radius of the session, or within 10 km without one |
| `MatchingServices.VerdictTells` | app/core/services/matching_engine.py:727-821 | a run matches exactly when its session runs for an existing task and somebody has an id, and otherwise says what is missing |
| `EngineRace.GoesOnUnlessCommitted` | app/core/services/matching_engine.py:759-783 | over all interleavings a run that has read a version can still go on exactly when no run that took this version has committed it |
| `EngineRace.SecondGoesOn` | app/core/services/matching_engine.py:759-783 | of two runs that read the same version the second can go on after the first exactly when the first recovered no stale ping, so that its version was rolled back |
| `EngineRace.OneCommitPerVersion` | app/core/services/matching_engine.py:759-783 | of the runs that went on with one version at most the last has committed it |
| `EngineRace.BothEnqueue` | app/features/tasks/celery/dispatch.py:58-79 | two runs of one version that both enqueue every batch |
| `AdminServices.AdminService.IsDescendant` | app/features/admin/admin_service.py:32-49 | true exactly when the ids are non-empty and differ and the ancestor is met after one or more parent steps, for any table, cyclic or dangling |
| `AdminServices.AdminService.CanManageAdmin` | app/features/admin/admin_service.py:51-65 | decides authority as defined |
| `AdminServices.AdminService.CanDemoteAdmin` | app/features/admin/admin_service.py:67-83 | decides the right to demote as defined |
| `AdminServices.AdminService.CreateInvitation` | app/features/admin/admin_service.py:100-165 | refuses in the source's order, or replaces the pending invitations for the address by a new one |
| `AdminServices.AdminService.ResendInvitation` | app/features/admin/admin_service.py:167-204 | revokes the old invitation even when the new one is refused |
| `AdminServices.AdminService.RevokeInvitation` | app/features/admin/admin_service.py:206-238 | revokes a pending invitation of the requester, or any for a root admin |
| `AdminServices.AdminService.AcceptInvitation` | app/features/admin/admin_service.py:240-295 | uses the oldest invitation with the token, marks it when overdue, and creates the account below the inviter |
| `AdminServices.AdminService.ChangeAdminRole` | app/features/admin/admin_service.py:351-389 | changes the role under authority, never to the root role |
| `AdminServices.AdminService.DeactivateAdmin` | app/features/admin/admin_service.py:391-425 | deactivates under authority |
| `AdminServices.AdminService.ReactivateAdmin` | app/features/admin/admin_service.py:427-455 | reactivates under authority |
| `AdminServices.AdminService.BootstrapRootAdmin` | app/cli/bootstrap_admin.py:12-45 | adds a root admin when none is active or when forced, unless the address is taken |
| `AdminSafety.RunKeeps` | app/features/admin/admin_service.py:240-455 | in every reachable state parents form a forest, addresses are unique and one invitation an address is open |
| `AdminSafety.AuthorityIsAsymmetric` | app/features/admin/admin_service.py:51-65 | in every reachable state authority is irreflexive and antisymmetric |
| `AdminSafety.AuthorityIsTransitive` | app/features/admin/admin_service.py:51-65 | in every reachable state authority is transitive |
| `AdminSafety.DemotersManage` | app/features/admin/admin_service.py:67-83 | in every reachable state whoever may demote may also manage |
| `AdminSafety.OneRootAbove` | app/features/admin/admin_service.py:269-283 | every account that is not a root admin has exactly one root admin above it |
| `AdminSafety.RootsAreFixed` | app/features/admin/admin_service.py:360-413 | no service call makes, changes or removes a root admin; the command line adds exactly one |
| `AdminSafety.OnlySuperiorsChange` | app/features/admin/admin_service.py:351-455 | an account changes only through somebody with authority over it, and keeps its parent |
| `AdminSafety.InvitationsOutliveAuthority` | app/features/admin/admin_service.py:351-455 | changing the role of the inviter, or deactivating him, leaves his open invitations as good as they were |
| `AdminSafety.DemotedInviterStillAdmits` | app/features/admin/admin_service.py:250-283 | a reachable state in which the invitation of a demoted inviter, who may invite nobody, makes an account below him |
| `AdminSafety.ResendAlwaysRevokes` | app/features/admin/admin_service.py:176-193 | resending ends the old invitation, and makes a new one exactly when the checks pass |
| `AdminSafety.TokenUsedOnce` | app/features/admin/admin_service.py:250-283 | once a token is accepted it is refused ever after, whatever happens in between |
| `AdminTables.InvitationTells` | app/features/admin/admin_service.py:100-295 | in every call an invitation ends by its revocation or resending, by a new offer to its address or by its token, in good time or too late; an offer adds one that is good for 48 hours, and no other row changes |
| `AdminTables.AccountTells` | app/features/admin/admin_service.py:240-455 | in every reachable state an account is added by the command line or by a token, below the inviter, changed in role or activity by somebody above it, and otherwise left; a super admin is put lower by a root admin or by the super admin above him only |
| `Rounding.RoundsToNearest` | app/features/services/pricing_engine.py:134-158 | round half to even is characterised: nearest, and even on a tie |
| `Pricing.CalculatePrice` | app/features/services/pricing_engine.py:65-171 | the branches and the loop over rules compute the specified breakdown; fee and payout add up to the total, and the fee is within half a kobo of its rate of it |
| `Pricing.LoadDefaults` | app/features/services/pricing_engine.py:65-97 | rates fall back from service to category to constants, treating zero as missing |
| `Pricing.ApplyRules` | app/features/services/pricing_engine.py:109-131 | the loop applies the selected rules in query order |
| `Pricing.SplitIsExact` | app/features/services/pricing_engine.py:154-158 | commission and payout add up to the price, to the kobo |
| `Pricing.SplitIsFair` | app/features/services/pricing_engine.py:154-158 | for a rate in [0,1] neither share is negative or exceeds the price |
| `Pricing.SplitIsMonotone` | app/features/services/pricing_engine.py:154-158 | a higher price lowers neither share |
| `Pricing.AdjustmentSplit` | app/features/tasks/task_service.py:703-714 | the shares of an adjusted price are within half a kobo of it, and add up exactly when it is whole |
| `Pricing.AdjustmentAgrees` | app/features/tasks/task_service.py:703-714 | a price of whole kobo is split alike by an adjustment and by the first calculation |
| `Pricing.ComponentsAddUp` | app/features/services/pricing_engine.py:133-165 | the displayed parts are within two kobo of the subtotal |
| `Pricing.TwoKoboMissing` | app/features/services/pricing_engine.py:133-165 | terms for which the difference is two kobo |
| `Pricing.FartherCostsMore` | app/features/services/pricing_engine.py:133-154 | more distance or complexity never lowers the total, for a rate per km that is not negative |
| `Pricing.DemandCostsMore` | app/features/services/pricing_engine.py:140-154 | more open tasks or fewer providers never lower the total, for a subtotal that is not negative |
| `Pricing.PriceIsNotNegative` | app/features/services/pricing_engine.py:65-171 | catalog and request amounts from zero give a subtotal and a total from zero |
| `Pricing.TierMonotone` | app/features/services/pricing_engine.py:143-151 | the demand tier grows with the ratio and stays within [1, 1.5] |
| `Pricing.UrgencyIsCharged` | app/features/services/pricing_engine.py:120-131 | exactly the urgent tasks carry a surcharge |
| `Pricing.RulesCommute` | app/features/services/pricing_engine.py:113-126 | two rules commute exactly unless they set the same rate to different values; complexity and surge always do |
| `Pricing.OrderDoesNotMatter` | app/features/services/pricing_engine.py:113-126 | without conflicting rules the query order does not matter |
| `Pricing.LastBaseRateWins` | app/features/services/pricing_engine.py:113-115 | the base price is that of the last rule the query returns that sets one |
| `Pricing.GeneralRuleMayWin` | app/features/services/pricing_engine.py:100-115 | a rule for every category replaces the one for this category when it is returned second |
| `PriceFields.SplitTells` | app/features/services/pricing_engine.py:153-171 | for every catalog and request: the platform's fee is nearest to the take rate of the total, fee and payout add up to the total, both lie within it for a rate in [0,1], and the total is nearest to the subtotal times the surge |
| `PriceFields.PartsTell` | app/features/services/pricing_engine.py:132-165 | distance and time are charged at the rates in force, to the nearest kobo, and the subtotal is nearest to the sum of the parts |
| `PriceFields.RatesTell` | app/features/services/pricing_engine.py:74-131 | every rate in force is that of the last rule that applies and sets it, or else of the service, the category or a constant; flat amounts add up and the largest multiplier counts |
| `PriceFields.AdjustmentTells` | app/features/tasks/task_service.py:703-714 | an adjusted price is never below zero, and the fee is nearest to the rate of it, or to 15 per cent without a rate |
| `SseStream.YieldedArePrefix` | app/core/services/sse_manager.py:201-225 | the yielded messages are a prefix of the pushed ones |
| `SseStream.NothingIsLost` | app/core/services/sse_manager.py:62-81 | until the generator ends, yielded, in hand and buffered are together what was pushed |
| `SseStream.NoLostWakeUp` | app/core/services/sse_manager.py:62-90 | a waiting generator can go on without a timeout exactly when something is buffered or the connection is closed |
| `SseStream.CatchesUp` | app/core/services/sse_manager.py:201-225 | left alone, the generator of an open connection yields everything pushed |
| `SseStream.ClosedYieldsOnlyInHand` | app/core/services/sse_manager.py:211-221 | after a close only the batch in hand may still be yielded |
| `SseRegistry.EntryIsTheLiveOne` | app/core/services/sse_manager.py:110-145 | a user's entry is his one connection that is neither closed nor ended |
| `SseRegistry.SuccessorStays` | app/core/services/sse_manager.py:131-145 | a superseded generator that ends never removes its successor |
| `SseRegistry.StaleTells` | app/core/services/sse_manager.py:251-256 | over every run a connection is stale exactly once it is closed or more than 120 seconds after its generator last took a batch |
| `SseRegistry.QuietIsStale` | app/core/services/sse_manager.py:211-225 | however often its generator waits, a connection that is sent nothing becomes stale |
| `SseManager.SSEConnection.Push` | app/core/services/sse_manager.py:62-65 | buffers the message and sets the event |
| `SseManager.SSEConnection.Receive` | app/core/services/sse_manager.py:67-81 | hands out and empties the buffer and clears the event, or times out and changes nothing |
| `SseManager.SSEConnection.Close` | app/core/services/sse_manager.py:87-90 | closes and sets the event |
| `SseManager.SSEManager.Connect` | app/core/services/sse_manager.py:110-129 | closes the user's connection and registers a fresh one |
| `SseManager.SSEManager.Disconnect` | app/core/services/sse_manager.py:131-145 | removes the entry only if it is still this connection |
| `SseManager.SSEManager.Send` | app/core/services/sse_manager.py:147-156 | pushes to the user's connection, if there is one |
| `SseManager.SSEManager.Broadcast` | app/core/services/sse_manager.py:158-161 | pushes once to every connection |
| `SseManager.SSEManager.EvictStale` | app/core/services/sse_manager.py:251-262 | closes and removes exactly the closed or idle connections |
| `SseManager.SSEManager.Shutdown` | app/core/services/sse_manager.py:281-290 | closes all connections and empties the registry |
| `OtpService.Cache.Lookup` | app/core/services/cache.py:36-48 | a key is found until it expires |
| `OtpService.OTPService.GenerateOtp` | app/core/services/otp.py:69-120 | refuses a bad channel or a running cooldown, otherwise writes code, counter and cooldown |
| `OtpService.OTPService.GenerateAndSend` | app/core/services/otp.py:160-189 | withdraws code, counter and cooldown when the code could not be sent |
| `OtpService.OTPService.VerifyOtp` | app/core/services/otp.py:191-265 | verdict and keys after one try, with time passing between the cache operations; only the stored code is accepted |
| `OtpStore.KeysAreDistinct` | app/core/services/otp.py:60-67 | no two of the three kinds of keys collide, and each determines its address |
| `OtpStore.AddressesAreDistinct` | app/core/services/otp.py:60-67 | valid channels and targets are kept apart |
| `OtpBudget.BudgetHolds` | app/core/services/otp.py:213-265 | of each code issued at most max_attempts tries are compared and at most one succeeds |
| `OtpBudget.LiveCodeHasCounter` | app/core/services/otp.py:106-114 | while a code is live its counter is live and holds the number of tries |
| `OtpBudget.UsedCodeIsGone` | app/core/services/otp.py:241-250 | a verified code is missing at every later try |
| `OtpBudget.CooldownSeparates` | app/core/services/otp.py:92-114 | two codes for an address are a cooldown apart, unless the first could not be delivered |
| `OtpVerdicts.VerdictTells` | app/core/services/otp.py:213-265 | over every run a code is accepted exactly when it is the one last delivered to the address, which is still good at the read and was tried fewer than max_attempts times; Missing exactly when no code is good; Exhausted exactly at the last try |
| `OtpVerdicts.SendingTells` | app/core/services/otp.py:69-120 | over every run a code is made exactly for e-mail or SMS outside the cooldown of the last delivered one |

## Left out

- Routers, dependency wiring, schemas, dashboards and field copying.
- PostgreSQL, PostGIS and Redis themselves: tables are maps and sequences, a query is a filter or a parameter.
- The payment gateway, beyond success, temporary error, permanent error and a lost reply, and beyond honouring each key once.
- Notifications, e-mail, SMS, WebSockets and the pub/sub listeners.
- Floating point: sums of floats are exact here, and rounding is of exact values.
- Several payouts of one task (one for each provider it was given to).
- Currency, failure reason, creation times, region, audit logs and other fields that are only stored.
- Calls that the code does not lock, interleaved with each other: responses, payouts and marks from outside are single steps.
- The limits of 100 and 50 rows of the two scans: what a scan returns is a parameter.
- Candidate search, exclusion of earlier providers and the task's location: what the search returns is a parameter.
- execute_batch_ping and the row limits of the dispatch scans; batches are pinged while their session runs.
- Crashes of a dispatch call between its own commits; those of marks, payouts and charge webhooks are modelled.
- Task cancellation, which also writes duty status; reviews, credibility, vetting, support cases, categories and services.
- A provider's own switch between duty states: only dispatch, responses and recovery change them here.
- Login, passwords, tokens and their hashes, multi-factor codes.
- Letters outside A to Z in lower-casing, and white space outside ASCII.
- Statistics of a customer's payouts, and the copying of a breakdown to a task.
- Cache failures: every cache operation of the OTP service succeeds.
- One generator for each SSE connection is assumed, as the endpoint has it.
