/** No payout is due, and no transfer exists, unless the customer has paid the whole price of the task. */
module PaidInFull {
  import opened Common
  import opened TransferRow
  import opened TransferProtocol
  import opened PaymentStore
  import opened Settlement

  /** A charge for a task that exists and is short of its price changes nothing. */
  lemma UnderpaidIsRefused(s: Store, d: Charge, now: Time)
    requires d.kind == ForTask && d.task.Some? && d.task.value in s.tasks && d.amount < s.tasks[d.task.value].price
    requires s.tasks[d.task.value].price > 0
    ensures ChargeSuccess(s, d, now) == s
  {
    hide AdvanceTask, Booked, Blank;
  }

  /** One that pays the price, under a reference that is written and new, is booked. */
  lemma PaidIsBooked(s: Store, d: Charge, now: Time)
    requires d.kind == ForTask && d.task.Some? && d.task.value in s.tasks && d.amount >= s.tasks[d.task.value].price
    requires exists i | 0 <= i < |d.reference| :: d.reference[i] !in {' ', '\t', '\n', '\r'}
    requires forall i | 0 <= i < |s.transactions| :: s.transactions[i].reference == Some(d.reference) ==> !s.transactions[i].succeeded
    ensures s.transactions + [Transaction(d.amount, TaskPayment, true, Some(d.reference), d.user, d.task)]
      <= ChargeSuccess(s, d, now).transactions
  {
    assert Accepted(s, d);
    AdvanceGrows(BookCharge(s, d), d.task.value, now);
    hide AdvanceTask, Accepted;
  }

  lemma PayoutGrows(s: Store, task: TaskId, provider: string, now: Time)
    ensures s.transactions <= ProcessPayout(s, task, provider, now).transactions
  {
    hide Balance, Gross, Net, OffsetOf;
  }

  lemma AdvanceGrows(s: Store, task: TaskId, now: Time)
    requires task in s.tasks
    ensures s.transactions <= AdvanceTask(s, task, now).transactions
  {
    hide ProcessPayout;
    if PayoutProvider(s.tasks[task]).Some? {
      PayoutGrows(MarkCustomerPaid(s, task), task, PayoutProvider(s.tasks[task]).value, now);
    }
  }

  // ── Due payouts ─────────────────────────────────────────────────────────

  predicate IsDue(payouts: map<TaskId, Payout>, k: TaskId) {
    k in payouts && (payouts[k].status == PayoutStatus.CustomerPaid || payouts[k].status == PayoutStatus.TransferInitiated)
  }

  /** Some successful payment of the task covers its price. */
  predicate IsFunded(s: Store, k: TaskId) {
    k in s.tasks && exists i | 0 <= i < |s.transactions| :: Funds(s.transactions[i], k, s.tasks[k].price)
  }

  predicate Funds(x: Transaction, k: TaskId, price: int) {
    x.succeeded && x.kind == TaskPayment && x.task == Some(k) && (price > 0 ==> x.amount >= price)
  }

  predicate AllFunded(s: Store) {
    && (forall k | k in s.payouts && IsDue(s.payouts, k) :: IsFunded(s, k))
    && (forall t | t in s.transfers :: IsFunded(s, s.transfers[t].taskId))
  }

  /** The books only grow, and a payout or a transfer is new only for a task that is funded. */
  predicate StaysFunded(s: Store, s': Store) {
    && s.transactions <= s'.transactions
    && (forall k | k in s'.payouts && IsDue(s'.payouts, k) :: IsDue(s.payouts, k) || IsFunded(s', k))
    && (forall t | t in s'.transfers ::
          (t in s.transfers && s'.transfers[t].taskId == s.transfers[t].taskId) || IsFunded(s', s'.transfers[t].taskId))
  }

  lemma FundedStays(s: Store, s': Store, k: TaskId)
    requires IsFunded(s, k) && s.transactions <= s'.transactions && Absorbs(s, s')
    ensures IsFunded(s', k)
  {
    var i :| 0 <= i < |s.transactions| && Funds(s.transactions[i], k, s.tasks[k].price);
    assert s'.transactions[i] == s.transactions[i];
  }

  lemma AllStayFunded(s: Store, s': Store)
    requires AllFunded(s) && StaysFunded(s, s') && Absorbs(s, s')
    ensures AllFunded(s')
  {
    forall k | k in s'.payouts && IsDue(s'.payouts, k) ensures IsFunded(s', k) {
      if IsDue(s.payouts, k) {
        FundedStays(s, s', k);
      }
    }
    forall t | t in s'.transfers ensures IsFunded(s', s'.transfers[t].taskId) {
      if t in s.transfers && s'.transfers[t].taskId == s.transfers[t].taskId {
        FundedStays(s, s', s.transfers[t].taskId);
      }
    }
    hide IsFunded, IsDue, Absorbs;
  }

  // ── Payouts and charges ─────────────────────────────────────────────────

  lemma StageFunded(s: Store, task: TaskId, provider: string, now: Time)
    requires Inv(s) && task in s.payouts && IsFunded(s, task)
    ensures var s' := TransferStage(s, task, provider, now);
      && s.transactions <= s'.transactions && s'.payouts == s.payouts && s'.tasks == s.tasks
      && forall t | t in s'.transfers :: (t in s.transfers && s'.transfers[t] == s.transfers[t]) || s'.transfers[t].taskId == task
  {
    hide Balance, Net, Gross, OffsetOf, Uuid, Inv;
  }

  lemma PayoutFunded(s: Store, task: TaskId, provider: string, now: Time)
    requires Inv(s) && (Payable(s, task, provider) ==> IsFunded(s, task))
    ensures StaysFunded(s, ProcessPayout(s, task, provider, now))
  {
    if Payable(s, task, provider) {
      StageFunded(s, task, provider, now);
      var s' := ProcessPayout(s, task, provider, now);
      PayoutKeeps(s, task, provider, now);
      FundedStays(s, s', task);
    }
    hide TransferStage, Inv, Gross, IsFunded, Absorbs;
  }

  lemma PayoutUpToFunded(s: Store, task: TaskId, provider: string, now: Time, stage: PayStage)
    requires Inv(s) && StopsAt(s, task, provider, stage) && IsFunded(s, task)
    ensures StaysFunded(s, PayoutUpTo(s, task, provider, now, stage))
  {
    StageFunded(s, task, provider, now);
    PayoutUpToKeeps(s, task, provider, now, stage);
    var s' := PayoutUpTo(s, task, provider, now, stage);
    hide Inv, Gross, IsFunded, Absorbs, Balance, Net, StopsAt;
    StageOnlyAdds(s, task, provider, now);
    hide TransferStage;
    FundedStays(s, s', task);
  }

  lemma StageOnlyAdds(s: Store, task: TaskId, provider: string, now: Time)
    requires task in s.payouts
    ensures var o := OffsetStage(s, task, provider);
      && s.transactions <= o.transactions && o.payouts == s.payouts && o.transfers == s.transfers && o.tasks == s.tasks
      && o.transactions == TransferStage(s, task, provider, now).transactions
  {
    hide Balance, Net, Gross, OffsetOf, Uuid;
  }

  lemma ChargeFunds(s: Store, d: Charge)
    requires MovesTask(s, d)
    ensures IsFunded(BookCharge(s, d), d.task.value) && IsFunded(BeforePayout(s, d), d.task.value)
  {
    var booked := BookCharge(s, d);
    assert Funds(booked.transactions[|s.transactions|], d.task.value, s.tasks[d.task.value].price);
    assert BeforePayout(s, d).transactions[|s.transactions|] == booked.transactions[|s.transactions|];
  }

  lemma BaseFunded(s: Store, d: Charge)
    requires MovesTask(s, d)
    ensures StaysFunded(s, BookCharge(s, d)) && StaysFunded(s, BeforePayout(s, d))
  {
    ChargeFunds(s, d);
    hide IsFunded, Booked, Blank;
  }

  lemma Chain(a: Store, b: Store, c: Store)
    requires StaysFunded(a, b) && StaysFunded(b, c) && Absorbs(b, c)
    ensures StaysFunded(a, c)
  {
    forall k | IsDue(c.payouts, k) ensures IsDue(a.payouts, k) || IsFunded(c, k) {
      if IsDue(b.payouts, k) && IsFunded(b, k) {
        FundedStays(b, c, k);
      }
    }
    forall t | t in c.transfers
      ensures (t in a.transfers && c.transfers[t].taskId == a.transfers[t].taskId) || IsFunded(c, c.transfers[t].taskId)
    {
      if t in b.transfers && IsFunded(b, b.transfers[t].taskId) {
        FundedStays(b, c, b.transfers[t].taskId);
      }
    }
    hide IsFunded, IsDue, Absorbs;
  }

  lemma ChargeFunded(s: Store, d: Charge, now: Time)
    requires Inv(s)
    ensures StaysFunded(s, ChargeSuccess(s, d, now))
  {
    hide Inv, ProcessPayout, MarkCustomerPaid, Booked, Blank, StaysFunded, Absorbs, IsFunded;
    if MovesTask(s, d) {
      BaseFunded(s, d);
      ChargeFunds(s, d);
      var paid, k := BeforePayout(s, d), d.task.value;
      LogOnly(s, BookCharge(s, d));
      CustomerPaidKeeps(BookCharge(s, d), k);
      if PayoutProvider(s.tasks[k]).Some? {
        var provider := PayoutProvider(s.tasks[k]).value;
        PayoutFunded(paid, k, provider, now);
        PayoutKeeps(paid, k, provider, now);
        Chain(s, paid, ProcessPayout(paid, k, provider, now));
      }
    } else {
      PlainCharge(s, d, now);
    }
  }

  lemma PlainCharge(s: Store, d: Charge, now: Time)
    requires !MovesTask(s, d)
    ensures StaysFunded(s, ChargeSuccess(s, d, now))
  {
    hide Booked, Blank, IsFunded, ProcessPayout;
  }

  lemma StoppedChargeFunded(s: Store, d: Charge, now: Time, stage: ChargeStage)
    requires Inv(s) && ChargeStopsAt(s, d, stage)
    ensures StaysFunded(s, ChargeUpTo(s, d, now, stage))
  {
    hide Inv, MarkCustomerPaid, Booked, Blank, Absorbs, IsFunded, PayoutUpTo;
    if stage.Paying? {
      BaseFunded(s, d);
      ChargeFunds(s, d);
      var paid, k := BeforePayout(s, d), d.task.value;
      LogOnly(s, BookCharge(s, d));
      CustomerPaidKeeps(BookCharge(s, d), k);
      PayoutUpToFunded(paid, k, ChargeProvider(s, d).value, now, stage.stage);
      PayoutUpToKeeps(paid, k, ChargeProvider(s, d).value, now, stage.stage);
      hide StaysFunded;
      Chain(s, paid, PayoutUpTo(paid, k, ChargeProvider(s, d).value, now, stage.stage));
    }
  }

  // ── Marks ───────────────────────────────────────────────────────────────

  /** A mark settles or cancels payouts, and touches no transaction. */
  predicate MarksOnly(s: Store, s': Store) {
    && s'.transactions == s.transactions
    && (forall k | k in s'.payouts && IsDue(s'.payouts, k) :: IsDue(s.payouts, k))
    && (forall t | t in s'.transfers :: t in s.transfers && s'.transfers[t].taskId == s.transfers[t].taskId)
  }

  lemma SavedDuesNothing(s: Store, row: Transfer)
    requires row.id in s.transfers && s.transfers[row.id].taskId == row.taskId
    ensures MarksOnly(s, SaveRow(s, row))
  {
  }

  lemma PayoutEditsDueNothing(s: Store, saved: Store, payout: TaskId, providerId: Option<string>)
    requires MarksOnly(s, saved)
    ensures MarksOnly(s, SettlePayout(saved, payout, providerId)) && MarksOnly(s, CancelPayout(saved, payout))
  {
  }

  lemma TaskEditsDueNothing(s: Store, saved: Store, task: TaskId, status: PaymentStatus)
    requires MarksOnly(s, saved)
    ensures MarksOnly(s, SetTaskUnlessPaid(saved, task, status))
  {
  }

  lemma EditsDueNothing(s: Store, saved: Store, payout: TaskId, task: TaskId, providerId: Option<string>, status: PaymentStatus)
    requires MarksOnly(s, saved)
    ensures MarksOnly(s, SetTaskUnlessPaid(SettlePayout(saved, payout, providerId), task, status))
    ensures MarksOnly(s, SetTaskUnlessPaid(CancelPayout(saved, payout), task, status))
  {
    hide MarksOnly, SettlePayout, CancelPayout, SetTaskUnlessPaid;
    PayoutEditsDueNothing(s, saved, payout, providerId);
    TaskEditsDueNothing(s, SettlePayout(saved, payout, providerId), task, status);
    TaskEditsDueNothing(s, CancelPayout(saved, payout), task, status);
  }

  lemma MarksDueNothing(s: Store, row: Transfer, providerId: Option<string>, code: Option<string>, delay: Time, now: Time)
    requires row.status == Processing && row.id in s.transfers && s.transfers[row.id].taskId == row.taskId
    ensures MarksOnly(s, StoreCompleted(s, row, providerId, now))
    ensures MarksOnly(s, StoreFailed(s, row, code, now))
    ensures MarksOnly(s, StoreRetry(s, row, code, delay, now))
  {
    FailureDuesNothing(s, row, code, now);
    FailureDuesNothing(s, row, Some("MAX_ATTEMPTS_EXCEEDED"), now);
    var completed, retried := Complete(row, providerId, now), Retry(row, code, delay, now);
    assert completed.id == row.id && completed.taskId == row.taskId && retried.id == row.id && retried.taskId == row.taskId;
    hide Complete, Retry, StoreFailed, MarksOnly, SaveRow, SetTaskUnlessPaid, SettlePayout;
    SavedDuesNothing(s, completed);
    SavedDuesNothing(s, retried);
    EditsDueNothing(s, SaveRow(s, completed), row.payoutId, row.taskId, providerId, PaymentStatus.Paid);
  }

  lemma FailureDuesNothing(s: Store, row: Transfer, code: Option<string>, now: Time)
    requires row.status == Processing && row.id in s.transfers && s.transfers[row.id].taskId == row.taskId
    ensures MarksOnly(s, StoreFailed(s, row, code, now))
  {
    var failed := Fail(row, code, now);
    assert failed.id == row.id && failed.taskId == row.taskId;
    hide Fail, MarksOnly, SaveRow, SetTaskUnlessPaid, CancelPayout;
    SavedDuesNothing(s, failed);
    EditsDueNothing(s, SaveRow(s, failed), row.payoutId, row.taskId, None, PaymentStatus.Failed);
  }

  lemma ReplyDuesNothing(s: Store, row: Transfer, reply: Reply, jitter: real, now: Time)
    requires row.status == Processing && row.id in s.transfers && s.transfers[row.id].taskId == row.taskId
    ensures MarksOnly(s, StoreMarked(s, row, reply, jitter, now))
  {
    hide StoreCompleted, StoreFailed, StoreRetry, RetryDelay, MarksOnly;
    var providerId := if reply.Succeeded? then Some(reply.providerId) else None;
    var code := if reply.TemporaryError? || reply.PermanentError? then reply.code else Some("NO_PAYMENT_ACCOUNT");
    MarksDueNothing(s, row, providerId, code, RetryDelay(row.attemptCount, jitter), now);
  }

  lemma CallDuesNothing(s: Store, a: Action)
    requires Inv(s) && (a.AttemptTransfer? || a.Reconcile? || a.CrashAfterClaim?)
    ensures MarksOnly(s, Serve(s, a))
  {
    hide Inv, StoreCompleted, StoreFailed, StoreRetry, StoreMarked, RetryDelay;
    if a.id in s.transfers {
      var row := s.transfers[a.id];
      RowId(s, a.id);
      if a.AttemptTransfer? && Claimable(row) {
        var claimed := Claim(row, a.at);
        ReplyDuesNothing(SaveRow(s, claimed), claimed, a.reply, a.jitter, a.at);
      } else if a.Reconcile? && row.status == Processing {
        var providerId := if a.lookup.FoundSuccess? then Some(a.lookup.providerId) else None;
        var code := if a.lookup.FoundFailed? then Some("RECONCILED_FAILED") else Some("RECONCILED_UNKNOWN");
        MarksDueNothing(s, row, providerId, code, RetryDelay(row.attemptCount, a.jitter), a.at);
      }
    }
  }

  lemma FallbackDuesNothing(s: Store, d: Notice)
    ensures MarksOnly(s, s.(payouts := FallbackCompleted(s.payouts, d)))
    ensures MarksOnly(s, s.(payouts := FallbackCancelled(s.payouts, d)))
  {
    hide Addressed;
  }

  lemma NoticeFunded(s: Store, a: Action)
    requires Inv(s) && (a.TransferConfirmed? || a.TransferBounced?) && Possible(s, a)
    ensures StaysFunded(s, Serve(s, a))
  {
    hide Inv, StoreCompleted, StoreFailed, Booked, FallbackCompleted, FallbackCancelled, IsFunded, IsDue;
    FallbackDuesNothing(s, a.notice);
    if a.hit.Some? && s.transfers[a.hit.value].status == Processing {
      RowId(s, a.hit.value);
      MarksDueNothing(s, s.transfers[a.hit.value], Some(a.notice.reference), Some("WEBHOOK_FAILED"), 0.0, a.at);
    }
  }

  lemma MarkedFunded(s: Store, s': Store)
    requires MarksOnly(s, s')
    ensures StaysFunded(s, s')
  {
    hide IsFunded, IsDue;
  }

  // ── Whole runs ──────────────────────────────────────────────────────────

  lemma ServeFunded(s: Store, a: Action)
    requires Inv(s) && AllFunded(s)
    ensures StaysFunded(s, Serve(s, a))
  {
    hide Inv, IsFunded, ProcessPayout, PayoutUpTo, ChargeUpTo, ChargeSuccess, ProcessTransfer, ReconcileTransfer, ClaimOnly,
      PaymentStore.TransferFailed, TransferSuccess, ChargeStopsAt, Booked;
    if Possible(s, a) {
      match a
      case ChargeArrives(d, at) => ChargeFunded(s, d, at);
      case PayOut(task, provider, at) => PayoutFunded(s, task, provider, at);
      case CrashInPayout(task, provider, at, stage) => PayoutUpToFunded(s, task, provider, at, stage);
      case CrashInCharge(d, at, stage) => StoppedChargeFunded(s, d, at, stage);
      case AttemptTransfer(_, _, _, _) => CallDuesNothing(s, a); MarkedFunded(s, Serve(s, a));
      case CrashAfterClaim(_, _) => CallDuesNothing(s, a); MarkedFunded(s, Serve(s, a));
      case Reconcile(_, _, _, _) => CallDuesNothing(s, a); MarkedFunded(s, Serve(s, a));
      case TransferConfirmed(_, _, _) => NoticeFunded(s, a);
      case TransferBounced(_, _, _) => NoticeFunded(s, a);
      case _ =>
    }
  }

  lemma PerformFunded(s: Store, a: Action)
    requires Inv(s) && AllFunded(s)
    ensures AllFunded(Perform(s, a))
  {
    PerformKeeps(s, a);
    hide Inv, Serve, Absorbs, AllFunded;
    ServeFunded(s, if a.Cut? then a.call else a);
    if a.Cut? && Possible(s, a) {
      CutFunded(s, a);
    }
    AllStayFunded(s, Perform(s, a));
  }

  lemma CutFunded(s: Store, a: Action)
    requires Inv(s) && a.Cut? && Possible(s, a)
    requires StaysFunded(s, Serve(s, a.call))
    ensures StaysFunded(s, Perform(s, a))
  {
    hide Serve, IsFunded, ClaimOnly, Inv;
    CutDuesNothing(s, a);
    MarkedFunded(s, Perform(s, a));
  }

  /** What a crash leaves of a mark is due no more than the mark. */
  lemma CutDuesNothing(s: Store, a: Action)
    requires Inv(s) && a.Cut? && Possible(s, a)
    ensures MarksOnly(s, Perform(s, a))
  {
    hide Inv, Booked, Addressed, StoreCompleted, StoreFailed, ProcessTransfer, ReconcileTransfer;
    if a.call.AttemptTransfer? || a.call.Reconcile? {
      CallDuesNothing(s, a.call);
      if a.call.AttemptTransfer? {
        BegunIs(s, a.call);
      }
      hide Serve;
    } else if a.call.hit.Some? && s.transfers[a.call.hit.value].status == Processing {
      RowId(s, a.call.hit.value);
      MarksDueNothing(s, s.transfers[a.call.hit.value], Some(a.call.notice.reference), Some("WEBHOOK_FAILED"), 0.0, a.call.at);
    }
  }

  lemma BegunIs(s: Store, call: Action)
    requires call.AttemptTransfer?
    ensures Begun(s, call).transactions == s.transactions && Begun(s, call).payouts == s.payouts && Begun(s, call).tasks == s.tasks
  {
  }

  lemma {:induction false} RunFunded(s: Store, run: seq<Action>)
    requires Opening(s)
    ensures AllFunded(Books(s, run))
  {
    if |run| > 0 {
      RunFunded(s, run[..|run| - 1]);
      RunKeeps(s, run[..|run| - 1]);
      PerformFunded(Books(s, run[..|run| - 1]), run[|run| - 1]);
    }
  }

  /**
   In every run, crashes included, a payout reads CUSTOMER_PAID or TRANSFER_INITIATED, and a transfer exists, only
   if a successful payment of the task that covers its price is in the books.
   */
  lemma PaidBeforePaidOut(s: Store, run: seq<Action>, k: TaskId)
    requires Opening(s)
    requires var books := Books(s, run);
      || (k in books.payouts && books.payouts[k].status in {PayoutStatus.CustomerPaid, PayoutStatus.TransferInitiated})
      || (exists t | t in books.transfers :: books.transfers[t].taskId == k)
    ensures var books := Books(s, run);
      && k in books.tasks
      && exists i | 0 <= i < |books.transactions| ::
           && books.transactions[i].succeeded && books.transactions[i].kind == TaskPayment && books.transactions[i].task == Some(k)
           && (books.tasks[k].price > 0 ==> books.transactions[i].amount >= books.tasks[k].price)
  {
    RunFunded(s, run);
    var books := Books(s, run);
    hide Books;
    assert IsFunded(books, k);
    var i :| 0 <= i < |books.transactions| && Funds(books.transactions[i], k, books.tasks[k].price);
  }
}
