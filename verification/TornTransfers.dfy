/**
 When a COMPLETED transfer is settled: its payout COMPLETED and its task PAID. A mark commits the
 three one after the other, so a crash can tear them apart; what mends them is a later
 transfer.success webhook, which then updates payout and task directly.
 */
module TornTransfers {
  import opened Common
  import opened TransferRow
  import opened TransferProtocol
  import opened PaymentStore
  import opened Settlement
  import DebtLedger

  predicate IsCompleted(s: Store, t: TransferId) {
    t in s.transfers && s.transfers[t].status == TransferStatus.Completed
  }

  predicate PayoutDone(s: Store, task: TaskId) {
    task in s.payouts && s.payouts[task].status == PayoutStatus.Completed
  }

  predicate TaskDone(s: Store, task: TaskId) {
    task in s.tasks && s.tasks[task].status == Some(PaymentStatus.Paid)
  }

  // ── What mends ──────────────────────────────────────────────────────────

  /** A transfer.success webhook that has no transfer to mark. */
  predicate GoesToTables(s: Store, call: Action) {
    && call.TransferConfirmed? && Possible(s, call) && !Ignored(s, call.notice, true)
    && (call.hit.None? || IsCompleted(s, call.hit.value))
  }

  predicate CompletesPayout(s: Store, call: Action, task: TaskId) {
    && GoesToTables(s, call) && task in s.payouts && Addressed(call.notice, task, s.payouts[task])
    && s.payouts[task].status in {PayoutStatus.Pending, PayoutStatus.CustomerPaid, PayoutStatus.TransferInitiated}
  }

  predicate PaysTask(s: Store, call: Action, task: TaskId) {
    GoesToTables(s, call) && call.notice.task == Some(task) && task in s.tasks
  }

  function CallOf(a: Action): Action {
    if a.Cut? then a.call else a
  }

  /** Cut short, the webhook has committed both or nothing. */
  predicate Commits(s: Store, a: Action) {
    a.Cut? ==> Possible(s, a) && a.stage.TaskToo?
  }

  predicate MendsPayout(s: Store, a: Action, task: TaskId) {
    Commits(s, a) && CompletesPayout(s, CallOf(a), task)
  }

  predicate MendsTask(s: Store, a: Action, task: TaskId) {
    Commits(s, a) && PaysTask(s, CallOf(a), task)
  }

  // ── What tears ──────────────────────────────────────────────────────────

  /** The step completes the transfer. */
  ghost predicate Completes(s: Store, a: Action, t: TransferId) {
    !IsCompleted(s, t) && IsCompleted(Perform(s, a), t)
  }

  /** The last mark of the transfer was cut off before its payout, and no webhook has completed that since. */
  ghost predicate PayoutTorn(s: Store, run: seq<Action>, t: TransferId, task: TaskId) {
    |run| > 0 &&
    var before, a := Books(s, run[..|run| - 1]), run[|run| - 1];
    if Completes(before, a, t) then a.Cut? && a.stage.TransferOnly? && !PayoutDone(before, task)
    else PayoutTorn(s, run[..|run| - 1], t, task) && !MendsPayout(before, a, task)
  }

  /** The last mark of the transfer was cut off before its task, and no webhook has paid that since. */
  ghost predicate TaskTorn(s: Store, run: seq<Action>, t: TransferId, task: TaskId) {
    |run| > 0 &&
    var before, a := Books(s, run[..|run| - 1]), run[|run| - 1];
    if Completes(before, a, t) then a.Cut? && !a.stage.TaskToo? && !TaskDone(before, task)
    else TaskTorn(s, run[..|run| - 1], t, task) && !MendsTask(before, a, task)
  }

  // ── The effect of one call ──────────────────────────────────────────────

  /** Payout and task are settled by the mark that completes the transfer or by the given webhook, and by nothing else. */
  predicate Effect(s: Store, s': Store, t: TransferId, task: TaskId, mendsPayout: bool, mendsTask: bool) {
    if !IsCompleted(s, t) && IsCompleted(s', t) then PayoutDone(s', task) && TaskDone(s', task)
    else
      && (PayoutDone(s', task) <==> PayoutDone(s, task) || mendsPayout)
      && (TaskDone(s', task) <==> TaskDone(s, task) || mendsTask)
  }

  /** Rows of the task and of the transfer are as before, up to what a settled state keeps. */
  predicate Unsettling(s: Store, s': Store, t: TransferId, task: TaskId) {
    && (IsCompleted(s', t) ==> IsCompleted(s, t))
    && (PayoutDone(s', task) ==> PayoutDone(s, task))
    && (TaskDone(s', task) ==> TaskDone(s, task))
  }

  lemma UnsettlingEffect(s: Store, s': Store, t: TransferId, task: TaskId)
    requires Absorbs(s, s') && Unsettling(s, s', t, task)
    ensures Effect(s, s', t, task, false, false)
  {
  }

  lemma CompletedEffect(s: Store, u: TransferId, providerId: Option<string>, now: Time, t: TransferId)
    requires Inv(s) && t in s.transfers && u in s.transfers && s.transfers[u].status == Processing
    ensures var s' := StoreCompleted(s, s.transfers[u], providerId, now); var task := s.transfers[t].taskId;
      if u == t then IsCompleted(s', t) && PayoutDone(s', task) && TaskDone(s', task) else Unsettling(s, s', t, task)
  {
    assert TransferFits(s, t) && TransferFits(s, u);
    assert PayoutFits(s, s.transfers[t].taskId);
    var completed := Complete(s.transfers[u], providerId, now);
    assert completed.id == u && completed.status == TransferStatus.Completed;
    hide RowOk, Complete, PayoutsFit, TransfersFit;
  }

  lemma FailedEffect(s: Store, row: Transfer, code: Option<string>, now: Time, t: TransferId, task: TaskId)
    requires row.status == Processing && row.id in s.transfers
    ensures Unsettling(s, StoreFailed(s, row, code, now), t, task)
  {
    var failed := Fail(row, code, now);
    assert failed.id == row.id && failed.status == TransferStatus.Failed;
    hide Fail;
  }

  lemma RetryEffect(s: Store, row: Transfer, code: Option<string>, delay: Time, now: Time, t: TransferId, task: TaskId)
    requires row.status == Processing && row.id in s.transfers
    ensures Unsettling(s, StoreRetry(s, row, code, delay, now), t, task)
  {
    if row.attemptCount >= row.maxAttempts {
      FailedEffect(s, row, if code.Some? then code else Some("MAX_ATTEMPTS_EXCEEDED"), now, t, task);
    } else {
      var retried := Retry(row, code, delay, now);
      assert retried.id == row.id && retried.status == TransferStatus.Retrying;
    }
    hide StoreFailed, Retry;
  }

  /** How a mark of u, whatever its outcome, looks from t. */
  predicate MarkEffect(s: Store, s': Store, u: TransferId, t: TransferId, task: TaskId) {
    if IsCompleted(s', t) && u == t then PayoutDone(s', task) && TaskDone(s', task) else Unsettling(s, s', t, task)
  }

  lemma MarkedEffect(s: Store, u: TransferId, reply: Reply, jitter: real, now: Time, t: TransferId)
    requires Inv(s) && t in s.transfers && u in s.transfers && s.transfers[u].status == Processing
    ensures MarkEffect(s, StoreMarked(s, s.transfers[u], reply, jitter, now), u, t, s.transfers[t].taskId)
  {
    assert s.transfers[u].id == u by { assert TransferFits(s, u); }
    var row, task := s.transfers[u], s.transfers[t].taskId;
    hide Inv, StoreCompleted, StoreFailed, StoreRetry, RetryDelay;
    match reply
    case Succeeded(providerId) => CompletedEffect(s, u, Some(providerId), now, t);
    case TemporaryError(code) => RetryEffect(s, row, code, RetryDelay(row.attemptCount, jitter), now, t, task);
    case PermanentError(code) => FailedEffect(s, row, code, now, t, task);
    case NoAccount => FailedEffect(s, row, Some("NO_PAYMENT_ACCOUNT"), now, t, task);
  }

  lemma MarkSettles(s: Store, s': Store, u: TransferId, t: TransferId, task: TaskId)
    requires Absorbs(s, s') && MarkEffect(s, s', u, t, task) && (u == t ==> !IsCompleted(s, t))
    ensures Effect(s, s', t, task, false, false)
  {
  }

  lemma ReconcileEffect(s: Store, u: TransferId, lookup: Lookup, jitter: real, now: Time, t: TransferId)
    requires Inv(s) && t in s.transfers
    ensures Effect(s, ReconcileTransfer(s, u, lookup, jitter, now), t, s.transfers[t].taskId, false, false)
  {
    var s' := ReconcileTransfer(s, u, lookup, jitter, now);
    ReconcileKeeps(s, u, lookup, jitter, now);
    var task := s.transfers[t].taskId;
    if u in s.transfers && s.transfers[u].status == Processing {
      assert s.transfers[u].id == u by { assert TransferFits(s, u); }
      var row := s.transfers[u];
      hide Inv, StoreCompleted, StoreFailed, StoreRetry, RetryDelay, Absorbs;
      match lookup {
        case FoundSuccess(providerId) => CompletedEffect(s, u, Some(providerId), now, t);
        case FoundFailed => FailedEffect(s, row, Some("RECONCILED_FAILED"), now, t, task);
        case Unknown => RetryEffect(s, row, Some("RECONCILED_UNKNOWN"), RetryDelay(row.attemptCount, jitter), now, t, task);
        case Unreachable =>
      }
      hide Unsettling, PayoutDone, TaskDone;
      MarkSettles(s, s', u, t, task);
    }
  }

  /** The claim touches neither payout nor task. */
  lemma ClaimEffect(s: Store, u: TransferId, now: Time, t: TransferId)
    requires Inv(s) && t in s.transfers
    ensures var s' := ClaimOnly(s, u, now);
      t in s'.transfers && s'.transfers[t].taskId == s.transfers[t].taskId && s'.payouts == s.payouts && s'.tasks == s.tasks
      && (IsCompleted(s', t) <==> IsCompleted(s, t)) && (u == t && IsCompleted(s, t) ==> s' == s)
  {
    assert TransferFits(s, t);
    if u in s.transfers {
      assert TransferFits(s, u);
    }
    hide RowOk, Inv;
  }

  /** The claim before, and the log after, make no difference. */
  lemma AroundTheMark(s: Store, before: Store, after: Store, s': Store, t: TransferId, task: TaskId)
    requires before.payouts == s.payouts && before.tasks == s.tasks && (IsCompleted(before, t) <==> IsCompleted(s, t))
    requires s'.payouts == after.payouts && s'.tasks == after.tasks && s'.transfers == after.transfers
    requires Effect(before, after, t, task, false, false)
    ensures Effect(s, s', t, task, false, false)
  {
  }

  lemma AttemptEffect(s: Store, u: TransferId, reply: Reply, jitter: real, now: Time, t: TransferId)
    requires Inv(s) && t in s.transfers
    ensures Effect(s, ProcessTransfer(s, u, reply, jitter, now), t, s.transfers[t].taskId, false, false)
  {
    ClaimEffect(s, u, now, t);
    if u in s.transfers && Claimable(s.transfers[u]) {
      assert s.transfers[u].id == u by { assert TransferFits(s, u); }
      var claimed := ClaimOnly(s, u, now);
      var marked := StoreMarked(claimed, Claim(s.transfers[u], now), reply, jitter, now);
      ClaimKeeps(s, u, now);
      hide Inv, StoreMarked, Absorbs, MarkEffect, Effect;
      MarkedEffect(claimed, u, reply, jitter, now, t);
      MarkedKeeps(claimed, u, reply, jitter, now);
      MarkSettles(claimed, marked, u, t, s.transfers[t].taskId);
      AroundTheMark(s, claimed, marked, ProcessTransfer(s, u, reply, jitter, now), t, s.transfers[t].taskId);
    }
  }

  // ── Calls that mark nothing ─────────────────────────────────────────────

  predicate MarksNothing(a: Action) {
    !a.AttemptTransfer? && !a.CrashAfterClaim? && !a.Reconcile? && !a.TransferConfirmed? && !a.TransferBounced?
  }

  lemma StageUnsettles(s: Store, k: TaskId, provider: string, now: Time, t: TransferId)
    requires Inv(s) && k in s.payouts
    ensures var s' := TransferStage(s, k, provider, now);
      s'.payouts == s.payouts && s'.tasks == s.tasks && (IsCompleted(s', t) ==> IsCompleted(s, t))
  {
    if t in s.transfers {
      DrawnIsFresh(s, t);
    }
    hide Balance, RowOk, Inv, Net, Gross, OffsetOf;
  }

  lemma PayoutUnsettles(s: Store, k: TaskId, provider: string, now: Time, t: TransferId, task: TaskId)
    requires Inv(s)
    ensures Unsettling(s, ProcessPayout(s, k, provider, now), t, task)
  {
    if Payable(s, k, provider) {
      StageUnsettles(s, k, provider, now, t);
    }
    hide TransferStage, Gross, Inv;
  }

  lemma AdvanceUnsettles(s: Store, k: TaskId, now: Time, t: TransferId, task: TaskId)
    requires Inv(s) && k in s.tasks
    ensures Unsettling(s, AdvanceTask(s, k, now), t, task)
  {
    hide ProcessPayout;
    if AwaitingPayment(s.tasks[k].status) {
      var paid := MarkCustomerPaid(s, k);
      CustomerPaidKeeps(s, k);
      assert Unsettling(s, paid, t, task) && paid.transfers == s.transfers;
      hide MarkCustomerPaid, Inv;
      if PayoutProvider(s.tasks[k]).Some? {
        PayoutUnsettles(paid, k, PayoutProvider(s.tasks[k]).value, now, t, task);
      }
    }
  }

  lemma ChargeUnsettles(s: Store, d: Charge, now: Time, t: TransferId, task: TaskId)
    requires Inv(s)
    ensures Unsettling(s, ChargeSuccess(s, d, now), t, task)
  {
    hide AdvanceTask, Booked, Blank;
    if Accepted(s, d) {
      LogOnly(s, BookCharge(s, d));
      hide Inv;
      if d.kind != ForDebt && NamesTask(d) {
        AdvanceUnsettles(BookCharge(s, d), d.task.value, now, t, task);
      }
    }
  }

  lemma PayoutUpToUnsettles(s: Store, k: TaskId, provider: string, now: Time, stage: PayStage, t: TransferId, task: TaskId)
    requires Inv(s) && StopsAt(s, k, provider, stage)
    ensures Unsettling(s, PayoutUpTo(s, k, provider, now, stage), t, task)
  {
    hide TransferStage, Gross, Inv, Balance, Net, OffsetOf;
    StageUnsettles(s, k, provider, now, t);
  }

  lemma ChargeUpToUnsettles(s: Store, d: Charge, now: Time, stage: ChargeStage, t: TransferId, task: TaskId)
    requires Inv(s) && ChargeStopsAt(s, d, stage)
    ensures Unsettling(s, ChargeUpTo(s, d, now, stage), t, task)
  {
    hide Inv, Booked, Blank, PayoutUpTo;
    LogOnly(s, BookCharge(s, d));
    if !stage.Booking? {
      var paid := BeforePayout(s, d);
      CustomerPaidKeeps(BookCharge(s, d), d.task.value);
      assert Unsettling(s, paid, t, task);
      hide MarkCustomerPaid;
      if stage.Paying? {
        PayoutUpToUnsettles(paid, d.task.value, ChargeProvider(s, d).value, now, stage.stage, t, task);
      }
    }
  }

  lemma OtherCallsUnsettle(s: Store, a: Action, t: TransferId, task: TaskId)
    requires Inv(s) && MarksNothing(a)
    ensures IsCompleted(Serve(s, a), t) ==> IsCompleted(s, t)
    ensures task in s.payouts ==> Unsettling(s, Serve(s, a), t, task)
  {
    hide Inv, RowOk, ChargeSuccess, ProcessPayout, Booked, PayoutUpTo, ChargeUpTo, StopsAt, ChargeStopsAt;
    if Possible(s, a) {
      match a
      case ChargeArrives(d, at) => ChargeUnsettles(s, d, at, t, task);
      case CrashInPayout(k, provider, at, stage) => PayoutUpToUnsettles(s, k, provider, at, stage, t, task);
      case CrashInCharge(d, at, stage) => ChargeUpToUnsettles(s, d, at, stage, t, task);
      case PayOut(k, provider, at) => PayoutUnsettles(s, k, provider, at, t, task);
      case _ =>
    }
  }

  // ── Webhooks about transfers ────────────────────────────────────────────

  predicate MarksNotice(s: Store, a: Action) {
    && (a.TransferConfirmed? || a.TransferBounced?) && Possible(s, a) && !Ignored(s, a.notice, a.TransferConfirmed?)
    && a.hit.Some? && s.transfers[a.hit.value].status == Processing
  }

  /** What is marked, before the transaction is booked. */
  function NoticeMark(s: Store, a: Action): Store
    requires MarksNotice(s, a)
  {
    var row := s.transfers[a.hit.value];
    if a.TransferConfirmed? then StoreCompleted(s, row, Some(a.notice.reference), a.at)
    else StoreFailed(s, row, Some("WEBHOOK_FAILED"), a.at)
  }

  lemma NoticeMarked(s: Store, a: Action)
    requires MarksNotice(s, a)
    ensures var s' := Serve(s, a); var marked := NoticeMark(s, a);
      s'.payouts == marked.payouts && s'.tasks == marked.tasks && s'.transfers == marked.transfers
  {
    hide Ignored, StoreCompleted, StoreFailed;
  }

  lemma MarkingNoticeEffect(s: Store, a: Action, t: TransferId)
    requires Inv(s) && t in s.transfers && MarksNotice(s, a)
    ensures Effect(s, Serve(s, a), t, s.transfers[t].taskId, false, false)
  {
    var u, task := a.hit.value, s.transfers[t].taskId;
    assert s.transfers[u].id == u by { assert TransferFits(s, u); }
    var marked := NoticeMark(s, a);
    NoticeMarked(s, a);
    hide Inv, Ignored, StoreCompleted, StoreFailed, Absorbs, Serve, Unsettling, Effect;
    if a.TransferConfirmed? {
      CompletedEffect(s, u, Some(a.notice.reference), a.at, t);
      CompletedKeeps(s, u, Some(a.notice.reference), a.at);
    } else {
      FailedEffect(s, s.transfers[u], Some("WEBHOOK_FAILED"), a.at, t, task);
      FailedKeeps(s, u, Some("WEBHOOK_FAILED"), a.at);
      assert !IsCompleted(marked, t) || u != t;
    }
    MarkSettles(s, marked, u, t, task);
    AroundTheMark(s, s, marked, Serve(s, a), t, task);
  }

  lemma BouncedEffect(s: Store, a: Action, t: TransferId)
    requires Inv(s) && t in s.transfers && a.TransferBounced? && Possible(s, a) && !MarksNotice(s, a)
    ensures Effect(s, Serve(s, a), t, s.transfers[t].taskId, false, false)
  {
    hide Inv, Ignored, StoreFailed;
  }

  lemma ConfirmedEffect(s: Store, a: Action, t: TransferId)
    requires Inv(s) && t in s.transfers && a.TransferConfirmed? && Possible(s, a) && !MarksNotice(s, a)
    ensures var task := s.transfers[t].taskId;
      Effect(s, Serve(s, a), t, task, CompletesPayout(s, a, task), PaysTask(s, a, task))
  {
    hide Inv, Ignored, StoreCompleted;
  }

  lemma NoticeEffect(s: Store, a: Action, t: TransferId)
    requires Inv(s) && t in s.transfers && (a.TransferConfirmed? || a.TransferBounced?) && Possible(s, a)
    ensures var task := s.transfers[t].taskId;
      Effect(s, Serve(s, a), t, task, CompletesPayout(s, a, task), PaysTask(s, a, task))
  {
    hide Inv, Ignored, Serve, Effect, Addressed;
    if MarksNotice(s, a) {
      MarkingNoticeEffect(s, a, t);
    } else if a.TransferConfirmed? {
      ConfirmedEffect(s, a, t);
    } else {
      BouncedEffect(s, a, t);
    }
  }

  // ── One step ────────────────────────────────────────────────────────────

  lemma OtherEffect(s: Store, a: Action, t: TransferId)
    requires Inv(s) && t in s.transfers && (MarksNothing(a) || !Possible(s, a))
    ensures Effect(s, Serve(s, a), t, s.transfers[t].taskId, false, false)
  {
    ServeKeeps(s, a);
    assert TransferFits(s, t);
    hide Inv, Absorbs, RowOk;
    if Possible(s, a) {
      OtherCallsUnsettle(s, a, t, s.transfers[t].taskId);
      hide Unsettling, Effect, Serve;
      UnsettlingEffect(s, Serve(s, a), t, s.transfers[t].taskId);
    }
  }

  lemma ServeEffect(s: Store, a: Action, t: TransferId)
    requires Inv(s) && t in s.transfers
    ensures var task := s.transfers[t].taskId;
      Effect(s, Serve(s, a), t, task, CompletesPayout(s, a, task), PaysTask(s, a, task))
  {
    hide Inv, ProcessTransfer, ReconcileTransfer, ClaimOnly, PaymentStore.TransferFailed, TransferSuccess, Effect, Ignored, Addressed;
    if MarksNothing(a) || !Possible(s, a) {
      OtherEffect(s, a, t);
    } else {
      match a
      case AttemptTransfer(u, reply, jitter, at) => AttemptEffect(s, u, reply, jitter, at, t);
      case CrashAfterClaim(u, at) => ClaimOnlyEffect(s, u, at, t);
      case Reconcile(u, lookup, jitter, at) => ReconcileEffect(s, u, lookup, jitter, at, t);
      case TransferConfirmed(_, _, _) => NoticeEffect(s, a, t);
      case TransferBounced(_, _, _) => NoticeEffect(s, a, t);
    }
  }

  lemma ClaimOnlyEffect(s: Store, u: TransferId, now: Time, t: TransferId)
    requires Inv(s) && t in s.transfers
    ensures Effect(s, ClaimOnly(s, u, now), t, s.transfers[t].taskId, false, false)
  {
    ClaimEffect(s, u, now, t);
    hide ClaimOnly, Inv;
  }

  /** A webhook without a transfer to mark commits payout and task together. */
  lemma CutMendsWhole(s: Store, call: Action, stage: Stage, task: TaskId)
    requires Possible(s, Cut(call, stage)) && !stage.TaskToo?
    ensures !CompletesPayout(s, call, task) && !PaysTask(s, call, task)
  {
    hide Ignored, Addressed;
  }

  lemma PerformEffect(s: Store, a: Action, t: TransferId)
    requires Inv(s) && t in s.transfers
    ensures var s' := Perform(s, a); var task := s.transfers[t].taskId;
      if Completes(s, a, t) then
        && (PayoutDone(s', task) <==> !(a.Cut? && a.stage.TransferOnly?) || PayoutDone(s, task))
        && (TaskDone(s', task) <==> !(a.Cut? && !a.stage.TaskToo?) || TaskDone(s, task))
      else
        && (PayoutDone(s', task) <==> PayoutDone(s, task) || MendsPayout(s, a, task))
        && (TaskDone(s', task) <==> TaskDone(s, task) || MendsTask(s, a, task))
  {
    ServeEffect(s, CallOf(a), t);
    hide Serve, Inv, CompletesPayout, PaysTask;
    if a.Cut? && Possible(s, a) && !a.stage.TaskToo? {
      CutMendsWhole(s, a.call, a.stage, s.transfers[t].taskId);
    }
    hide Possible;
  }

  /** A transfer does not begin COMPLETED. */
  lemma NewIsPending(s: Store, a: Action, t: TransferId)
    requires Inv(s) && t !in s.transfers
    ensures !IsCompleted(Perform(s, a), t)
  {
    var call := CallOf(a);
    if !Possible(s, call) {
    } else if call.AttemptTransfer? || call.Reconcile? {
      CallKeepsRows(s, call);
    } else if call.TransferConfirmed? || call.TransferBounced? {
      NoticeKeepsRows(s, call);
    } else if MarksNothing(call) {
      OtherCallsUnsettle(s, call, t, "");
    }
    ClaimAddsNothing(s, call, t);
    hide Serve, Inv, Begun, Possible;
  }

  lemma ClaimAddsNothing(s: Store, call: Action, t: TransferId)
    requires Inv(s) && t !in s.transfers
    ensures t !in Begun(s, call).transfers
    ensures call.CrashAfterClaim? || !Possible(s, call) ==> t !in Serve(s, call).transfers
  {
    if (call.AttemptTransfer? || call.CrashAfterClaim?) && call.id in s.transfers {
      RowId(s, call.id);
    }
    hide Inv;
  }

  // ── Whole runs ──────────────────────────────────────────────────────────

  /**
   In every run, and in both halves: a COMPLETED transfer has its payout COMPLETED, and its task
   PAID, exactly when its completing mark was not cut off before that or a webhook has mended it since.
   */
  lemma {:induction false} SettledUnlessTorn(s: Store, run: seq<Action>, t: TransferId)
    requires Opening(s) && IsCompleted(Books(s, run), t)
    ensures var books := Books(s, run); var task := books.transfers[t].taskId;
      && (PayoutDone(books, task) <==> !PayoutTorn(s, run, t, task))
      && (TaskDone(books, task) <==> !TaskTorn(s, run, t, task))
  {
    if |run| > 0 {
      var before, a := Books(s, run[..|run| - 1]), run[|run| - 1];
      RunKeeps(s, run[..|run| - 1]);
      PerformKeeps(before, a);
      if t in before.transfers {
        PerformEffect(before, a, t);
        if IsCompleted(before, t) {
          SettledUnlessTorn(s, run[..|run| - 1], t);
        }
      } else {
        NewIsPending(before, a, t);
      }
      hide Perform, Inv, MendsPayout, MendsTask, PayoutDone, TaskDone;
    }
  }

  /** The run has no crash between the commits of a mark. */
  predicate Unbroken(run: seq<Action>) {
    forall i | 0 <= i < |run| :: run[i].Cut? ==> run[i].stage.TaskToo?
  }

  lemma {:induction false} UnbrokenIsNotTorn(s: Store, run: seq<Action>, t: TransferId, task: TaskId)
    requires Unbroken(run)
    ensures !PayoutTorn(s, run, t, task) && !TaskTorn(s, run, t, task)
  {
    if |run| > 0 {
      UnbrokenIsNotTorn(s, run[..|run| - 1], t, task);
      assert run[|run| - 1].Cut? ==> run[|run| - 1].stage.TaskToo?;
      hide Books, Completes, MendsPayout, MendsTask;
    }
  }

  /** Without such a crash a COMPLETED transfer has its payout COMPLETED and its task PAID. */
  lemma CompletedMeansSettled(s: Store, run: seq<Action>, t: TransferId)
    requires Opening(s) && IsCompleted(Books(s, run), t) && Unbroken(run)
    ensures var books := Books(s, run); PayoutDone(books, books.transfers[t].taskId) && TaskDone(books, books.transfers[t].taskId)
  {
    SettledUnlessTorn(s, run, t);
    UnbrokenIsNotTorn(s, run, t, Books(s, run).transfers[t].taskId);
  }

  // ── A torn transfer and its mending ─────────────────────────────────────

  const PAID: seq<Action> := [FinishOnline("k", "p", "r0")] + [ChargeArrives(DebtLedger.ChargeFor("r1"), 0.0)]

  /** The provider has paid; the worker crashes right after the commit of the transfer. */
  const CRASH: Action := Cut(AttemptTransfer(Uuid(0), Succeeded("x"), 0.0, 0.0), TransferOnly)

  const NOTICE: Action := TransferConfirmed(Notice("x", 85, "p", Some("k")), Some(Uuid(0)), 0.0)

  lemma PaidState()
    ensures var s := Books(DebtLedger.OPENING, PAID);
      && Uuid(0) in s.transfers && s.transfers[Uuid(0)] == NewTransfer(Uuid(0), "k", "k", "p", 85, 0.0)
      && "k" in s.payouts && s.payouts["k"].status == PayoutStatus.TransferInitiated
      && "k" in s.tasks && s.tasks["k"].status == Some(PaymentStatus.TransferInitiated)
      && s.transactions == [Transaction(100, TaskPayment, true, Some("r1"), Some("c"), Some("k"))]
  {
    DebtLedger.FirstCharge();
    hide Books, Uuid, NewTransfer;
  }

  /** After the crash the transfer is COMPLETED, its payout and its task are not settled. */
  lemma CrashTears()
    ensures var s := Books(DebtLedger.OPENING, PAID + [CRASH]);
      && IsCompleted(s, Uuid(0)) && s.transfers[Uuid(0)].taskId == "k"
      && "k" in s.payouts && s.payouts["k"].status == PayoutStatus.TransferInitiated
      && "k" in s.tasks && s.tasks["k"].status == Some(PaymentStatus.TransferInitiated)
      && s.transactions == [Transaction(100, TaskPayment, true, Some("r1"), Some("c"), Some("k"))]
  {
    PaidState();
    DebtLedger.AfterSnoc(DebtLedger.OPENING, PAID, CRASH);
    var s := Books(DebtLedger.OPENING, PAID);
    hide Books, Uuid, KeyOf;
    var claimed := Claim(s.transfers[Uuid(0)], 0.0);
    assert claimed.status == Processing;
    assert Serve(s, CRASH.call).transfers == StoreMarked(SaveRow(s, claimed), claimed, Succeeded("x"), 0.0, 0.0).transfers;
  }

  /** The provider's webhook settles both. */
  lemma NoticeMends()
    ensures var s := Books(DebtLedger.OPENING, PAID + [CRASH] + [NOTICE]); PayoutDone(s, "k") && TaskDone(s, "k")
  {
    CrashTears();
    DebtLedger.AfterSnoc(DebtLedger.OPENING, PAID + [CRASH], NOTICE);
    var s := Books(DebtLedger.OPENING, PAID + [CRASH]);
    hide Books, Uuid;
    assert |"x"| != |"r1"|;
    assert !Ignored(s, NOTICE.notice, true);
  }
}
