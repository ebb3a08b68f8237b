/**
 Runs of the payment system in which each call is one serial step: completions, charge and transfer
 webhooks, payouts, transfer attempts, reconciliation and reinitiation. A transfer attempt may be cut
 off by a crash once its claim is committed, every call that marks a transfer after each of the
 commits of the mark, and a payout or a charge webhook after each of its own commits.
 */
module Settlement {
  import opened Common
  import opened TransferRow
  import opened TransferProtocol
  import opened PaymentStore

  /** A mark commits the transfer, then its payout, then its task; what follows it may still be missing. */
  datatype Stage = TransferOnly | PayoutToo | TaskToo

  datatype Action =
    | FinishInCash(task: TaskId, provider: string)
    | FinishOnline(task: TaskId, provider: string, reference: string)
    | ChargeArrives(charge: Charge, at: Time)
    | ChargeFails(charge: Charge)
    | PayOut(task: TaskId, provider: string, at: Time)
    | AttemptTransfer(id: TransferId, reply: Reply, jitter: real, at: Time)
    | CrashAfterClaim(id: TransferId, at: Time)
    | Reconcile(id: TransferId, lookup: Lookup, jitter: real, at: Time)
    | TransferConfirmed(notice: Notice, hit: Option<TransferId>, at: Time)
    | TransferBounced(notice: Notice, hit: Option<TransferId>, at: Time)
    | Reinitiates(users: set<string>, task: TaskId, customer: string, reference: string)
    | Cut(call: Action, stage: Stage)
    | CrashInPayout(task: TaskId, provider: string, at: Time, paid: PayStage)
    | CrashInCharge(charge: Charge, at: Time, charged: ChargeStage)

  /**
   A task is completed once, before its payment is settled; a debt payment is not negative; a
   transfer webhook finds whatever its query matches. Everything else is always possible.
   */
  predicate Possible(s: Store, a: Action) {
    match a
    case FinishInCash(task, _) => Unfinished(s, task)
    case FinishOnline(task, _, _) => Unfinished(s, task)
    case ChargeArrives(d, _) => d.kind == ForDebt ==> d.amount >= 0
    case TransferConfirmed(d, hit, _) => IsHit(s, d, hit)
    case TransferBounced(d, hit, _) => IsHit(s, d, hit)
    case Cut(call, stage) => CanCut(s, call, stage)
    case CrashInPayout(task, provider, _, stage) => StopsAt(s, task, provider, stage)
    case CrashInCharge(d, _, stage) => ChargeStopsAt(s, d, stage)
    case _ => true
  }

  predicate Unpaid(s: Store, task: TaskId) {
    task in s.tasks && s.tasks[task].status != Some(PaymentStatus.Paid)
  }

  /** Without a transfer to mark, a webhook commits the payout with the task, if there is a task to commit. */
  predicate NoticeCut(s: Store, d: Notice, hit: Option<TransferId>, stage: Stage)
    requires IsHit(s, d, hit)
  {
    || (hit.Some? && s.transfers[hit.value].status == Processing)
    || (stage.TaskToo? && d.task.Some? && Unpaid(s, d.task.value))
  }

  predicate CanCut(s: Store, call: Action, stage: Stage) {
    match call
    case AttemptTransfer(_, _, _, _) => true
    case Reconcile(_, _, _, _) => true
    case TransferConfirmed(d, hit, _) => IsHit(s, d, hit) && NoticeCut(s, d, hit, stage)
    case TransferBounced(d, hit, _) => IsHit(s, d, hit) && NoticeCut(s, d, hit, stage)
    case _ => false
  }

  predicate Unfinished(s: Store, task: TaskId) {
    task !in s.payouts && Unpaid(s, task)
  }

  /** The call in full. */
  ghost function Serve(s: Store, a: Action): Store {
    if !Possible(s, a) then s else
      match a
      case FinishInCash(task, provider) => PayInCash(s, task, provider)
      case FinishOnline(task, provider, reference) => RequestOnline(s, task, provider, reference)
      case ChargeArrives(d, at) => ChargeSuccess(s, d, at)
      case ChargeFails(d) => ChargeFailed(s, d)
      case PayOut(task, provider, at) => ProcessPayout(s, task, provider, at)
      case AttemptTransfer(id, reply, jitter, at) => ProcessTransfer(s, id, reply, jitter, at)
      case CrashAfterClaim(id, at) => ClaimOnly(s, id, at)
      case Reconcile(id, lookup, jitter, at) => ReconcileTransfer(s, id, lookup, jitter, at)
      case TransferConfirmed(d, hit, at) => TransferSuccess(s, d, hit, at)
      case TransferBounced(d, hit, at) => PaymentStore.TransferFailed(s, d, hit, at)
      case Reinitiates(users, task, customer, reference) => Reinitiate(s, users, task, customer, reference)
      case Cut(_, _) => s
      case CrashInPayout(task, provider, at, stage) => PayoutUpTo(s, task, provider, at, stage)
      case CrashInCharge(d, at, stage) => ChargeUpTo(s, d, at, stage)
  }

  /** The tables before the mark: an attempt has committed its claim. */
  function Begun(s: Store, call: Action): Store {
    if call.AttemptTransfer? then ClaimOnly(s, call.id, call.at) else s
  }

  /** What a crash leaves of a mark. */
  function CutShort(before: Store, after: Store, stage: Stage): Store {
    before.(transfers := after.transfers,
            payouts := if stage.TransferOnly? then before.payouts else after.payouts,
            tasks := if stage.TaskToo? then after.tasks else before.tasks)
  }

  ghost function Perform(s: Store, a: Action): Store {
    if a.Cut? && Possible(s, a) then CutShort(Begun(s, a.call), Serve(s, a.call), a.stage) else Serve(s, a)
  }

  /** Before anything is paid: tasks as they come, every other table empty. */
  predicate Opening(s: Store) {
    && s.payouts == map[] && s.transfers == map[] && s.attempts == []
    && s.transactions == [] && s.debts == [] && s.jobs == [] && s.drawn == 0
  }

  ghost function Books(s: Store, run: seq<Action>): Store {
    if |run| == 0 then s else Perform(Books(s, run[..|run| - 1]), run[|run| - 1])
  }

  // ── What holds of the tables ────────────────────────────────────────────

  /** A transfer belongs to the payout and the task it was created for. */
  predicate TransferFits(s: Store, t: TransferId)
    requires t in s.transfers
  {
    var row := s.transfers[t];
    && row.id == t && row.idempotencyKey == KeyOf(t) && RowOk(row) && |t| < s.drawn
    && row.payoutId == row.taskId && row.taskId in s.payouts
  }

  predicate PayoutFits(s: Store, task: TaskId)
    requires task in s.payouts
  {
    && task in s.tasks && s.payouts[task].amount > 0
    && (s.tasks[task].status == Some(PaymentStatus.Paid) ==> s.payouts[task].status != PayoutStatus.CustomerPaid)
  }

  predicate TransfersFit(s: Store) {
    forall t | t in s.transfers :: TransferFits(s, t)
  }

  predicate PayoutsFit(s: Store) {
    forall task | task in s.payouts :: PayoutFits(s, task)
  }

  predicate Inv(s: Store) {
    TransfersFit(s) && PayoutsFit(s) && UniquePayouts(s.transfers)
  }

  /** Completed transfers, settled payouts and paid tasks stay so; rows, prices and amounts are never lost. */
  predicate Absorbs(s: Store, s': Store) {
    && (forall task | task in s.tasks ::
          && task in s'.tasks && s'.tasks[task].price == s.tasks[task].price
          && (s.tasks[task].status == Some(PaymentStatus.Paid) ==> s'.tasks[task].status == Some(PaymentStatus.Paid)))
    && (forall task | task in s.payouts ::
          && task in s'.payouts && s'.payouts[task].amount == s.payouts[task].amount
          && (s.payouts[task].status == PayoutStatus.Completed ==> s'.payouts[task].status == PayoutStatus.Completed))
    && (forall t | t in s.transfers ::
          && t in s'.transfers && s'.transfers[t].taskId == s.transfers[t].taskId
          && s'.transfers[t].amount == s.transfers[t].amount
          && (s.transfers[t].status == TransferStatus.Completed ==> s'.transfers[t] == s.transfers[t]))
  }

  /** Tables other than the transfers moved on without unsettling anything. */
  lemma TransfersUntouched(s: Store, s': Store)
    requires TransfersFit(s) && UniquePayouts(s.transfers)
    requires s'.transfers == s.transfers && s'.drawn == s.drawn
    requires Absorbs(s, s')
    ensures TransfersFit(s') && UniquePayouts(s'.transfers)
  {
    hide RowOk;
    forall t | t in s'.transfers ensures TransferFits(s', t) {
      assert TransferFits(s, t);
    }
  }

  // ── Transfers ───────────────────────────────────────────────────────────

  /** A row moves on. */
  lemma SaveRowKeeps(s: Store, row: Transfer)
    requires Inv(s) && row.id in s.transfers
    requires OneChange(s.transfers[row.id], row)
    ensures Inv(SaveRow(s, row)) && Absorbs(s, SaveRow(s, row))
  {
    assert s.transfers[row.id].status != TransferStatus.Completed;
    hide RowOk, ValidTransitions;
    var s' := SaveRow(s, row);
    assert TransferFits(s, row.id);
    forall t | t in s'.transfers ensures TransferFits(s', t) {
      if t != row.id {
        assert TransferFits(s, t);
      }
    }
    forall task | task in s'.payouts ensures PayoutFits(s', task) {
      assert PayoutFits(s, task);
    }
  }

  lemma CompletedKeepsPayouts(s: Store, t: TransferId, providerId: Option<string>, now: Time)
    requires Inv(s) && t in s.transfers && s.transfers[t].status == Processing
    ensures PayoutsFit(StoreCompleted(s, s.transfers[t], providerId, now))
  {
    var s' := StoreCompleted(s, s.transfers[t], providerId, now);
    assert TransferFits(s, t);
    hide RowOk, Complete, TransferFits;
    forall task | task in s'.payouts ensures PayoutFits(s', task) {
      assert PayoutFits(s, task);
    }
  }

  lemma CompletedAbsorbs(s: Store, row: Transfer, providerId: Option<string>, now: Time)
    requires row.status == Processing && row.id in s.transfers && s.transfers[row.id] == row
    ensures Absorbs(s, StoreCompleted(s, row, providerId, now))
  {
    var completed := Complete(row, providerId, now);
    assert completed.id == row.id && completed.taskId == row.taskId && completed.status == TransferStatus.Completed;
    hide Complete;
  }

  lemma CompletedRowFits(s: Store, t: TransferId, providerId: Option<string>, now: Time)
    requires Inv(s) && t in s.transfers && s.transfers[t].status == Processing
    ensures var s' := StoreCompleted(s, s.transfers[t], providerId, now);
      t in s'.transfers && TransferFits(s', t)
      && s'.transfers == s.transfers[t := Complete(s.transfers[t], providerId, now)] && s'.drawn == s.drawn
      && UniquePayouts(s'.transfers)
  {
    assert TransferFits(s, t);
    EditsAreChanges(s.transfers[t], providerId, None, 0.0, now);
    var row := Complete(s.transfers[t], providerId, now);
    assert PayoutFits(s, row.taskId);
    assert OneChange(s.transfers[t], row);
    hide RowOk, ValidTransitions, Complete, PayoutFits;
  }

  lemma CompletedKeeps(s: Store, t: TransferId, providerId: Option<string>, now: Time)
    requires Inv(s) && t in s.transfers && s.transfers[t].status == Processing
    ensures Inv(StoreCompleted(s, s.transfers[t], providerId, now))
    ensures Absorbs(s, StoreCompleted(s, s.transfers[t], providerId, now))
  {
    var s' := StoreCompleted(s, s.transfers[t], providerId, now);
    CompletedRowFits(s, t, providerId, now);
    CompletedKeepsPayouts(s, t, providerId, now);
    CompletedAbsorbs(s, s.transfers[t], providerId, now);
    hide Absorbs, RowOk, Complete, PayoutsFit, UniquePayouts, StoreCompleted;
    forall u | u in s'.transfers ensures TransferFits(s', u) {
      if u != t {
        assert TransferFits(s, u);
      }
    }
  }

  lemma CancelKeepsPayouts(s: Store, task: TaskId)
    requires PayoutsFit(s)
    ensures PayoutsFit(SetTaskUnlessPaid(CancelPayout(s, task), task, PaymentStatus.Failed))
  {
    var s' := SetTaskUnlessPaid(CancelPayout(s, task), task, PaymentStatus.Failed);
    forall k | k in s'.payouts ensures PayoutFits(s', k) {
      assert PayoutFits(s, k);
    }
  }

  lemma CancelAbsorbs(s: Store, task: TaskId)
    ensures var s' := SetTaskUnlessPaid(CancelPayout(s, task), task, PaymentStatus.Failed);
      Absorbs(s, s') && s'.transfers == s.transfers && s'.drawn == s.drawn
  {
  }

  lemma CancelKeeps(s: Store, task: TaskId)
    requires Inv(s)
    ensures var s' := SetTaskUnlessPaid(CancelPayout(s, task), task, PaymentStatus.Failed);
      Inv(s') && Absorbs(s, s')
  {
    hide TransfersFit, PayoutsFit, UniquePayouts, Absorbs, SetTaskUnlessPaid, CancelPayout;
    CancelKeepsPayouts(s, task);
    CancelAbsorbs(s, task);
    TransfersUntouched(s, SetTaskUnlessPaid(CancelPayout(s, task), task, PaymentStatus.Failed));
  }

  lemma AbsorbsItself(s: Store)
    ensures Absorbs(s, s)
  {
  }

  lemma AbsorbsTransitive(a: Store, b: Store, c: Store)
    requires Absorbs(a, b) && Absorbs(b, c)
    ensures Absorbs(a, c)
  {
  }

  lemma FailedKeeps(s: Store, t: TransferId, code: Option<string>, now: Time)
    requires Inv(s) && t in s.transfers && s.transfers[t].status == Processing
    ensures Inv(StoreFailed(s, s.transfers[t], code, now)) && Absorbs(s, StoreFailed(s, s.transfers[t], code, now))
  {
    assert TransferFits(s, t);
    EditsAreChanges(s.transfers[t], None, code, 0.0, now);
    var row := Fail(s.transfers[t], code, now);
    hide RowOk, ValidTransitions, Inv, Absorbs;
    SaveRowKeeps(s, row);
    CancelKeeps(SaveRow(s, row), row.taskId);
    AbsorbsTransitive(s, SaveRow(s, row), StoreFailed(s, s.transfers[t], code, now));
  }

  lemma RetryKeeps(s: Store, t: TransferId, code: Option<string>, delay: Time, now: Time)
    requires Inv(s) && t in s.transfers && s.transfers[t].status == Processing
    ensures Inv(StoreRetry(s, s.transfers[t], code, delay, now)) && Absorbs(s, StoreRetry(s, s.transfers[t], code, delay, now))
  {
    var row := s.transfers[t];
    assert TransferFits(s, t);
    EditsAreChanges(row, None, code, delay, now);
    hide RowOk, ValidTransitions, Inv, Absorbs;
    if row.attemptCount >= row.maxAttempts {
      FailedKeeps(s, t, if code.Some? then code else Some("MAX_ATTEMPTS_EXCEEDED"), now);
    } else {
      SaveRowKeeps(s, Retry(row, code, delay, now));
    }
  }

  lemma ClaimKeeps(s: Store, id: TransferId, now: Time)
    requires Inv(s)
    ensures Inv(ClaimOnly(s, id, now)) && Absorbs(s, ClaimOnly(s, id, now))
  {
    if id in s.transfers && Claimable(s.transfers[id]) {
      assert TransferFits(s, id);
      EditsAreChanges(s.transfers[id], None, None, 0.0, now);
      hide RowOk, ValidTransitions, Inv, Absorbs;
      SaveRowKeeps(s, Claim(s.transfers[id], now));
    }
  }

  lemma MarkedKeeps(s: Store, t: TransferId, reply: Reply, jitter: real, now: Time)
    requires Inv(s) && t in s.transfers && s.transfers[t].status == Processing
    ensures var s' := StoreMarked(s, s.transfers[t], reply, jitter, now); Inv(s') && Absorbs(s, s')
  {
    hide Inv, Absorbs;
    match reply
    case Succeeded(providerId) => CompletedKeeps(s, t, Some(providerId), now);
    case TemporaryError(code) => RetryKeeps(s, t, code, RetryDelay(s.transfers[t].attemptCount, jitter), now);
    case PermanentError(code) => FailedKeeps(s, t, code, now);
    case NoAccount => FailedKeeps(s, t, Some("NO_PAYMENT_ACCOUNT"), now);
  }

  lemma AttemptKeeps(s: Store, id: TransferId, reply: Reply, jitter: real, now: Time)
    requires Inv(s)
    ensures var s' := ProcessTransfer(s, id, reply, jitter, now); Inv(s') && Absorbs(s, s')
  {
    if id in s.transfers && Claimable(s.transfers[id]) {
      assert s.transfers[id].id == id by { assert TransferFits(s, id); }
      var claimed := Claim(s.transfers[id], now);
      var saved := SaveRow(s, claimed);
      ClaimKeeps(s, id, now);
      MarkedKeeps(saved, id, reply, jitter, now);
      var marked := StoreMarked(saved, claimed, reply, jitter, now);
      hide RowOk, StoreMarked;
      AbsorbsTransitive(s, saved, marked);
      LogOnly(marked, ProcessTransfer(s, id, reply, jitter, now));
      AbsorbsTransitive(s, marked, ProcessTransfer(s, id, reply, jitter, now));
    }
  }

  /** Logs, ledgers and transactions do not enter the invariant. */
  lemma LogOnly(s: Store, s': Store)
    requires Inv(s)
    requires s'.tasks == s.tasks && s'.payouts == s.payouts && s'.transfers == s.transfers && s'.drawn == s.drawn
    ensures Inv(s') && Absorbs(s, s')
  {
    hide RowOk;
    TransfersUntouched(s, s');
    forall task | task in s'.payouts ensures PayoutFits(s', task) {
      assert PayoutFits(s, task);
    }
  }

  lemma ReconcileKeeps(s: Store, id: TransferId, lookup: Lookup, jitter: real, now: Time)
    requires Inv(s)
    ensures var s' := ReconcileTransfer(s, id, lookup, jitter, now); Inv(s') && Absorbs(s, s')
  {
    hide Inv, Absorbs;
    LogOnly(s, s);
    if id in s.transfers && s.transfers[id].status == Processing {
      match lookup
      case FoundSuccess(providerId) => CompletedKeeps(s, id, Some(providerId), now);
      case FoundFailed => FailedKeeps(s, id, Some("RECONCILED_FAILED"), now);
      case Unknown =>
        RetryKeeps(s, id, Some("RECONCILED_UNKNOWN"), RetryDelay(s.transfers[id].attemptCount, jitter), now);
      case Unreachable =>
    }
  }

  // ── Payouts and charges ─────────────────────────────────────────────────

  /** The drawn id is new. */
  lemma DrawnIsFresh(s: Store, t: TransferId)
    requires Inv(s) && t in s.transfers
    ensures t != Uuid(s.drawn)
  {
    assert TransferFits(s, t);
  }

  lemma FreshKeeps(s: Store, s': Store, row: Transfer)
    requires Inv(s) && row.id == Uuid(s.drawn) && row.idempotencyKey == KeyOf(row.id) && RowOk(row)
    requires row.payoutId == row.taskId && row.taskId in s.payouts
    requires !HasPayout(s.transfers, row.payoutId)
    requires s'.tasks == s.tasks && s'.payouts == s.payouts && s'.drawn == s.drawn + 1
    requires s'.transfers == s.transfers[row.id := row]
    ensures Inv(s') && Absorbs(s, s')
  {
    hide RowOk;
    forall t | t in s.transfers ensures t != row.id && TransferFits(s', t) {
      assert TransferFits(s, t);
      DrawnIsFresh(s, t);
    }
    forall k | k in s'.payouts ensures PayoutFits(s', k) {
      assert PayoutFits(s, k);
    }
  }

  lemma CreateKeeps(s: Store, task: TaskId, user: string, amount: int, now: Time)
    requires Inv(s) && task in s.payouts
    ensures var s' := CreateAndEnqueue(s, task, task, user, amount, now); Inv(s') && Absorbs(s, s')
  {
    hide Inv, Absorbs, Uuid;
    var s' := CreateAndEnqueue(s, task, task, user, amount, now);
    if HasPayout(s.transfers, task) {
      LogOnly(s, s');
    } else {
      FreshKeeps(s, s', NewTransfer(Uuid(s.drawn), task, task, user, amount, now));
    }
  }

  lemma InitiatedKeeps(s: Store, task: TaskId, gross: int)
    requires Inv(s) && task in s.payouts && s.payouts[task].status == PayoutStatus.CustomerPaid
    requires gross == s.payouts[task].amount
    ensures Inv(MarkInitiated(s, task, gross)) && Absorbs(s, MarkInitiated(s, task, gross))
  {
    hide RowOk;
    var s' := MarkInitiated(s, task, gross);
    assert PayoutFits(s, task);
    forall k | k in s'.payouts ensures PayoutFits(s', k) {
      assert PayoutFits(s, k);
    }
    TransfersUntouched(s, s');
  }

  lemma TransferStageKeeps(s: Store, task: TaskId, provider: string, now: Time)
    requires Inv(s) && task in s.payouts
    ensures var s' := TransferStage(s, task, provider, now);
      Inv(s') && Absorbs(s, s') && s'.payouts == s.payouts && s'.tasks == s.tasks
  {
    hide RowOk, Balance, Inv, Absorbs, Net, Gross;
    var s1 := OffsetStage(s, task, provider);
    LogOnly(s, s1);
    if Net(s, task, provider) > 0 {
      CreateKeeps(s1, task, provider, Net(s, task, provider), now);
      AbsorbsTransitive(s, s1, TransferStage(s, task, provider, now));
    }
  }

  lemma PayoutKeeps(s: Store, task: TaskId, provider: string, now: Time)
    requires Inv(s)
    ensures Inv(ProcessPayout(s, task, provider, now)) && Absorbs(s, ProcessPayout(s, task, provider, now))
  {
    LogOnly(s, s);
    if Payable(s, task, provider) {
      assert PayoutFits(s, task);
      hide RowOk, Inv, Absorbs, TransferStage;
      TransferStageKeeps(s, task, provider, now);
      InitiatedKeeps(TransferStage(s, task, provider, now), task, Gross(s, task));
      AbsorbsTransitive(s, TransferStage(s, task, provider, now), ProcessPayout(s, task, provider, now));
    }
  }

  lemma InitiatedKeepsRows(s: Store, task: TaskId, gross: int)
    requires task in s.payouts
    ensures SameRows(s, MarkInitiated(s, task, gross)) && MarkInitiated(s, task, gross).transfers == s.transfers
  {
  }

  lemma PayoutUpToKeeps(s: Store, task: TaskId, provider: string, now: Time, stage: PayStage)
    requires Inv(s) && StopsAt(s, task, provider, stage)
    ensures Inv(PayoutUpTo(s, task, provider, now, stage)) && Absorbs(s, PayoutUpTo(s, task, provider, now, stage))
  {
    assert PayoutFits(s, task);
    hide RowOk, Inv, Absorbs, TransferStage, Balance, Net, SameRows, CutShort;
    var after, sent := PayoutUpTo(s, task, provider, now, stage), TransferStage(s, task, provider, now);
    TransferStageKeeps(s, task, provider, now);
    match stage {
      case OffsetEntry => LogOnly(s, after);
      case OffsetAudited => LogOnly(s, after);
      case TransferCreated => LogOnly(sent, after);
      case JobQueued => LogOnly(sent, after);
      case PayoutMarked =>
        var marked := MarkInitiated(sent, task, Gross(s, task));
        InitiatedKeeps(sent, task, Gross(s, task));
        InitiatedKeepsRows(sent, task, Gross(s, task));
        CutKeeps(sent, marked, PayoutToo);
        MarkedIsCut(s, sent, task, Gross(s, task));
    }
    if !stage.OffsetEntry? && !stage.OffsetAudited? {
      AbsorbsTransitive(s, sent, after);
    }
  }

  lemma MarkedIsCut(s: Store, sent: Store, task: TaskId, gross: int)
    requires task in sent.payouts && sent.tasks == s.tasks
    ensures MarkInitiated(sent, task, gross).(tasks := s.tasks) == CutShort(sent, MarkInitiated(sent, task, gross), PayoutToo)
  {
  }

  lemma ChargeUpToKeeps(s: Store, d: Charge, now: Time, stage: ChargeStage)
    requires Inv(s) && ChargeStopsAt(s, d, stage)
    ensures Inv(ChargeUpTo(s, d, now, stage)) && Absorbs(s, ChargeUpTo(s, d, now, stage))
  {
    hide RowOk, Inv, Absorbs, Booked, Blank, PayoutUpTo, MarkCustomerPaid, CutShort, SameRows;
    var booked := BookCharge(s, d);
    LogOnly(s, booked);
    if !stage.Booking? {
      var task, paid := d.task.value, BeforePayout(s, d);
      CustomerPaidKeeps(booked, task);
      AbsorbsTransitive(s, booked, paid);
      if stage.TaskPaid? {
        TaskPaidKeeps(booked, task);
        AbsorbsTransitive(s, booked, ChargeUpTo(s, d, now, stage));
      } else {
        PayoutUpToKeeps(paid, task, ChargeProvider(s, d).value, now, stage.stage);
        AbsorbsTransitive(s, paid, ChargeUpTo(s, d, now, stage));
      }
    }
  }

  lemma TaskPaidKeeps(s: Store, task: TaskId)
    requires Inv(s) && task in s.tasks && AwaitingPayment(s.tasks[task].status)
    ensures var s' := s.(tasks := MarkCustomerPaid(s, task).tasks); Inv(s') && Absorbs(s, s')
  {
    hide RowOk;
    var s' := s.(tasks := MarkCustomerPaid(s, task).tasks);
    forall k | k in s'.payouts ensures PayoutFits(s', k) {
      assert PayoutFits(s, k);
    }
    TransfersUntouched(s, s');
  }

  lemma CustomerPaidKeeps(s: Store, task: TaskId)
    requires Inv(s) && task in s.tasks && AwaitingPayment(s.tasks[task].status)
    ensures Inv(MarkCustomerPaid(s, task)) && Absorbs(s, MarkCustomerPaid(s, task))
  {
    hide RowOk;
    var s' := MarkCustomerPaid(s, task);
    forall k | k in s'.payouts ensures PayoutFits(s', k) {
      assert PayoutFits(s, k);
    }
    TransfersUntouched(s, s');
  }

  lemma AdvanceKeeps(s: Store, task: TaskId, now: Time)
    requires Inv(s) && task in s.tasks
    ensures Inv(AdvanceTask(s, task, now)) && Absorbs(s, AdvanceTask(s, task, now))
  {
    hide RowOk, ProcessPayout;
    LogOnly(s, s);
    if AwaitingPayment(s.tasks[task].status) {
      CustomerPaidKeeps(s, task);
      var paid := MarkCustomerPaid(s, task);
      hide Inv, Absorbs, MarkCustomerPaid;
      if PayoutProvider(s.tasks[task]).Some? {
        PayoutKeeps(paid, task, PayoutProvider(s.tasks[task]).value, now);
        AbsorbsTransitive(s, paid, AdvanceTask(s, task, now));
      }
    }
  }

  lemma ChargeKeeps(s: Store, d: Charge, now: Time)
    requires Inv(s)
    ensures Inv(ChargeSuccess(s, d, now)) && Absorbs(s, ChargeSuccess(s, d, now))
  {
    hide RowOk, AdvanceTask, Booked, Blank, Inv, Absorbs;
    LogOnly(s, s);
    if Accepted(s, d) {
      var booked := BookCharge(s, d);
      LogOnly(s, booked);
      if d.kind == ForDebt {
        LogOnly(s, SettleDebt(booked, d));
      } else if NamesTask(d) {
        AdvanceKeeps(booked, d.task.value, now);
        AbsorbsTransitive(s, booked, ChargeSuccess(s, d, now));
      }
    }
  }

  /** A task without a payout gets one; no transfer of it exists yet. */
  lemma FinishKeeps(s: Store, s': Store, task: TaskId, payment: PaymentStatus)
    requires Inv(s) && Unfinished(s, task)
    requires payment == PaymentStatus.CashPaid || payment == PaymentStatus.PaymentRequested
    requires s'.tasks == s.tasks[task := s.tasks[task].(status := Some(payment))]
    requires s'.payouts == s.payouts || (exists p :: s'.payouts == s.payouts[task := p] && p.amount > 0)
    requires s'.transfers == s.transfers && s'.drawn == s.drawn
    ensures Inv(s') && Absorbs(s, s')
  {
    hide RowOk;
    forall k | k in s'.payouts ensures PayoutFits(s', k) {
      if k in s.payouts {
        assert PayoutFits(s, k);
      }
    }
    TransfersUntouched(s, s');
  }

  // ── Transfer webhooks and reinitiation ──────────────────────────────────

  lemma FallbackPaidKeeps(s: Store, d: Notice)
    requires Inv(s)
    ensures var f := s.(payouts := FallbackCompleted(s.payouts, d));
      var s' := if d.task.Some? then SetTaskUnlessPaid(f, d.task.value, PaymentStatus.Paid) else f;
      Inv(s') && Absorbs(s, s')
  {
    hide RowOk;
    var f := s.(payouts := FallbackCompleted(s.payouts, d));
    var s' := if d.task.Some? then SetTaskUnlessPaid(f, d.task.value, PaymentStatus.Paid) else f;
    forall k | k in s'.payouts ensures PayoutFits(s', k) {
      assert PayoutFits(s, k);
    }
    TransfersUntouched(s, s');
  }

  lemma FallbackFailedKeeps(s: Store, d: Notice)
    requires Inv(s)
    ensures var f := s.(payouts := FallbackCancelled(s.payouts, d));
      var s' := if d.task.Some? then SetTaskUnlessPaid(f, d.task.value, PaymentStatus.Failed) else f;
      Inv(s') && Absorbs(s, s')
  {
    hide RowOk;
    var f := s.(payouts := FallbackCancelled(s.payouts, d));
    var s' := if d.task.Some? then SetTaskUnlessPaid(f, d.task.value, PaymentStatus.Failed) else f;
    forall k | k in s'.payouts ensures PayoutFits(s', k) {
      assert PayoutFits(s, k);
    }
    TransfersUntouched(s, s');
  }

  lemma NoticeKeeps(s: Store, a: Action)
    requires Inv(s) && Possible(s, a) && (a.TransferConfirmed? || a.TransferBounced?)
    ensures Inv(Serve(s, a)) && Absorbs(s, Serve(s, a))
  {
    hide RowOk, Inv, Absorbs, Ignored, StoreCompleted, StoreFailed;
    var d, hit := a.notice, a.hit;
    LogOnly(s, s);
    var goal := if a.TransferConfirmed? then TransferStatus.Completed else TransferStatus.Failed;
    if !Ignored(s, d, a.TransferConfirmed?) && !Rejected(s, hit, goal) {
      var middle;
      if hit.Some? && s.transfers[hit.value].status == Processing {
        if a.TransferConfirmed? {
          CompletedKeeps(s, hit.value, Some(d.reference), a.at);
          middle := StoreCompleted(s, s.transfers[hit.value], Some(d.reference), a.at);
        } else {
          FailedKeeps(s, hit.value, Some("WEBHOOK_FAILED"), a.at);
          middle := StoreFailed(s, s.transfers[hit.value], Some("WEBHOOK_FAILED"), a.at);
        }
      } else if a.TransferConfirmed? {
        FallbackPaidKeeps(s, d);
        var f := s.(payouts := FallbackCompleted(s.payouts, d));
        middle := if d.task.Some? then SetTaskUnlessPaid(f, d.task.value, PaymentStatus.Paid) else f;
      } else {
        FallbackFailedKeeps(s, d);
        var f := s.(payouts := FallbackCancelled(s.payouts, d));
        middle := if d.task.Some? then SetTaskUnlessPaid(f, d.task.value, PaymentStatus.Failed) else f;
      }
      LogOnly(middle, BookNotice(middle, d, a.TransferConfirmed?));
      AbsorbsTransitive(s, middle, BookNotice(middle, d, a.TransferConfirmed?));
    }
  }

  lemma ReinitiateKeeps(s: Store, users: set<string>, task: TaskId, customer: string, reference: string)
    requires Inv(s)
    ensures var s' := Reinitiate(s, users, task, customer, reference); Inv(s') && Absorbs(s, s')
  {
    hide RowOk;
    var s' := Reinitiate(s, users, task, customer, reference);
    forall k | k in s'.payouts ensures PayoutFits(s', k) {
      assert PayoutFits(s, k);
    }
    TransfersUntouched(s, s');
  }

  lemma ServeKeeps(s: Store, a: Action)
    requires Inv(s)
    ensures Inv(Serve(s, a)) && Absorbs(s, Serve(s, a))
  {
    hide Inv, Absorbs;
    LogOnly(s, s);
    if Possible(s, a) {
      match a
      case FinishInCash(task, provider) =>
        assert Unfinished(s, task);
        FinishKeeps(s, PayInCash(s, task, provider), task, PaymentStatus.CashPaid);
      case FinishOnline(task, provider, reference) =>
        FinishKeeps(s, RequestOnline(s, task, provider, reference), task, PaymentStatus.PaymentRequested);
      case ChargeArrives(d, at) => ChargeKeeps(s, d, at);
      case ChargeFails(d) => LogOnly(s, ChargeFailed(s, d));
      case PayOut(task, provider, at) => PayoutKeeps(s, task, provider, at);
      case AttemptTransfer(id, reply, jitter, at) => AttemptKeeps(s, id, reply, jitter, at);
      case CrashAfterClaim(id, at) => ClaimKeeps(s, id, at);
      case Reconcile(id, lookup, jitter, at) => ReconcileKeeps(s, id, lookup, jitter, at);
      case TransferConfirmed(_, _, _) => NoticeKeeps(s, a);
      case TransferBounced(_, _, _) => NoticeKeeps(s, a);
      case Reinitiates(users, task, customer, reference) => ReinitiateKeeps(s, users, task, customer, reference);
      case Cut(_, _) =>
      case CrashInPayout(task, provider, at, stage) => PayoutUpToKeeps(s, task, provider, at, stage);
      case CrashInCharge(d, at, stage) => ChargeUpToKeeps(s, d, at, stage);
    }
  }

  // ── Crashes between commits ─────────────────────────────────────────────

  /** No tasks, payouts, transfers, ledger entries or ids are added. */
  predicate SameRows(s: Store, s': Store) {
    && s'.tasks.Keys == s.tasks.Keys && s'.payouts.Keys == s.payouts.Keys && s'.transfers.Keys == s.transfers.Keys
    && s'.debts == s.debts && s'.drawn == s.drawn
  }

  lemma CutKeeps(before: Store, after: Store, stage: Stage)
    requires Inv(before) && Inv(after) && Absorbs(before, after) && SameRows(before, after)
    ensures Inv(CutShort(before, after, stage)) && Absorbs(before, CutShort(before, after, stage))
  {
    hide RowOk;
    var s' := CutShort(before, after, stage);
    forall t | t in s'.transfers ensures TransferFits(s', t) {
      assert TransferFits(after, t);
    }
    forall k | k in s'.payouts ensures PayoutFits(s', k) {
      assert PayoutFits(before, k) && PayoutFits(after, k);
    }
  }

  lemma SaveKeepsRows(s: Store, row: Transfer)
    requires row.id in s.transfers
    ensures SameRows(s, SaveRow(s, row))
  {
  }

  lemma EditsKeepRows(s: Store, payout: TaskId, task: TaskId, providerId: Option<string>, status: PaymentStatus)
    ensures SameRows(s, SettlePayout(s, payout, providerId))
    ensures SameRows(s, CancelPayout(s, payout))
    ensures SameRows(s, SetTaskUnlessPaid(s, task, status))
  {
  }

  lemma SettlingKeepsRows(s: Store, row: Transfer, providerId: Option<string>, now: Time)
    requires row.status == Processing && row.id in s.transfers
    ensures SameRows(s, StoreCompleted(s, row, providerId, now))
  {
    var completed := Complete(row, providerId, now);
    assert completed.id == row.id;
    SaveKeepsRows(s, completed);
    var saved := SaveRow(s, completed);
    EditsKeepRows(saved, row.payoutId, row.taskId, providerId, PaymentStatus.Paid);
    EditsKeepRows(SettlePayout(saved, row.payoutId, providerId), row.payoutId, row.taskId, providerId, PaymentStatus.Paid);
    hide SaveRow, SettlePayout, SetTaskUnlessPaid, CancelPayout, Complete;
  }

  lemma FailingKeepsRows(s: Store, row: Transfer, code: Option<string>, now: Time)
    requires row.status == Processing && row.id in s.transfers
    ensures SameRows(s, StoreFailed(s, row, code, now))
  {
    var failed := Fail(row, code, now);
    assert failed.id == row.id;
    SaveKeepsRows(s, failed);
    var saved := SaveRow(s, failed);
    EditsKeepRows(saved, row.payoutId, row.taskId, None, PaymentStatus.Failed);
    EditsKeepRows(CancelPayout(saved, row.payoutId), row.payoutId, row.taskId, None, PaymentStatus.Failed);
    hide SaveRow, SettlePayout, SetTaskUnlessPaid, CancelPayout, Fail;
  }

  lemma MarksKeepRows(s: Store, row: Transfer, providerId: Option<string>, code: Option<string>, delay: Time, now: Time)
    requires row.status == Processing && row.id in s.transfers
    ensures SameRows(s, StoreCompleted(s, row, providerId, now))
    ensures SameRows(s, StoreFailed(s, row, code, now))
    ensures SameRows(s, StoreRetry(s, row, code, delay, now))
  {
    SettlingKeepsRows(s, row, providerId, now);
    FailingKeepsRows(s, row, code, now);
    FailingKeepsRows(s, row, Some("MAX_ATTEMPTS_EXCEEDED"), now);
    assert Retry(row, code, delay, now).id == row.id;
    SaveKeepsRows(s, Retry(row, code, delay, now));
    hide StoreCompleted, StoreFailed, SameRows, SaveRow, Retry;
  }

  lemma MarkedKeepsRows(s: Store, row: Transfer, reply: Reply, jitter: real, now: Time)
    requires row.status == Processing && row.id in s.transfers
    ensures SameRows(s, StoreMarked(s, row, reply, jitter, now))
  {
    hide StoreCompleted, StoreFailed, StoreRetry, RetryDelay, SameRows;
    var providerId := if reply.Succeeded? then Some(reply.providerId) else None;
    var code := if reply.TemporaryError? || reply.PermanentError? then reply.code else Some("NO_PAYMENT_ACCOUNT");
    MarksKeepRows(s, row, providerId, code, RetryDelay(row.attemptCount, jitter), now);
  }

  lemma RowId(s: Store, t: TransferId)
    requires Inv(s) && t in s.transfers
    ensures s.transfers[t].id == t
  {
    assert TransferFits(s, t);
  }

  lemma CallKeepsRows(s: Store, call: Action)
    requires Inv(s) && (call.AttemptTransfer? || call.Reconcile?)
    ensures SameRows(Begun(s, call), Serve(s, call))
  {
    hide Inv, StoreCompleted, StoreFailed, StoreRetry, StoreMarked, RetryDelay;
    if call.id in s.transfers {
      var row := s.transfers[call.id];
      RowId(s, call.id);
      if call.AttemptTransfer? && Claimable(row) {
        var claimed := Claim(row, call.at);
        MarkedKeepsRows(SaveRow(s, claimed), claimed, call.reply, call.jitter, call.at);
      } else if call.Reconcile? && row.status == Processing {
        var providerId := if call.lookup.FoundSuccess? then Some(call.lookup.providerId) else None;
        var code := if call.lookup.FoundFailed? then Some("RECONCILED_FAILED") else Some("RECONCILED_UNKNOWN");
        MarksKeepRows(s, row, providerId, code, RetryDelay(row.attemptCount, call.jitter), call.at);
      }
    }
  }

  lemma NoticeKeepsRows(s: Store, call: Action)
    requires Inv(s) && (call.TransferConfirmed? || call.TransferBounced?) && Possible(s, call)
    ensures SameRows(s, Serve(s, call))
  {
    hide Inv, StoreCompleted, StoreFailed, Booked, Addressed;
    if call.hit.Some? && s.transfers[call.hit.value].status == Processing {
      RowId(s, call.hit.value);
      MarksKeepRows(s, s.transfers[call.hit.value], Some(call.notice.reference), Some("WEBHOOK_FAILED"), 0.0, call.at);
    }
  }

  /** Beyond the claim an attempt only marks and logs. */
  lemma AttemptAbsorbs(s: Store, id: TransferId, reply: Reply, jitter: real, now: Time)
    requires Inv(s)
    ensures Absorbs(ClaimOnly(s, id, now), ProcessTransfer(s, id, reply, jitter, now))
  {
    hide Inv, Absorbs, StoreMarked;
    if id in s.transfers && Claimable(s.transfers[id]) {
      RowId(s, id);
      var saved, claimed := ClaimOnly(s, id, now), Claim(s.transfers[id], now);
      ClaimKeeps(s, id, now);
      MarkedKeeps(saved, id, reply, jitter, now);
      AbsorbsLogged(saved, StoreMarked(saved, claimed, reply, jitter, now), ProcessTransfer(s, id, reply, jitter, now));
    } else {
      AbsorbsItself(s);
    }
  }

  lemma AbsorbsLogged(s: Store, marked: Store, logged: Store)
    requires Absorbs(s, marked)
    requires logged.tasks == marked.tasks && logged.payouts == marked.payouts && logged.transfers == marked.transfers
    ensures Absorbs(s, logged)
  {
  }

  lemma PerformKeeps(s: Store, a: Action)
    requires Inv(s)
    ensures Inv(Perform(s, a)) && Absorbs(s, Perform(s, a))
  {
    hide Inv, Absorbs, Serve, SameRows, CutShort, ClaimOnly, ProcessTransfer;
    if a.Cut? && Possible(s, a) {
      var before, after := Begun(s, a.call), Serve(s, a.call);
      ServeKeeps(s, a.call);
      if a.call.AttemptTransfer? {
        ClaimKeeps(s, a.call.id, a.call.at);
        AttemptAbsorbs(s, a.call.id, a.call.reply, a.call.jitter, a.call.at);
        CallKeepsRows(s, a.call);
        ServesAttempt(s, a.call);
      } else if a.call.Reconcile? {
        CallKeepsRows(s, a.call);
      } else {
        NoticeKeepsRows(s, a.call);
      }
      CutKeeps(before, after, a.stage);
      if a.call.AttemptTransfer? {
        AbsorbsTransitive(s, before, Perform(s, a));
      }
    } else {
      ServeKeeps(s, a);
    }
  }

  lemma ServesAttempt(s: Store, call: Action)
    requires call.AttemptTransfer?
    ensures Serve(s, call) == ProcessTransfer(s, call.id, call.reply, call.jitter, call.at)
  {
    hide ProcessTransfer;
  }

  lemma {:induction false} RunKeeps(s: Store, run: seq<Action>)
    requires Opening(s)
    ensures Inv(Books(s, run))
  {
    if |run| > 0 {
      RunKeeps(s, run[..|run| - 1]);
      PerformKeeps(Books(s, run[..|run| - 1]), run[|run| - 1]);
    }
  }

  /** However a run goes on, COMPLETED transfers and payouts and PAID tasks stay as they are. */
  lemma {:induction false} SettledStatesAbsorb(s: Store, run: seq<Action>, more: seq<Action>)
    requires Opening(s)
    ensures Absorbs(Books(s, run), Books(s, run + more))
  {
    hide Inv, Perform, Absorbs;
    if |more| == 0 {
      assert run + more == run;
      AbsorbsItself(Books(s, run));
    } else {
      var before, last := run + more[..|more| - 1], more[|more| - 1];
      assert (run + more)[..|run + more| - 1] == before;
      SettledStatesAbsorb(s, run, more[..|more| - 1]);
      RunKeeps(s, before);
      PerformKeeps(Books(s, before), last);
      AbsorbsTransitive(Books(s, run), Books(s, before), Books(s, run + more));
    }
  }
}
