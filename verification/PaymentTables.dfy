/**
 What each payment call leaves in every table, told by the rows it finds and the message it gets. The
 calls themselves are sequences of updates of whole tables.
 */
module PaymentTables {
  import opened Common
  import opened TransferRow
  import opened TransferProtocol
  import opened TransferHistory
  import opened PaymentStore
  import opened Settlement

  // ── Conditions ──────────────────────────────────────────────────────────

  predicate IsOnFile(s: Store, reference: string, succeeded: bool) {
    exists i | 0 <= i < |s.transactions| ::
      s.transactions[i].reference == Some(reference) && s.transactions[i].succeeded == succeeded
  }

  predicate IsWritten(text: string) {
    exists i | 0 <= i < |text| :: text[i] !in {' ', '\t', '\n', '\r'}
  }

  /** The charge is for a task that exists, and pays its price in full. */
  predicate PaysInFull(s: Store, d: Charge) {
    d.task.Some? && d.task.value in s.tasks && (s.tasks[d.task.value].price > 0 ==> d.amount >= s.tasks[d.task.value].price)
  }

  /** The charge is booked: for the first time, and a task's only in full. */
  predicate IsBooked(s: Store, d: Charge) {
    && IsWritten(d.reference) && !IsOnFile(s, d.reference, true)
    && (d.kind == ForTask && d.task.Some? ==> PaysInFull(s, d))
  }

  /** The task has been waiting for the charge. */
  predicate Frees(s: Store, d: Charge) {
    && IsBooked(s, d) && d.kind == ForTask && d.task.Some? && d.task.value in s.tasks
    && s.tasks[d.task.value].status in
         {None, Some(PaymentStatus.Pending), Some(PaymentStatus.PaymentRequested), Some(PaymentStatus.Failed)}
  }

  /** The payout of the task, in the name of its assigned provider, may now be made. */
  predicate Releases(s: Store, d: Charge) {
    && Frees(s, d) && d.task.value in s.payouts
    && s.tasks[d.task.value].assignedProvider == Some(s.payouts[d.task.value].provider)
    && s.payouts[d.task.value].status in {PayoutStatus.Pending, PayoutStatus.Cancelled}
  }

  function ProviderOf(task: Task): Option<string> {
    if task.assignedProvider.Some? then task.assignedProvider else task.assignmentProvider
  }

  /** The charge goes on to the payout, which is for this provider and paid for. */
  predicate GoesOn(s: Store, d: Charge) {
    && Frees(s, d) && d.task.value in s.payouts && ProviderOf(s.tasks[d.task.value]) == Some(s.payouts[d.task.value].provider)
    && (Releases(s, d) || s.payouts[d.task.value].status == PayoutStatus.CustomerPaid)
  }

  // ── Finished tasks ──────────────────────────────────────────────────────

  function CashShare(row: Task): int {
    if row.providerPayout > 0 then row.providerPayout
    else if row.price > row.platformFee then row.price - row.platformFee else 0
  }

  /** A task paid in cash: the commission is owed, and the payout is recorded as made. */
  lemma CashTells(s: Store, task: TaskId, provider: string)
    requires Possible(s, FinishInCash(task, provider))
    ensures var row, s' := s.tasks[task], Serve(s, FinishInCash(task, provider));
      && s'.tasks == s.tasks[task := row.(status := Some(PaymentStatus.CashPaid))]
      && s'.debts == (if row.platformFee > 0 then s.debts + [Debt(provider, Some(task), row.platformFee, CashTaskCommission)] else s.debts)
      && s'.payouts == (if CashShare(row) > 0
           then s.payouts[task := Payout(provider, row.customer, CashShare(row), row.price, PayoutStatus.Completed, None)] else s.payouts)
      && s' == s.(tasks := s'.tasks, debts := s'.debts, payouts := s'.payouts)
  {
  }

  /** A task to be paid online: the payment is requested, and a payout waits for it. */
  lemma OnlineTells(s: Store, task: TaskId, provider: string, reference: string)
    requires Possible(s, FinishOnline(task, provider, reference))
    ensures var row, s' := s.tasks[task], Serve(s, FinishOnline(task, provider, reference));
      && s'.tasks == s.tasks[task := row.(status := Some(PaymentStatus.PaymentRequested))]
      && s'.payouts == (if row.providerPayout > 0
           then s.payouts[task := Payout(provider, row.customer, row.providerPayout, row.price, PayoutStatus.Pending, Some(reference))]
           else s.payouts)
      && s' == s.(tasks := s'.tasks, payouts := s'.payouts)
  {
  }

  /** A waiting payout of the customer gets a new reference, if the task has a price and the customer exists. */
  lemma ReinitiateTells(s: Store, users: set<string>, task: TaskId, customer: string, reference: string)
    ensures Serve(s, Reinitiates(users, task, customer, reference)) ==
      if task in s.payouts && s.payouts[task].customer == Some(customer) && s.payouts[task].status == PayoutStatus.Pending
         && task in s.tasks && customer in users && s.tasks[task].price > 0
      then s.(payouts := s.payouts[task := s.payouts[task].(reference := Some(reference))]) else s
  {
  }

  /** A failed charge of a known user is booked once, and changes nothing else. */
  lemma ChargeFailTells(s: Store, d: Charge)
    ensures Serve(s, ChargeFails(d)) ==
      if d.reference != "" && d.user.Some? && !IsOnFile(s, d.reference, false)
      then s.(transactions := s.transactions + [Transaction(d.amount, TaskPayment, false, Some(d.reference), d.user, d.task)])
      else s
  {
    assert Booked(s.transactions, d.reference, false) <==> IsOnFile(s, d.reference, false);
  }

  // ── Payouts ─────────────────────────────────────────────────────────────

  function Owed(s: Store, provider: string): int {
    if Balance(s.debts, provider) > 0 then Balance(s.debts, provider) else 0
  }

  /** What is kept for the provider's debt. */
  function Kept(s: Store, task: TaskId, provider: string): int
    requires task in s.payouts
  {
    if s.payouts[task].amount < Owed(s, provider) then s.payouts[task].amount else Owed(s, provider)
  }

  /** s' pays out the task from s: debt, audit, transfer and job, then the marks of payout and task. */
  ghost predicate IsPaidOut(s: Store, s': Store, task: TaskId, provider: string)
    requires task in s.payouts && task in s.tasks
  {
    var kept := Kept(s, task, provider); var net := s.payouts[task].amount - kept;
    && s'.payouts == s.payouts[task := s.payouts[task].(status := PayoutStatus.TransferInitiated)]
    && s'.tasks == s.tasks[task := s.tasks[task].(status := Some(PaymentStatus.TransferInitiated))]
    && s'.debts == s.debts + (if Owed(s, provider) > 0 then [Debt(provider, Some(task), -kept, PayoutOffset)] else [])
    && s'.transactions == s.transactions +
         (if Owed(s, provider) > 0 then [Transaction(kept, DebtSettlement, true, None, Some(provider), Some(task))] else [])
    && s'.attempts == s.attempts
    && (if net <= 0 then s'.transfers == s.transfers && s'.jobs == s.jobs
        else exists t | t in s'.transfers ::
          && s'.jobs == s.jobs + [t] && s'.transfers[t].payoutId == task
          && (t in s.transfers ==> s'.transfers == s.transfers)
          && (t !in s.transfers ==>
                && (forall u | u in s.transfers :: s.transfers[u].payoutId != task)
                && s'.transfers.Keys == s.transfers.Keys + {t} && (forall u | u in s.transfers :: s'.transfers[u] == s.transfers[u])
                && IsFresh(s'.transfers[t], t, task, provider, net)))
  }

  predicate IsFresh(row: Transfer, id: TransferId, task: TaskId, provider: string, amount: int) {
    && row.id == id && row.payoutId == task && row.taskId == task && row.userId == provider && row.amount == amount
    && row.status == TransferStatus.Pending && row.attemptCount == 0 && row.maxAttempts == 10
    && row.providerTransferId == None && row.idempotencyKey == "transfer:" + id && row.nextRetryAt == None
  }

  lemma KeptIsOffset(s: Store, task: TaskId, provider: string)
    requires Inv(s) && task in s.payouts
    ensures OffsetOf(Gross(s, task), Balance(s.debts, provider)) == Kept(s, task, provider)
    ensures Net(s, task, provider) == s.payouts[task].amount - Kept(s, task, provider)
    ensures Gross(s, task) == s.payouts[task].amount
  {
    assert PayoutFits(s, task);
    hide Balance;
  }

  /**
   Whatever the tables hold, what is left to send is the amount, or without one the provider's share of the task,
   less what he owes, and nothing if he owes as much.
   */
  lemma LeftToSend(s: Store, task: TaskId, provider: string)
    requires task in s.payouts
    ensures var gross := if s.payouts[task].amount != 0 then s.payouts[task].amount
                         else if task in s.tasks then s.tasks[task].providerPayout else 0;
      Net(s, task, provider) ==
        if Owed(s, provider) == 0 then gross else if Owed(s, provider) >= gross then 0 else gross - Owed(s, provider)
  {
    hide Balance;
  }

  lemma StageTells(s: Store, task: TaskId, provider: string, now: Time)
    requires Inv(s) && task in s.payouts && Net(s, task, provider) > 0
    ensures var s' := TransferStage(s, task, provider, now); var net := Net(s, task, provider);
      exists t | t in s'.transfers ::
        && s'.jobs == s.jobs + [t] && s'.transfers[t].payoutId == task
        && (t in s.transfers ==> s'.transfers == s.transfers)
        && (t !in s.transfers ==>
              && (forall u | u in s.transfers :: s.transfers[u].payoutId != task)
              && s'.transfers.Keys == s.transfers.Keys + {t} && (forall u | u in s.transfers :: s'.transfers[u] == s.transfers[u])
              && IsFresh(s'.transfers[t], t, task, provider, net))
  {
    var s', net := TransferStage(s, task, provider, now), Net(s, task, provider);
    hide Balance, Net, Inv;
    if HasPayout(s.transfers, task) {
      var t := TransferFor(s.transfers, task);
      assert s'.jobs == s.jobs + [t] && s'.transfers == s.transfers;
    } else {
      var t := Uuid(s.drawn);
      if t in s.transfers {
        DrawnIsFresh(s, t);
      }
      hide Uuid;
      assert s'.jobs == s.jobs + [t] && s'.transfers == s.transfers[t := NewTransfer(t, task, task, provider, net, now)];
    }
  }

  lemma PaidOutTells(s: Store, task: TaskId, provider: string, now: Time)
    requires Inv(s) && Payable(s, task, provider)
    ensures task in s.tasks && IsPaidOut(s, ProcessPayout(s, task, provider, now), task, provider)
  {
    assert PayoutFits(s, task);
    hide Balance, Net, TransferStage, Inv, IsFresh, OffsetOf, Gross, Kept;
    KeptIsOffset(s, task, provider);
    if Net(s, task, provider) > 0 {
      StageTells(s, task, provider, now);
    }
    StageKeepsRest(s, task, provider, now);
  }

  lemma StageKeepsRest(s: Store, task: TaskId, provider: string, now: Time)
    requires task in s.payouts
    ensures var s' := TransferStage(s, task, provider, now); var offset := OffsetOf(Gross(s, task), Balance(s.debts, provider));
      && s'.payouts == s.payouts && s'.tasks == s.tasks && s'.attempts == s.attempts
      && s'.debts == s.debts + (if Balance(s.debts, provider) > 0 then [Debt(provider, Some(task), -offset, PayoutOffset)] else [])
      && s'.transactions == s.transactions + (if Balance(s.debts, provider) > 0
           then [Transaction(offset, DebtSettlement, true, None, Some(provider), Some(task))] else [])
      && (Net(s, task, provider) <= 0 ==> s'.transfers == s.transfers && s'.jobs == s.jobs)
  {
    hide Balance, Net, Gross, OffsetOf, Uuid;
  }

  /** A payout is made exactly when it is this provider's and the customer has paid. */
  lemma PayOutTells(s: Store, task: TaskId, provider: string, now: Time)
    requires Inv(s)
    ensures var s' := Serve(s, PayOut(task, provider, now));
      if task in s.payouts && s.payouts[task].provider == provider && s.payouts[task].status == PayoutStatus.CustomerPaid
      then task in s.tasks && IsPaidOut(s, s', task, provider) else s' == s
  {
    if Payable(s, task, provider) {
      PaidOutTells(s, task, provider, now);
    }
    hide IsPaidOut, TransferStage, Inv, Gross, Balance;
  }

  // ── Charges ─────────────────────────────────────────────────────────────

  function Debtor(d: Charge): Option<string> {
    if d.provider.Some? then d.provider else d.user
  }

  /** The charge is booked, and moves its task and payout to CUSTOMER_PAID. */
  function WithCharge(s: Store, d: Charge): Store {
    s.(transactions := s.transactions +
         [Transaction(d.amount, if d.kind == ForDebt then DebtSettlement else TaskPayment, true, Some(d.reference), d.user, d.task)],
       tasks := if Frees(s, d) then s.tasks[d.task.value := s.tasks[d.task.value].(status := Some(PaymentStatus.CustomerPaid))] else s.tasks,
       payouts := if Releases(s, d)
         then s.payouts[d.task.value := s.payouts[d.task.value].(status := PayoutStatus.CustomerPaid)] else s.payouts,
       debts := if d.kind == ForDebt && Debtor(d).Some? then s.debts + [Debt(Debtor(d).value, None, -d.amount, DebtPayment)] else s.debts)
  }

  lemma BlankIsUnwritten(text: string)
    ensures Blank(text) <==> !IsWritten(text)
  {
  }

  lemma AcceptedIsBooked(s: Store, d: Charge)
    ensures Accepted(s, d) <==> IsBooked(s, d)
  {
    BlankIsUnwritten(d.reference);
    assert Booked(s.transactions, d.reference, true) <==> IsOnFile(s, d.reference, true);
    hide Blank, IsWritten, Booked, IsOnFile;
  }

  lemma MovedIs(s: Store, d: Charge)
    requires Frees(s, d) && Accepted(s, d)
    ensures AwaitingPayment(BookCharge(s, d).tasks[d.task.value].status)
    ensures MarkCustomerPaid(BookCharge(s, d), d.task.value) == WithCharge(s, d)
  {
    hide IsBooked, Accepted;
  }

  lemma NothingFreed(s: Store, d: Charge, now: Time)
    requires IsBooked(s, d) && Accepted(s, d) && !Frees(s, d)
    ensures ChargeSuccess(s, d, now) == WithCharge(s, d)
  {
    assert d.kind == ForTask && d.task.Some? ==> d.task.value in s.tasks;
    assert d.kind == ForTask && d.task.Some? ==> !AwaitingPayment(s.tasks[d.task.value].status);
    hide Accepted, IsBooked;
  }

  /**
   A charge that is blank, on file already, for no task or short of the price changes nothing; any other is booked,
   frees the task that waits for it, and pays out to its provider if that is who the payout is for.
   */
  lemma ChargeTells(s: Store, d: Charge, now: Time)
    requires Inv(s) && Possible(s, ChargeArrives(d, now))
    ensures var s', paid := Serve(s, ChargeArrives(d, now)), WithCharge(s, d);
      if !IsBooked(s, d) then s' == s
      else if GoesOn(s, d)
      then d.task.value in paid.payouts && d.task.value in paid.tasks && IsPaidOut(paid, s', d.task.value, paid.payouts[d.task.value].provider)
      else s' == paid
  {
    AcceptedIsBooked(s, d);
    hide Inv, Accepted, IsBooked, IsPaidOut, ProcessPayout;
    if IsBooked(s, d) && !Frees(s, d) {
      NothingFreed(s, d, now);
    } else if IsBooked(s, d) {
      var k, paid := d.task.value, WithCharge(s, d);
      MovedIs(s, d);
      LogOnly(s, BookCharge(s, d));
      CustomerPaidKeeps(BookCharge(s, d), k);
      assert PayoutProvider(s.tasks[k]) == ProviderOf(s.tasks[k]);
      if ProviderOf(s.tasks[k]).Some? {
        var provider := ProviderOf(s.tasks[k]).value;
        if Payable(paid, k, provider) {
          PaidOutTells(paid, k, provider, now);
        } else {
          NotPayable(paid, k, provider, now);
        }
      }
      hide MarkCustomerPaid;
    }
  }

  lemma NotPayable(s: Store, task: TaskId, provider: string, now: Time)
    requires !Payable(s, task, provider)
    ensures ProcessPayout(s, task, provider, now) == s
  {
  }

  // ── Marks ───────────────────────────────────────────────────────────────

  /** A transfer that a call marks, and the news it marks it with. */
  datatype Marking = Marking(id: TransferId, news: News)

  /** The webhook is for somebody, under a reference that is new with this outcome. */
  predicate IsHeard(s: Store, a: Action) {
    && (a.TransferConfirmed? || a.TransferBounced?)
    && a.notice.reference != "" && a.notice.user != "" && !IsOnFile(s, a.notice.reference, a.TransferConfirmed?)
  }

  /** The transfer it finds is being processed. */
  predicate FindsProcessing(s: Store, a: Action)
    requires a.TransferConfirmed? || a.TransferBounced?
  {
    a.hit.Some? && a.hit.value in s.transfers && s.transfers[a.hit.value].status == Processing
  }

  /** The transfer it finds has not got there, and cannot. */
  predicate FindsOther(s: Store, a: Action)
    requires a.TransferConfirmed? || a.TransferBounced?
  {
    && a.hit.Some? && a.hit.value in s.transfers && !FindsProcessing(s, a)
    && s.transfers[a.hit.value].status != (if a.TransferConfirmed? then TransferStatus.Completed else TransferStatus.Failed)
  }

  function MarkIn(s: Store, a: Action): Option<Marking> {
    match a
    case AttemptTransfer(id, reply, jitter, _) =>
      if id in s.transfers && s.transfers[id].status in {TransferStatus.Pending, Retrying}
      then Some(Marking(id, NewsOfReply(reply, s.transfers[id].attemptCount + 1, s.transfers[id].maxAttempts, jitter))) else None
    case Reconcile(id, lookup, jitter, _) =>
      if id in s.transfers && s.transfers[id].status == Processing && !lookup.Unreachable?
      then Some(Marking(id, NewsOfLookup(lookup, s.transfers[id].attemptCount, s.transfers[id].maxAttempts, jitter).value)) else None
    case TransferConfirmed(d, hit, _) => if IsHeard(s, a) && FindsProcessing(s, a) then Some(Marking(hit.value, Settled(d.reference))) else None
    case TransferBounced(_, hit, _) => if IsHeard(s, a) && FindsProcessing(s, a) then Some(Marking(hit.value, Refused(Some("WEBHOOK_FAILED")))) else None
    case _ => None
  }

  /** The payout of a transfer that brought this news. */
  function PayoutAfter(payout: Payout, news: News): Payout {
    match news
    case Settled(providerId) =>
      payout.(status := PayoutStatus.Completed, reference := if providerId == "" then payout.reference else Some(providerId))
    case Refused(_) => if payout.status == PayoutStatus.Completed then payout else payout.(status := PayoutStatus.Cancelled)
    case _ => payout
  }

  function TaskAfter(task: Task, news: News): Task {
    match news
    case Settled(_) => task.(status := Some(PaymentStatus.Paid))
    case Refused(_) => if task.status == Some(PaymentStatus.Paid) then task else task.(status := Some(PaymentStatus.Failed))
    case _ => task
  }

  /** The row tells the news, and is otherwise the transfer it was. */
  predicate TellsNews(row: Transfer, before: Transfer, news: News, at: Time) {
    Tells(row, Some(Told(news, at))) && SameIntent(before, row)
  }

  /** s' has the transfer marked with the news, and its payout and task with what that means for them. */
  predicate IsMarked(s: Store, s': Store, id: TransferId, news: News, at: Time)
    requires id in s.transfers
  {
    var k := s.transfers[id].taskId;
    && id in s'.transfers && s'.transfers == s.transfers[id := s'.transfers[id]]
    && TellsNews(s'.transfers[id], s.transfers[id], news, at)
    && k in s.payouts && s'.payouts == s.payouts[k := PayoutAfter(s.payouts[k], news)]
    && k in s.tasks && s'.tasks == s.tasks[k := TaskAfter(s.tasks[k], news)]
    && s'.debts == s.debts && s'.jobs == s.jobs
  }

  lemma MarkedIs(s: Store, id: TransferId, row: Transfer, marked: Transfer, s': Store, news: News, at: Time)
    requires Inv(s) && id in s.transfers && SameIntent(s.transfers[id], row) && SameIntent(row, marked)
    requires Tells(marked, Some(Told(news, at)))
    requires s'.transfers == s.transfers[id := marked] && s'.debts == s.debts && s'.jobs == s.jobs
    requires var k := row.taskId;
      && (k in s.payouts ==> s'.payouts == s.payouts[k := PayoutAfter(s.payouts[k], news)])
      && (k in s.tasks ==> s'.tasks == s.tasks[k := TaskAfter(s.tasks[k], news)])
    ensures IsMarked(s, s', id, news, at)
  {
    assert TransferFits(s, id);
    assert PayoutFits(s, s.transfers[id].taskId);
    hide RowOk, Tells, PayoutAfter, TaskAfter, Inv;
  }

  lemma CompletedTells(s: Store, row: Transfer, providerId: string, now: Time)
    requires row.status == Processing && row.payoutId == row.taskId
    ensures var s', done := StoreCompleted(s, row, Some(providerId), now), Complete(row, Some(providerId), now);
      && SameIntent(row, done) && Tells(done, Some(Told(Settled(providerId), now)))
      && s'.transfers == s.transfers[row.id := done] && s'.debts == s.debts && s'.jobs == s.jobs
      && s'.transactions == s.transactions && s'.attempts == s.attempts
      && (row.taskId in s.payouts ==> s'.payouts == s.payouts[row.taskId := PayoutAfter(s.payouts[row.taskId], Settled(providerId))])
      && (row.taskId in s.tasks ==> s'.tasks == s.tasks[row.taskId := TaskAfter(s.tasks[row.taskId], Settled(providerId))])
  {
    assert row.taskId in s.tasks && s.tasks[row.taskId].status == Some(PaymentStatus.Paid) ==>
      s.tasks[row.taskId := TaskAfter(s.tasks[row.taskId], Settled(providerId))] == s.tasks;
  }

  lemma FailedTells(s: Store, row: Transfer, code: Option<string>, now: Time)
    requires row.status == Processing && row.payoutId == row.taskId
    ensures var s', failed := StoreFailed(s, row, code, now), Fail(row, code, now);
      && SameIntent(row, failed) && Tells(failed, Some(Told(Refused(code), now)))
      && s'.transfers == s.transfers[row.id := failed] && s'.debts == s.debts && s'.jobs == s.jobs
      && s'.transactions == s.transactions && s'.attempts == s.attempts
      && (row.taskId in s.payouts ==> s'.payouts == s.payouts[row.taskId := PayoutAfter(s.payouts[row.taskId], Refused(code))])
      && (row.taskId in s.tasks ==> s'.tasks == s.tasks[row.taskId := TaskAfter(s.tasks[row.taskId], Refused(code))])
  {
    assert row.taskId in s.tasks && s.tasks[row.taskId].status == Some(PaymentStatus.Paid) ==>
      s.tasks[row.taskId := TaskAfter(s.tasks[row.taskId], Refused(code))] == s.tasks;
    assert row.taskId in s.payouts && s.payouts[row.taskId].status == PayoutStatus.Completed ==>
      s.payouts[row.taskId := PayoutAfter(s.payouts[row.taskId], Refused(code))] == s.payouts;
  }

  lemma RetriedTells(s: Store, row: Transfer, code: Option<string>, jitter: real, now: Time)
    requires row.status == Processing && row.payoutId == row.taskId
    ensures var delay, news := RetryDelay(row.attemptCount, jitter), TryLater(code, row.attemptCount, row.maxAttempts, jitter);
      var s', retried := StoreRetry(s, row, code, delay, now), Retry(row, code, delay, now);
      && SameIntent(row, retried) && Tells(retried, Some(Told(news, now)))
      && s'.transfers == s.transfers[row.id := retried] && s'.debts == s.debts && s'.jobs == s.jobs
      && s'.transactions == s.transactions && s'.attempts == s.attempts
      && (row.taskId in s.payouts ==> s'.payouts == s.payouts[row.taskId := PayoutAfter(s.payouts[row.taskId], news)])
      && (row.taskId in s.tasks ==> s'.tasks == s.tasks[row.taskId := TaskAfter(s.tasks[row.taskId], news)])
  {
    RetryTells(row, code, jitter, now);
    hide RetryDelay, WaitAfter, StoreFailed, Tells;
    if row.attemptCount >= row.maxAttempts {
      FailedTells(s, row, if code.Some? then code else Some("MAX_ATTEMPTS_EXCEEDED"), now);
    } else {
      assert row.taskId in s.payouts ==> s.payouts[row.taskId := s.payouts[row.taskId]] == s.payouts;
      assert row.taskId in s.tasks ==> s.tasks[row.taskId := s.tasks[row.taskId]] == s.tasks;
    }
  }

  lemma ReplyTells(s: Store, id: TransferId, row: Transfer, reply: Reply, jitter: real, now: Time)
    requires Inv(s) && id in s.transfers && s.transfers[id] == row && row.status == Processing
    ensures var s' := StoreMarked(s, row, reply, jitter, now);
      && IsMarked(s, s', id, NewsOfReply(reply, row.attemptCount, row.maxAttempts, jitter), now)
      && s'.transactions == s.transactions && s'.attempts == s.attempts
      && s'.transfers[id].attemptCount == row.attemptCount && s'.transfers[id].lastAttemptAt == row.lastAttemptAt
  {
    RowId(s, id);
    assert row.payoutId == row.taskId by { assert TransferFits(s, id); }
    MarksKeepAttempts(row, reply, jitter, now);
    hide Inv, StoreCompleted, StoreFailed, StoreRetry, Tells, TryLater, IsMarked, PayoutAfter, TaskAfter, RetryDelay;
    var s', news := StoreMarked(s, row, reply, jitter, now), NewsOfReply(reply, row.attemptCount, row.maxAttempts, jitter);
    match reply {
      case Succeeded(providerId) => CompletedTells(s, row, providerId, now);
      case TemporaryError(code) => RetriedTells(s, row, code, jitter, now);
      case PermanentError(code) => FailedTells(s, row, code, now);
      case NoAccount => FailedTells(s, row, Some("NO_PAYMENT_ACCOUNT"), now);
    }
    MarkedIs(s, id, row, s'.transfers[id], s', news, now);
  }

  lemma MarksKeepAttempts(row: Transfer, reply: Reply, jitter: real, now: Time)
    requires row.status == Processing
    ensures MarkedRow(row, reply, jitter, now).attemptCount == row.attemptCount
    ensures MarkedRow(row, reply, jitter, now).lastAttemptAt == row.lastAttemptAt
  {
    hide RetryDelay;
  }

  /** A claim counts the attempt and changes nothing of the intent. */
  lemma ClaimTells(s: Store, id: TransferId, now: Time)
    requires Inv(s) && id in s.transfers && s.transfers[id].status in {TransferStatus.Pending, Retrying}
    ensures var before := s.transfers[id]; var row := Claim(before, now);
      && Claimable(before) && row.id == id && SameIntent(before, row) && row.attemptCount == before.attemptCount + 1
      && row.lastAttemptAt == Some(now) && row.status == Processing && row.maxAttempts == before.maxAttempts
  {
    RowId(s, id);
    hide Inv;
  }

  /** The mark of a claimed row is a mark of the row before its claim. */
  lemma ClaimedIsMarked(s: Store, saved: Store, s': Store, id: TransferId, news: News, at: Time)
    requires id in s.transfers && id in saved.transfers && SameIntent(s.transfers[id], saved.transfers[id])
    requires saved == s.(transfers := s.transfers[id := saved.transfers[id]]) && IsMarked(saved, s', id, news, at)
    ensures IsMarked(s, s', id, news, at)
  {
    hide Tells, PayoutAfter, TaskAfter;
  }

  lemma ProcessTells(s: Store, id: TransferId, reply: Reply, jitter: real, now: Time)
    requires Inv(s) && id in s.transfers && s.transfers[id].status in {TransferStatus.Pending, Retrying}
    ensures var s', before := ProcessTransfer(s, id, reply, jitter, now), s.transfers[id];
      && IsMarked(s, s', id, NewsOfReply(reply, before.attemptCount + 1, before.maxAttempts, jitter), now)
      && s'.transfers[id].attemptCount == before.attemptCount + 1 && s'.transfers[id].lastAttemptAt == Some(now)
      && s'.attempts == s.attempts + [Attempt(id, before.attemptCount + 1, reply)] && s'.transactions == s.transactions
  {
    ClaimTells(s, id, now);
    ClaimKeeps(s, id, now);
    var row := Claim(s.transfers[id], now);
    hide Inv, StoreMarked, NewsOfReply, Absorbs, Claim, IsMarked, SameIntent;
    var saved := SaveRow(s, row);
    ReplyTells(saved, id, row, reply, jitter, now);
    var marked, news := StoreMarked(saved, row, reply, jitter, now), NewsOfReply(reply, row.attemptCount, row.maxAttempts, jitter);
    ClaimedIsMarked(s, saved, marked, id, news, now);
    MarkedStays(s, marked, ProcessTransfer(s, id, reply, jitter, now), id, news, now);
  }

  /**
   An attempt counts, marks the transfer, its payout and its task with the provider's answer, and logs it. A
   transfer that is neither PENDING nor RETRYING is left alone.
   */
  lemma AttemptTells(s: Store, id: TransferId, reply: Reply, jitter: real, now: Time)
    requires Inv(s)
    ensures var a := AttemptTransfer(id, reply, jitter, now); var s' := Serve(s, a);
      match MarkIn(s, a)
      case None => s' == s
      case Some(Marking(_, news)) =>
        && id in s.transfers && IsMarked(s, s', id, news, now)
        && s'.transfers[id].attemptCount == s.transfers[id].attemptCount + 1 && s'.transfers[id].lastAttemptAt == Some(now)
        && s'.attempts == s.attempts + [Attempt(id, s.transfers[id].attemptCount + 1, reply)]
        && s'.transactions == s.transactions
  {
    ServesAttempt(s, AttemptTransfer(id, reply, jitter, now));
    if id in s.transfers && s.transfers[id].status in {TransferStatus.Pending, Retrying} {
      ProcessTells(s, id, reply, jitter, now);
    } else {
      LeftAlone(s, id, reply, jitter, now);
    }
    hide Inv, Serve, ProcessTransfer, IsMarked, NewsOfReply;
  }

  lemma LeftAlone(s: Store, id: TransferId, reply: Reply, jitter: real, now: Time)
    requires id in s.transfers ==> s.transfers[id].status !in {TransferStatus.Pending, Retrying}
    ensures ProcessTransfer(s, id, reply, jitter, now) == s
  {
    hide StoreMarked;
  }

  /** Logging does not touch what is marked. */
  lemma MarkedStays(s: Store, marked: Store, logged: Store, id: TransferId, news: News, at: Time)
    requires id in s.transfers && IsMarked(s, marked, id, news, at) && logged == marked.(attempts := logged.attempts)
    ensures IsMarked(s, logged, id, news, at)
  {
    hide Tells, PayoutAfter, TaskAfter;
  }

  /** Reconciliation marks a PROCESSING transfer with what the provider knows; if it cannot be asked nothing changes. */
  lemma ReconcileTells(s: Store, id: TransferId, lookup: Lookup, jitter: real, now: Time)
    requires Inv(s)
    ensures var a := Action.Reconcile(id, lookup, jitter, now); var s' := Serve(s, a);
      match MarkIn(s, a)
      case None => s' == s
      case Some(Marking(_, news)) =>
        && id in s.transfers && IsMarked(s, s', id, news, now)
        && s'.attempts == s.attempts && s'.transactions == s.transactions
  {
    if id in s.transfers && s.transfers[id].status == Processing && !lookup.Unreachable? {
      var row := s.transfers[id];
      RowId(s, id);
      assert row.payoutId == row.taskId by { assert TransferFits(s, id); }
      hide Inv, StoreCompleted, StoreFailed, StoreRetry, Tells, TryLater, IsMarked, PayoutAfter, TaskAfter, RetryDelay;
      var s', news := ReconcileTransfer(s, id, lookup, jitter, now), NewsOfLookup(lookup, row.attemptCount, row.maxAttempts, jitter).value;
      match lookup {
        case FoundSuccess(providerId) => CompletedTells(s, row, providerId, now);
        case FoundFailed => FailedTells(s, row, Some("RECONCILED_FAILED"), now);
        case Unknown => RetriedTells(s, row, Some("RECONCILED_UNKNOWN"), jitter, now);
      }
      MarkedIs(s, id, row, s'.transfers[id], s', news, now);
    }
  }

  // ── Transfer webhooks ───────────────────────────────────────────────────

  predicate IsFor(d: Notice, task: TaskId, payout: Payout) {
    match d.task
    case Some(named) => named == task
    case None => payout.reference == Some(d.reference)
  }

  /** A payout the webhook is for, when there is no transfer left to mark. */
  function PayoutHeard(payout: Payout, confirmed: bool): Payout {
    if confirmed && payout.status in {PayoutStatus.Pending, PayoutStatus.CustomerPaid, PayoutStatus.TransferInitiated}
    then payout.(status := PayoutStatus.Completed)
    else if !confirmed && payout.status != PayoutStatus.Completed then payout.(status := PayoutStatus.Cancelled)
    else payout
  }

  /** The webhook is entered as money that went out to the user. */
  predicate IsEntered(s: Store, s': Store, d: Notice, confirmed: bool) {
    s'.transactions == s.transactions +
      [Transaction(-(if d.amount < 0 then -d.amount else d.amount), ProviderPayout, confirmed, Some(d.reference), Some(d.user), d.task)]
  }

  /** Without a transfer to mark, the webhook moves the payouts and the task it is for. */
  predicate FallsBack(s: Store, s': Store, d: Notice, confirmed: bool) {
    && s'.payouts.Keys == s.payouts.Keys
    && (forall k | k in s.payouts ::
          s'.payouts[k] == if IsFor(d, k, s.payouts[k]) then PayoutHeard(s.payouts[k], confirmed) else s.payouts[k])
    && s'.tasks == (if d.task.Some? && d.task.value in s.tasks && s.tasks[d.task.value].status != Some(PaymentStatus.Paid)
         then s.tasks[d.task.value :=
                s.tasks[d.task.value].(status := Some(if confirmed then PaymentStatus.Paid else PaymentStatus.Failed))]
         else s.tasks)
    && s' == s.(payouts := s'.payouts, tasks := s'.tasks, transactions := s'.transactions)
  }

  lemma NoticeConditions(s: Store, a: Action)
    requires (a.TransferConfirmed? || a.TransferBounced?) && Possible(s, a)
    ensures Ignored(s, a.notice, a.TransferConfirmed?) <==> !IsHeard(s, a)
    ensures Rejected(s, a.hit, if a.TransferConfirmed? then TransferStatus.Completed else TransferStatus.Failed) <==> FindsOther(s, a)
  {
    assert Booked(s.transactions, a.notice.reference, a.TransferConfirmed?) <==> IsOnFile(s, a.notice.reference, a.TransferConfirmed?);
    hide Booked, IsOnFile, Matches;
  }

  lemma NoticeMarks(s: Store, a: Action)
    requires Inv(s) && Possible(s, a) && IsHeard(s, a) && FindsProcessing(s, a)
    ensures var s' := Serve(s, a);
      IsMarked(s, s', a.hit.value, MarkIn(s, a).value.news, a.at)
      && IsEntered(s, s', a.notice, a.TransferConfirmed?) && s'.attempts == s.attempts
  {
    NoticeConditions(s, a);
    var id, row := a.hit.value, s.transfers[a.hit.value];
    RowId(s, id);
    assert row.payoutId == row.taskId by { assert TransferFits(s, id); }
    hide Inv, StoreCompleted, StoreFailed, Tells, IsMarked, PayoutAfter, TaskAfter, IsHit, Matches, Ignored, Rejected, IsOnFile;
    if a.TransferConfirmed? {
      CompletedTells(s, row, a.notice.reference, a.at);
    } else {
      FailedTells(s, row, Some("WEBHOOK_FAILED"), a.at);
    }
    MarkedIs(s, id, row, Serve(s, a).transfers[id], Serve(s, a), MarkIn(s, a).value.news, a.at);
  }

  lemma FallbackPayouts(payouts: map<TaskId, Payout>, d: Notice)
    ensures forall k | k in payouts ::
      && k in FallbackCompleted(payouts, d) && k in FallbackCancelled(payouts, d)
      && FallbackCompleted(payouts, d)[k] == (if IsFor(d, k, payouts[k]) then PayoutHeard(payouts[k], true) else payouts[k])
      && FallbackCancelled(payouts, d)[k] == (if IsFor(d, k, payouts[k]) then PayoutHeard(payouts[k], false) else payouts[k])
    ensures FallbackCompleted(payouts, d).Keys == payouts.Keys && FallbackCancelled(payouts, d).Keys == payouts.Keys
  {
  }

  lemma ConfirmedFallsBack(s: Store, d: Notice, hit: Option<TransferId>, now: Time)
    requires IsHit(s, d, hit) && !Ignored(s, d, true) && !Rejected(s, hit, TransferStatus.Completed)
    requires hit.Some? ==> s.transfers[hit.value].status != Processing
    ensures var s' := TransferSuccess(s, d, hit, now); FallsBack(s, s', d, true) && IsEntered(s, s', d, true)
  {
    hide StoreCompleted, StoreFailed, IsHit, Ignored, FallbackCompleted, FallbackCancelled, IsFor, PayoutHeard;
    FallbackPayouts(s.payouts, d);
  }

  lemma BouncedFallsBack(s: Store, d: Notice, hit: Option<TransferId>, now: Time)
    requires IsHit(s, d, hit) && !Ignored(s, d, false) && !Rejected(s, hit, TransferStatus.Failed)
    requires hit.Some? ==> s.transfers[hit.value].status != Processing
    ensures var s' := PaymentStore.TransferFailed(s, d, hit, now); FallsBack(s, s', d, false) && IsEntered(s, s', d, false)
  {
    hide StoreCompleted, StoreFailed, IsHit, Ignored, FallbackCompleted, FallbackCancelled, IsFor, PayoutHeard;
    FallbackPayouts(s.payouts, d);
  }

  lemma NoticeFallsBack(s: Store, a: Action)
    requires Possible(s, a) && IsHeard(s, a) && !FindsProcessing(s, a) && !FindsOther(s, a)
    ensures var s' := Serve(s, a); FallsBack(s, s', a.notice, a.TransferConfirmed?) && IsEntered(s, s', a.notice, a.TransferConfirmed?)
  {
    NoticeConditions(s, a);
    if a.TransferConfirmed? {
      ConfirmedFallsBack(s, a.notice, a.hit, a.at);
    } else {
      BouncedFallsBack(s, a.notice, a.hit, a.at);
    }
    hide Matches, Ignored, Rejected, IsHeard, FindsOther, TransferSuccess, PaymentStore.TransferFailed, FallsBack, IsEntered;
  }

  /**
   A transfer webhook that is repeated, for nobody, or about a transfer that can no longer get there changes
   nothing. Otherwise it is entered, and marks the transfer it finds or, without one to mark, payout and task.
   */
  lemma NoticeTells(s: Store, a: Action)
    requires Inv(s) && (a.TransferConfirmed? || a.TransferBounced?) && Possible(s, a)
    ensures var s' := Serve(s, a);
      if !IsHeard(s, a) || FindsOther(s, a) then s' == s
      else
        && IsEntered(s, s', a.notice, a.TransferConfirmed?)
        && match MarkIn(s, a)
           case Some(Marking(id, news)) => id in s.transfers && IsMarked(s, s', id, news, a.at) && s'.attempts == s.attempts
           case None => FallsBack(s, s', a.notice, a.TransferConfirmed?)
  {
    NoticeConditions(s, a);
    if IsHeard(s, a) && FindsProcessing(s, a) {
      NoticeMarks(s, a);
    } else if IsHeard(s, a) && !FindsOther(s, a) {
      NoticeFallsBack(s, a);
    }
    hide Inv, StoreCompleted, StoreFailed, IsMarked, FallsBack, IsEntered, IsHit, Matches, Ignored, Rejected, IsOnFile;
  }
}
