/**
 The payment services as the code runs them: objects that update rows and tables step by step.
 Every method leaves the tables as the function of the same name in PaymentStore says.
 */
module PaymentServices {
  import opened Common
  import opened TransferRow
  import opened TransferProtocol
  import opened PaymentStore

  /** A transfer row loaded into a session: the worker's own copy, edited in place. */
  class TransferRecord {
    const id: TransferId
    const taskId: string
    const payoutId: string
    const userId: string
    const amount: int
    const maxAttempts: nat
    const idempotencyKey: string
    var status: TransferStatus
    var attemptCount: nat
    var providerTransferId: Option<string>
    var nextRetryAt: Option<Time>
    var lastAttemptAt: Option<Time>
    var completedAt: Option<Time>
    var failedAt: Option<Time>
    var failureCode: Option<string>
    var version: nat
    var updatedAt: Time

    constructor Load(row: Transfer)
      ensures Row() == row
    {
      id, taskId, payoutId, userId := row.id, row.taskId, row.payoutId, row.userId;
      amount, maxAttempts, idempotencyKey := row.amount, row.maxAttempts, row.idempotencyKey;
      status, attemptCount, version := row.status, row.attemptCount, row.version;
      providerTransferId, failureCode := row.providerTransferId, row.failureCode;
      nextRetryAt, lastAttemptAt := row.nextRetryAt, row.lastAttemptAt;
      completedAt, failedAt, updatedAt := row.completedAt, row.failedAt, row.updatedAt;
    }

    function Row(): Transfer
      reads this
    {
      Transfer(id, taskId, payoutId, userId, amount, status, attemptCount, maxAttempts, providerTransferId,
               idempotencyKey, nextRetryAt, lastAttemptAt, completedAt, failedAt, failureCode, version, updatedAt)
    }

    /** Rejects a status the table does not allow and leaves the row alone. */
    method SetStatus(newStatus: TransferStatus, now: Time) returns (ok: bool)
      modifies this
      ensures ok == CanTransition(old(Row()), newStatus)
      ensures Row() == if ok then Transition(old(Row()), newStatus, now) else old(Row())
    {
      var allowed := ValidTransitions(status);
      if newStatus !in allowed {
        return false;
      }
      status := newStatus;
      version := version + 1;
      updatedAt := now;
      return true;
    }
  }

  function Bumped(lockVersions: map<TaskId, nat>, row: Option<TaskId>): map<TaskId, nat> {
    match row
    case None => lockVersions
    case Some(task) => lockVersions[task := (if task in lockVersions then lockVersions[task] else 1) + 1]
  }

  /** The tables, as committed. */
  class Database {
    var tasks: map<TaskId, Task>
    var payouts: map<TaskId, Payout>
    var transfers: map<TransferId, Transfer>
    var attempts: seq<Attempt>
    var transactions: seq<Transaction>
    var debts: seq<Debt>
    var jobs: seq<TransferId>
    var drawn: nat
    var lockVersions: map<TaskId, nat>

    function Snapshot(): Store
      reads this
    {
      Store(tasks, payouts, transfers, attempts, transactions, debts, jobs, drawn)
    }

    method SetPayoutStatus(task: TaskId, status: PayoutStatus)
      requires task in payouts
      modifies this`payouts
      ensures payouts == old(payouts)[task := old(payouts)[task].(status := status)]
    {
      var payout := payouts[task];
      payouts := payouts[task := payout.(status := status)];
    }

    method SetTaskStatus(task: TaskId, status: PaymentStatus)
      requires task in tasks
      modifies this`tasks
      ensures tasks == old(tasks)[task := old(tasks)[task].(status := Some(status))]
    {
      var row := tasks[task];
      tasks := tasks[task := row.(status := Some(status))];
    }

    /**
     Commits the compare-and-set on lock_version of the row that was locked, if any. The update
     itself always goes through when calls are serial.
     */
    method CommitLock(row: Option<TaskId>)
      modifies this`lockVersions
      ensures lockVersions == Bumped(old(lockVersions), row)
    {
      if row.Some? {
        var previous := if row.value in lockVersions then lockVersions[row.value] else 1;
        lockVersions := lockVersions[row.value := previous + 1];
      }
    }

    predicate IsBooked(reference: string, succeeded: bool)
      reads this
    {
      Booked(transactions, reference, succeeded)
    }
  }

  class TransferService {
    const db: Database

    constructor (db: Database)
      ensures this.db == db
    {
      this.db := db;
    }

    method CreateTransfer(payout: string, task: TaskId, user: string, amount: int, now: Time) returns (id: TransferId)
      requires UniquePayouts(db.transfers)
      modifies db`transfers, db`drawn
      ensures var s := old(db.Snapshot());
        db.Snapshot().(jobs := s.jobs + [id]) == CreateAndEnqueue(s, payout, task, user, amount, now)
      ensures id in db.transfers && db.transfers[id].payoutId == payout
    {
      if existing: TransferId :| existing in db.transfers && db.transfers[existing].payoutId == payout {
        return existing;
      }
      id := Uuid(db.drawn);
      db.drawn := db.drawn + 1;
      var row := NewTransfer(id, payout, task, user, amount, now);
      db.transfers := db.transfers[id := row];
    }

    method MarkCompleted(transfer: TransferRecord, providerId: Option<string>, now: Time) returns (ok: bool)
      modifies transfer, db`transfers, db`payouts, db`tasks
      ensures ok == (old(transfer.status) == Processing)
      ensures ok ==> transfer.Row() == Complete(old(transfer.Row()), providerId, now)
      ensures ok ==> transfer.providerTransferId == providerId && transfer.completedAt == Some(now) && transfer.nextRetryAt == None
      ensures ok ==> db.Snapshot() == StoreCompleted(old(db.Snapshot()), old(transfer.Row()), providerId, now)
      ensures !ok ==> db.Snapshot() == old(db.Snapshot()) && transfer.Row() == old(transfer.Row())
    {
      ok := transfer.SetStatus(TransferStatus.Completed, now);
      if !ok {
        return;
      }
      transfer.providerTransferId := providerId;
      transfer.completedAt := Some(now);
      transfer.nextRetryAt := None;
      assert transfer.Row() == Complete(old(transfer.Row()), providerId, now);
      hide Complete, Transition;
      db.transfers := db.transfers[transfer.id := transfer.Row()];
      if transfer.payoutId in db.payouts {
        var payout := db.payouts[transfer.payoutId];
        payout := payout.(status := PayoutStatus.Completed);
        if providerId.Some? && providerId.value != "" {
          payout := payout.(reference := providerId);
        }
        db.payouts := db.payouts[transfer.payoutId := payout];
      }
      if transfer.taskId in db.tasks && db.tasks[transfer.taskId].status != Some(PaymentStatus.Paid) {
        db.SetTaskStatus(transfer.taskId, PaymentStatus.Paid);
      }
    }

    method MarkFailed(transfer: TransferRecord, code: Option<string>, now: Time) returns (ok: bool)
      modifies transfer, db`transfers, db`payouts, db`tasks
      ensures ok == (old(transfer.status) == Processing)
      ensures ok ==> transfer.Row() == Fail(old(transfer.Row()), code, now)
      ensures ok ==> db.Snapshot() == StoreFailed(old(db.Snapshot()), old(transfer.Row()), code, now)
      ensures !ok ==> db.Snapshot() == old(db.Snapshot()) && transfer.Row() == old(transfer.Row())
    {
      ok := transfer.SetStatus(TransferStatus.Failed, now);
      if !ok {
        return;
      }
      transfer.failedAt := Some(now);
      transfer.failureCode := code;
      transfer.nextRetryAt := None;
      assert transfer.Row() == Fail(old(transfer.Row()), code, now);
      hide Fail, Transition;
      db.transfers := db.transfers[transfer.id := transfer.Row()];
      if transfer.payoutId in db.payouts && db.payouts[transfer.payoutId].status != PayoutStatus.Completed {
        db.SetPayoutStatus(transfer.payoutId, PayoutStatus.Cancelled);
      }
      if transfer.taskId in db.tasks && db.tasks[transfer.taskId].status != Some(PaymentStatus.Paid) {
        db.SetTaskStatus(transfer.taskId, PaymentStatus.Failed);
      }
    }

    method MarkRetry(transfer: TransferRecord, code: Option<string>, jitter: real, now: Time) returns (ok: bool)
      modifies transfer, db`transfers, db`payouts, db`tasks
      ensures ok == (old(transfer.status) == Processing)
      ensures ok ==>
        db.Snapshot() ==
        StoreRetry(old(db.Snapshot()), old(transfer.Row()), code, RetryDelay(old(transfer.attemptCount), jitter), now)
      ensures ok ==> transfer.Row() == Retry(old(transfer.Row()), code, RetryDelay(old(transfer.attemptCount), jitter), now)
      ensures !ok ==> db.Snapshot() == old(db.Snapshot()) && transfer.Row() == old(transfer.Row())
    {
      if transfer.attemptCount >= transfer.maxAttempts {
        ok := MarkFailed(transfer, if code.Some? then code else Some("MAX_ATTEMPTS_EXCEEDED"), now);
        return;
      }
      ok := transfer.SetStatus(Retrying, now);
      if !ok {
        return;
      }
      var delay := RetryDelay(transfer.attemptCount, jitter);
      transfer.nextRetryAt := Some(now + delay);
      transfer.failureCode := code;
      db.transfers := db.transfers[transfer.id := transfer.Row()];
    }

    /** One attempt. The provider's answer, or the missing destination, is an input. */
    method ProcessTransfer(id: TransferId, reply: Reply, jitter: real, now: Time) returns (found: bool)
      requires id in db.transfers ==> db.transfers[id].id == id
      modifies db`transfers, db`payouts, db`tasks, db`attempts
      ensures found == (id in old(db.transfers))
      ensures db.Snapshot() == PaymentStore.ProcessTransfer(old(db.Snapshot()), id, reply, jitter, now)
    {
      if id !in db.transfers {
        return false;
      }
      var transfer := new TransferRecord.Load(db.transfers[id]);
      if transfer.status == TransferStatus.Completed {
        return true;
      }
      if transfer.status != TransferStatus.Pending && transfer.status != Retrying {
        return true;
      }
      TakeClaim(transfer, now);
      MarkOutcome(transfer, reply, jitter, now);
      db.attempts := db.attempts + [Attempt(transfer.id, transfer.attemptCount, reply)];
      return true;
    }

    /** Commits the claim, which ends the row lock. */
    method TakeClaim(transfer: TransferRecord, now: Time)
      requires Claimable(transfer.Row())
      modifies transfer, db`transfers
      ensures transfer.Row() == Claim(old(transfer.Row()), now)
      ensures db.Snapshot() == SaveRow(old(db.Snapshot()), transfer.Row())
    {
      var ok := transfer.SetStatus(Processing, now);
      transfer.attemptCount := transfer.attemptCount + 1;
      transfer.lastAttemptAt := Some(now);
      db.transfers := db.transfers[transfer.id := transfer.Row()];
    }

    method MarkOutcome(transfer: TransferRecord, reply: Reply, jitter: real, now: Time)
      requires transfer.status == Processing
      modifies transfer, db`transfers, db`payouts, db`tasks
      ensures db.Snapshot() == StoreMarked(old(db.Snapshot()), old(transfer.Row()), reply, jitter, now)
      ensures transfer.attemptCount == old(transfer.attemptCount)
    {
      var ok;
      match reply {
        case NoAccount => ok := MarkFailed(transfer, Some("NO_PAYMENT_ACCOUNT"), now);
        case Succeeded(providerId) => ok := MarkCompleted(transfer, Some(providerId), now);
        case TemporaryError(code) => ok := MarkRetry(transfer, code, jitter, now);
        case PermanentError(code) => ok := MarkFailed(transfer, code, now);
      }
    }

    method ReconcileTransfer(id: TransferId, lookup: Lookup, jitter: real, now: Time) returns (found: bool)
      modifies db`transfers, db`payouts, db`tasks
      ensures found == (id in old(db.transfers))
      ensures db.Snapshot() == PaymentStore.ReconcileTransfer(old(db.Snapshot()), id, lookup, jitter, now)
    {
      if id !in db.transfers {
        return false;
      }
      var transfer := new TransferRecord.Load(db.transfers[id]);
      if transfer.status != Processing {
        return true;
      }
      var ok;
      match lookup {
        case FoundSuccess(providerId) => ok := MarkCompleted(transfer, Some(providerId), now);
        case FoundFailed => ok := MarkFailed(transfer, Some("RECONCILED_FAILED"), now);
        case Unknown => ok := MarkRetry(transfer, Some("RECONCILED_UNKNOWN"), jitter, now);
        case Unreachable =>
      }
      return true;
    }
  }

  class PaymentService {
    const db: Database
    const transferService: TransferService

    constructor (db: Database, transferService: TransferService)
      requires transferService.db == db
      ensures this.db == db && this.transferService == transferService
    {
      this.db, this.transferService := db, transferService;
    }

    method SumDebts(provider: string) returns (total: int)
      ensures total == Balance(db.debts, provider)
    {
      total := 0;
      var i := 0;
      while i < |db.debts|
        invariant 0 <= i <= |db.debts|
        invariant total == Balance(db.debts[..i], provider)
      {
        assert db.debts[..i + 1][..i] == db.debts[..i];
        if db.debts[i].provider == provider {
          total := total + db.debts[i].amount;
        }
        i := i + 1;
      }
      assert db.debts[..i] == db.debts;
    }

    method CountDebts(provider: string) returns (count: nat)
      ensures count == Entries(db.debts, provider)
    {
      count := 0;
      for i := 0 to |db.debts|
        invariant count == Entries(db.debts[..i], provider)
      {
        assert db.debts[..i + 1][..i] == db.debts[..i];
        if db.debts[i].provider == provider {
          count := count + 1;
        }
      }
      assert db.debts[..|db.debts|] == db.debts;
    }

    /** Takes what the provider owes out of the payout and returns what is left to transfer. */
    method OffsetDebt(task: TaskId, provider: string, resolved: int) returns (remaining: int)
      modifies db`debts, db`transactions
      ensures remaining == resolved - OffsetOf(resolved, Balance(old(db.debts), provider))
      ensures db.Snapshot() ==
        if Balance(old(db.debts), provider) > 0
        then WithOffset(old(db.Snapshot()), task, provider, resolved - remaining)
        else old(db.Snapshot())
    {
      var totalDebt := SumDebts(provider);
      remaining := resolved;
      var debtOffset := 0;
      if totalDebt > 0 {
        debtOffset := Min(resolved, totalDebt);
        remaining := resolved - debtOffset;
        db.debts := db.debts + [Debt(provider, Some(task), -debtOffset, PayoutOffset)];
        db.transactions := db.transactions +
          [Transaction(debtOffset, DebtSettlement, true, None, Some(provider), Some(task))];
      }
    }

    method ProcessProviderPayout(task: TaskId, provider: string, now: Time)
      requires transferService.db == db && UniquePayouts(db.transfers)
      modifies db
      ensures db.Snapshot() == ProcessPayout(old(db.Snapshot()), task, provider, now)
      ensures db.lockVersions == old(db.lockVersions)
    {
      hide Balance, CreateAndEnqueue, MarkInitiated;
      if task !in db.payouts || db.payouts[task].provider != provider {
        return;
      }
      if db.payouts[task].status != PayoutStatus.CustomerPaid {
        return;
      }
      var resolved := db.payouts[task].amount;
      if resolved == 0 {
        resolved := if task in db.tasks then db.tasks[task].providerPayout else 0;
      }
      var remaining := OffsetDebt(task, provider, resolved);
      if remaining > 0 {
        StartTransfer(task, provider, remaining, now);
      }
      SetInitiated(task, resolved);
    }

    /** The transfer is created and its job enqueued; the job starts after the payout is done. */
    method StartTransfer(task: TaskId, provider: string, amount: int, now: Time)
      requires transferService.db == db && UniquePayouts(db.transfers)
      modifies db`transfers, db`drawn, db`jobs
      ensures db.Snapshot() == CreateAndEnqueue(old(db.Snapshot()), task, task, provider, amount, now)
    {
      var id := transferService.CreateTransfer(task, task, provider, amount, now);
      db.jobs := db.jobs + [id];
    }

    method SetInitiated(task: TaskId, resolved: int)
      requires task in db.payouts
      modifies db`payouts, db`tasks
      ensures db.Snapshot() == MarkInitiated(old(db.Snapshot()), task, resolved)
    {
      db.payouts := db.payouts[task :=
        db.payouts[task].(amount := resolved, status := PayoutStatus.TransferInitiated)];
      if task in db.tasks {
        db.SetTaskStatus(task, PaymentStatus.TransferInitiated);
      }
    }

    method ProcessCashPayment(task: TaskId, provider: string)
      requires task in db.tasks
      modifies db`tasks, db`debts, db`payouts
      ensures db.Snapshot() == PayInCash(old(db.Snapshot()), task, provider)
    {
      var fee := db.tasks[task].platformFee;
      db.SetTaskStatus(task, PaymentStatus.CashPaid);
      if fee > 0 {
        db.debts := db.debts + [Debt(provider, Some(task), fee, CashTaskCommission)];
      }
      var amount;
      if db.tasks[task].providerPayout > 0 {
        amount := db.tasks[task].providerPayout;
      } else {
        amount := Max(0, db.tasks[task].price - fee);
      }
      if amount > 0 {
        db.payouts := db.payouts[task :=
          Payout(provider, db.tasks[task].customer, amount, db.tasks[task].price, PayoutStatus.Completed, None)];
      }
    }

    method ProcessOnlinePayment(task: TaskId, provider: string, reference: string)
      requires task in db.tasks
      modifies db`tasks, db`payouts
      ensures db.Snapshot() == RequestOnline(old(db.Snapshot()), task, provider, reference)
    {
      db.SetTaskStatus(task, PaymentStatus.PaymentRequested);
      if db.tasks[task].providerPayout > 0 {
        db.payouts := db.payouts[task :=
          Payout(provider, db.tasks[task].customer, db.tasks[task].providerPayout, db.tasks[task].price,
                 PayoutStatus.Pending, Some(reference))];
      }
    }

    /**
     What is shown to a provider: what the ledger says is owed, never below zero, and the number of
     its entries. Rounding to the kobo changes nothing here, amounts being whole kobo.
     */
    method GetProviderDebtSummary(provider: string) returns (owed: int, pending: nat)
      ensures owed >= 0
      ensures Balance(db.debts, provider) >= 0 ==> owed == Balance(db.debts, provider)
      ensures Balance(db.debts, provider) < 0 ==> owed == 0
      ensures pending == Entries(db.debts, provider)
    {
      var total := SumDebts(provider);
      pending := CountDebts(provider);
      owed := Max(0, total);
    }

    method ReinitiatePayout(users: set<string>, task: TaskId, customer: string, reference: string)
      returns (result: Outcome<ReinitiateError>)
      modifies db`payouts
      ensures result == ReinitiateCheck(old(db.Snapshot()), users, task, customer)
      ensures db.Snapshot() == Reinitiate(old(db.Snapshot()), users, task, customer, reference)
    {
      if task !in db.payouts || db.payouts[task].customer != Some(customer) {
        return Raised(PayoutNotFound);
      }
      if db.payouts[task].status != PayoutStatus.Pending {
        return Raised(NotPending);
      }
      if task !in db.tasks {
        return Raised(TaskNotFound);
      }
      if customer !in users {
        return Raised(CustomerNotFound);
      }
      if db.tasks[task].price <= 0 {
        return Raised(InvalidPrice);
      }
      db.payouts := db.payouts[task := db.payouts[task].(reference := Some(reference))];
      return Done;
    }
  }

  class PaymentWebhookProcessor {
    const db: Database
    const paymentService: PaymentService

    constructor (db: Database, paymentService: PaymentService)
      requires paymentService.db == db
      ensures this.db == db && this.paymentService == paymentService
    {
      this.db, this.paymentService := db, paymentService;
    }

    /** The payout row that a charge for the task locks. */
    function ChargeLocks(d: Charge): Option<TaskId>
      reads db
    {
      if d.kind != ForDebt && d.task.Some? && d.task.value in db.payouts then d.task else None
    }

    /**
     A refused charge commits its bump of the version only with the log entries that are flushed
     through the same database session.
     */
    method HandleChargeSuccess(d: Charge, now: Time, flushed: bool)
      requires paymentService.db == db && paymentService.transferService.db == db && UniquePayouts(db.transfers)
      modifies db
      ensures db.Snapshot() == ChargeSuccess(old(db.Snapshot()), d, now)
      ensures d.kind == ForTask && d.task.Some? && (d.task.value in old(db.tasks) ==> 0 < d.amount < old(db.tasks)[d.task.value].price)
        ==> db.Snapshot() == old(db.Snapshot())
      ensures db.lockVersions ==
        if Accepted(old(db.Snapshot()), d) || (flushed && !Blank(d.reference))
        then Bumped(old(db.lockVersions), old(ChargeLocks(d))) else old(db.lockVersions)
    {
      if Blank(d.reference) {
        return;
      }
      var row := ChargeLocks(d);
      var refused := CannotBook(d);
      if refused {
        if flushed {
          db.CommitLock(row);
        }
        return;
      }
      db.transactions := db.transactions +
        [Transaction(d.amount, if d.kind == ForDebt then DebtSettlement else TaskPayment, true,
                     Some(d.reference), d.user, d.task)];
      db.CommitLock(row);
      if d.kind == ForDebt {
        var debtor := if d.provider.Some? then d.provider else d.user;
        if debtor.Some? {
          db.debts := db.debts + [Debt(debtor.value, None, -d.amount, DebtPayment)];
        }
        return;
      }
      if d.kind == ForTask && d.task.Some? {
        AdvanceTaskPayment(d.task.value, now);
      }
    }

    /** Already booked, for no task, or not enough. */
    method CannotBook(d: Charge) returns (refused: bool)
      requires !Blank(d.reference)
      ensures refused == !Accepted(db.Snapshot(), d)
    {
      if db.IsBooked(d.reference, true) {
        return true;
      }
      if d.kind == ForTask && d.task.Some? {
        if d.task.value !in db.tasks {
          return true;
        }
        var price := db.tasks[d.task.value].price;
        if price > 0 && d.amount < price {
          return true;
        }
      }
      return false;
    }

    /** Step 5 of the handler: moves an unpaid task on and triggers its payout. */
    method AdvanceTaskPayment(task: TaskId, now: Time)
      requires paymentService.db == db && paymentService.transferService.db == db && UniquePayouts(db.transfers)
      requires task in db.tasks
      modifies db
      ensures db.Snapshot() == AdvanceTask(old(db.Snapshot()), task, now)
      ensures db.lockVersions == old(db.lockVersions)
    {
      var row := db.tasks[task];
      if !AwaitingPayment(row.status) {
        return;
      }
      db.SetTaskStatus(task, PaymentStatus.CustomerPaid);
      if task in db.payouts && row.assignedProvider == Some(db.payouts[task].provider)
         && db.payouts[task].status in {PayoutStatus.Pending, PayoutStatus.Cancelled} {
        db.SetPayoutStatus(task, PayoutStatus.CustomerPaid);
      }
      var provider := if row.assignedProvider.Some? then row.assignedProvider else row.assignmentProvider;
      if provider.Some? {
        paymentService.ProcessProviderPayout(task, provider.value, now);
      }
    }

    method HandleChargeFailed(d: Charge, flushed: bool)
      modifies db`transactions, db`lockVersions
      ensures db.Snapshot() == ChargeFailed(old(db.Snapshot()), d)
      ensures var row := if d.task.Some? && d.task.value in db.payouts then d.task else None;
        db.lockVersions ==
        if d.reference != "" && d.user.Some? && (flushed || !Booked(old(db.transactions), d.reference, false))
        then Bumped(old(db.lockVersions), row) else old(db.lockVersions)
    {
      if d.reference == "" || d.user.None? {
        return;
      }
      var row := if d.task.Some? && d.task.value in db.payouts then d.task else None;
      if db.IsBooked(d.reference, false) {
        if flushed {
          db.CommitLock(row);
        }
        return;
      }
      db.transactions := db.transactions +
        [Transaction(d.amount, TaskPayment, false, Some(d.reference), d.user, d.task)];
      db.CommitLock(row);
    }
  }

  /** The row whose lock a transfer webhook takes; the query may match several. */
  predicate IsLocked(payouts: map<TaskId, Payout>, d: Notice, row: Option<TaskId>) {
    match row
    case Some(task) => task in payouts && Locks(d, task, payouts[task])
    case None => forall task | task in payouts :: !Locks(d, task, payouts[task])
  }

  predicate Locks(d: Notice, task: TaskId, payout: Payout) {
    payout.reference == Some(d.reference) || d.task == Some(task)
  }

  /** If the handler commits, the version of the row it locked is bumped. */
  ghost predicate OneBumped(payouts: map<TaskId, Payout>, d: Notice, before: map<TaskId, nat>, after: map<TaskId, nat>, commits: bool) {
    exists row :: IsLocked(payouts, d, row) && after == if commits then Bumped(before, row) else before
  }

  class TransferWebhookProcessor {
    const db: Database
    const transferService: TransferService

    constructor (db: Database, transferService: TransferService)
      requires transferService.db == db
      ensures this.db == db && this.transferService == transferService
    {
      this.db, this.transferService := db, transferService;
    }

    method LockPayout(d: Notice) returns (row: Option<TaskId>)
      ensures IsLocked(db.payouts, d, row)
    {
      row := None;
      if task :| task in db.payouts && Locks(d, task, db.payouts[task]) {
        row := Some(task);
      }
    }

    method Book(d: Notice, succeeded: bool)
      modifies db`transactions
      ensures db.Snapshot() == BookNotice(old(db.Snapshot()), d, succeeded)
    {
      db.transactions := db.transactions +
        [Transaction(if d.amount >= 0 then -d.amount else d.amount, ProviderPayout, succeeded,
                     Some(d.reference), Some(d.user), d.task)];
    }

    /** Marks the transfer that was found, or updates payout and task directly. */
    method ApplySuccess(d: Notice, hit: Option<TransferId>, now: Time) returns (ok: bool)
      requires transferService.db == db && IsHit(db.Snapshot(), d, hit) && !Ignored(db.Snapshot(), d, true)
      modifies db
      ensures ok == !Rejected(old(db.Snapshot()), hit, TransferStatus.Completed)
      ensures ok ==> BookNotice(db.Snapshot(), d, true) == TransferSuccess(old(db.Snapshot()), d, hit, now)
      ensures !ok ==> db.Snapshot() == old(db.Snapshot())
      ensures db.lockVersions == old(db.lockVersions)
    {
      hide StoreCompleted, FallbackCompleted, Ignored;
      if hit.Some? && db.transfers[hit.value].status != TransferStatus.Completed {
        var transfer := new TransferRecord.Load(db.transfers[hit.value]);
        ok := transferService.MarkCompleted(transfer, Some(d.reference), now);
      } else {
        db.payouts := FallbackCompleted(db.payouts, d);
        if d.task.Some? && d.task.value in db.tasks && db.tasks[d.task.value].status != Some(PaymentStatus.Paid) {
          db.SetTaskStatus(d.task.value, PaymentStatus.Paid);
        }
        ok := true;
      }
    }

    /** ok is false when the state machine rejects the mark, which the code raises. */
    method HandleTransferSuccess(d: Notice, hit: Option<TransferId>, now: Time, flushed: bool) returns (ok: bool)
      requires transferService.db == db && IsHit(db.Snapshot(), d, hit)
      modifies db
      ensures ok == (Ignored(old(db.Snapshot()), d, true) || !Rejected(old(db.Snapshot()), hit, TransferStatus.Completed))
      ensures db.Snapshot() == TransferSuccess(old(db.Snapshot()), d, hit, now)
      ensures OneBumped(old(db.payouts), d, old(db.lockVersions), db.lockVersions,
        d.reference != "" && d.user != "" && (flushed || (ok && !Ignored(old(db.Snapshot()), d, true))))
    {
      hide Bumped, Booked, Rejected, BookNotice;
      var row := LockPayout(d);
      if d.reference == "" || d.user == "" {
        return true;
      }
      var handled := false;
      ok := true;
      if !db.IsBooked(d.reference, true) {
        ok := ApplySuccess(d, hit, now);
        handled := ok;
      }
      if handled {
        Book(d, true);
      }
      if handled || flushed {
        db.CommitLock(row);
      }
    }

    /** Marks the transfer that was found, or updates payout and task directly. */
    method ApplyFailed(d: Notice, hit: Option<TransferId>, now: Time) returns (ok: bool)
      requires transferService.db == db && IsHit(db.Snapshot(), d, hit) && !Ignored(db.Snapshot(), d, false)
      modifies db
      ensures ok == !Rejected(old(db.Snapshot()), hit, TransferStatus.Failed)
      ensures ok ==> BookNotice(db.Snapshot(), d, false) == TransferFailed(old(db.Snapshot()), d, hit, now)
      ensures !ok ==> db.Snapshot() == old(db.Snapshot())
      ensures db.lockVersions == old(db.lockVersions)
    {
      hide StoreFailed, FallbackCancelled, Ignored;
      if hit.Some? && db.transfers[hit.value].status != TransferStatus.Failed {
        var transfer := new TransferRecord.Load(db.transfers[hit.value]);
        ok := transferService.MarkFailed(transfer, Some("WEBHOOK_FAILED"), now);
      } else {
        db.payouts := FallbackCancelled(db.payouts, d);
        if d.task.Some? && d.task.value in db.tasks && db.tasks[d.task.value].status != Some(PaymentStatus.Paid) {
          db.SetTaskStatus(d.task.value, PaymentStatus.Failed);
        }
        ok := true;
      }
    }

    method HandleTransferFailed(d: Notice, hit: Option<TransferId>, now: Time, flushed: bool) returns (ok: bool)
      requires transferService.db == db && IsHit(db.Snapshot(), d, hit)
      modifies db
      ensures ok == (Ignored(old(db.Snapshot()), d, false) || !Rejected(old(db.Snapshot()), hit, TransferStatus.Failed))
      ensures db.Snapshot() == TransferFailed(old(db.Snapshot()), d, hit, now)
      ensures OneBumped(old(db.payouts), d, old(db.lockVersions), db.lockVersions,
        d.reference != "" && d.user != "" && (flushed || (ok && !Ignored(old(db.Snapshot()), d, false))))
    {
      hide Bumped, Booked, Rejected, BookNotice;
      var row := LockPayout(d);
      if d.reference == "" || d.user == "" {
        return true;
      }
      var handled := false;
      ok := true;
      if !db.IsBooked(d.reference, false) {
        ok := ApplyFailed(d, hit, now);
        handled := ok;
      }
      if handled {
        Book(d, false);
      }
      if handled || flushed {
        db.CommitLock(row);
      }
    }
  }
}
