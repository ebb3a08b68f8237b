/**
 The payment tables and, for each service call, the table contents it leaves behind.
 A payout row is identified by its task: a task has one payout.
 */
module PaymentStore {
  import opened Common
  import opened TransferRow
  import opened TransferProtocol

  datatype PaymentStatus =
    Pending | PaymentRequested | CustomerPaid | TransferInitiated | Paid | CashPaid | Failed

  datatype PayoutStatus = Pending | CustomerPaid | TransferInitiated | Completed | Cancelled | Failed

  type TaskId = string

  /** Amounts are in kobo; 0 stands for a missing amount, which the code treats alike. */
  datatype Task = Task(
    price: int,
    providerPayout: int,
    platformFee: int,
    assignedProvider: Option<string>,
    assignmentProvider: Option<string>,
    customer: Option<string>,
    status: Option<PaymentStatus>)

  datatype Payout = Payout(
    provider: string,
    customer: Option<string>,
    amount: int,
    charged: int,
    status: PayoutStatus,
    reference: Option<string>)

  datatype TransactionKind = TaskPayment | ProviderPayout | DebtSettlement

  datatype Transaction = Transaction(
    amount: int, kind: TransactionKind, succeeded: bool,
    reference: Option<string>, user: Option<string>, task: Option<TaskId>)

  datatype DebtReason = CashTaskCommission | DebtPayment | PayoutOffset

  datatype Debt = Debt(provider: string, task: Option<TaskId>, amount: int, reason: DebtReason)

  datatype Store = Store(
    tasks: map<TaskId, Task>,
    payouts: map<TaskId, Payout>,
    transfers: map<TransferId, Transfer>,
    attempts: seq<Attempt>,
    transactions: seq<Transaction>,
    debts: seq<Debt>,
    jobs: seq<TransferId>,
    drawn: nat)

  /** The n-th identifier uuid4 hands out; all that matters is that no two are equal. */
  function Uuid(n: nat): string {
    seq(n, _ => '-')
  }

  // ── TransferService ─────────────────────────────────────────────────────

  function SaveRow(s: Store, row: Transfer): Store {
    s.(transfers := s.transfers[row.id := row])
  }

  function SettlePayout(s: Store, task: TaskId, providerId: Option<string>): Store {
    if task !in s.payouts then s else
      var payout := s.payouts[task].(status := PayoutStatus.Completed);
      s.(payouts := s.payouts[task :=
        if providerId.Some? && providerId.value != "" then payout.(reference := providerId) else payout])
  }

  function SetTaskUnlessPaid(s: Store, task: TaskId, status: PaymentStatus): Store {
    if task in s.tasks && s.tasks[task].status != Some(PaymentStatus.Paid)
    then s.(tasks := s.tasks[task := s.tasks[task].(status := Some(status))])
    else s
  }

  function CancelPayout(s: Store, task: TaskId): Store {
    if task in s.payouts && s.payouts[task].status != PayoutStatus.Completed
    then s.(payouts := s.payouts[task := s.payouts[task].(status := PayoutStatus.Cancelled)])
    else s
  }

  /** _mark_completed: the transfer, then its payout, then its task. */
  function StoreCompleted(s: Store, row: Transfer, providerId: Option<string>, now: Time): Store
    requires row.status == Processing
  {
    var saved := SaveRow(s, Complete(row, providerId, now));
    SetTaskUnlessPaid(SettlePayout(saved, row.payoutId, providerId), row.taskId, PaymentStatus.Paid)
  }

  /** _mark_failed: settled payouts and tasks are left alone. */
  function StoreFailed(s: Store, row: Transfer, code: Option<string>, now: Time): Store
    requires row.status == Processing
  {
    var saved := SaveRow(s, Fail(row, code, now));
    SetTaskUnlessPaid(CancelPayout(saved, row.payoutId), row.taskId, PaymentStatus.Failed)
  }

  function StoreRetry(s: Store, row: Transfer, code: Option<string>, delay: Time, now: Time): Store
    requires row.status == Processing
  {
    if row.attemptCount >= row.maxAttempts
    then StoreFailed(s, row, if code.Some? then code else Some("MAX_ATTEMPTS_EXCEEDED"), now)
    else SaveRow(s, Retry(row, code, delay, now))
  }

  function StoreMarked(s: Store, row: Transfer, reply: Reply, jitter: real, now: Time): Store
    requires row.status == Processing
  {
    match reply
    case Succeeded(providerId) => StoreCompleted(s, row, Some(providerId), now)
    case TemporaryError(code) => StoreRetry(s, row, code, RetryDelay(row.attemptCount, jitter), now)
    case PermanentError(code) => StoreFailed(s, row, code, now)
    case NoAccount => StoreFailed(s, row, Some("NO_PAYMENT_ACCOUNT"), now)
  }

  /** process_transfer run without interference; NoAccount stands for the missing destination. */
  function ProcessTransfer(s: Store, id: TransferId, reply: Reply, jitter: real, now: Time): Store {
    if id !in s.transfers || !Claimable(s.transfers[id]) then s else
      var claimed := Claim(s.transfers[id], now);
      var marked := StoreMarked(SaveRow(s, claimed), claimed, reply, jitter, now);
      marked.(attempts := marked.attempts + [Attempt(id, claimed.attemptCount, reply)])
  }

  /** process_transfer cut off by a crash once the claim is committed. */
  function ClaimOnly(s: Store, id: TransferId, now: Time): Store {
    if id !in s.transfers || !Claimable(s.transfers[id]) then s else SaveRow(s, Claim(s.transfers[id], now))
  }

  function ReconcileTransfer(s: Store, id: TransferId, lookup: Lookup, jitter: real, now: Time): Store {
    if id !in s.transfers || s.transfers[id].status != Processing then s else
      var row := s.transfers[id];
      match lookup
      case FoundSuccess(providerId) => StoreCompleted(s, row, Some(providerId), now)
      case FoundFailed => StoreFailed(s, row, Some("RECONCILED_FAILED"), now)
      case Unknown => StoreRetry(s, row, Some("RECONCILED_UNKNOWN"), RetryDelay(row.attemptCount, jitter), now)
      case Unreachable => s
  }

  /** The unique key on transfers.payout_id. */
  predicate UniquePayouts(transfers: map<TransferId, Transfer>) {
    forall t, u | t in transfers && u in transfers :: transfers[t].payoutId == transfers[u].payoutId ==> t == u
  }

  ghost function TransferFor(transfers: map<TransferId, Transfer>, payout: string): (t: TransferId)
    requires HasPayout(transfers, payout)
    ensures t in transfers && transfers[t].payoutId == payout
  {
    var t :| t in transfers && transfers[t].payoutId == payout; t
  }

  /** create_transfer, then the enqueued job. */
  ghost function CreateAndEnqueue(s: Store, payout: string, task: TaskId, user: string, amount: int, now: Time): Store {
    if HasPayout(s.transfers, payout) then
      s.(jobs := s.jobs + [TransferFor(s.transfers, payout)])
    else
      var row := NewTransfer(Uuid(s.drawn), payout, task, user, amount, now);
      SaveRow(s, row).(jobs := s.jobs + [row.id], drawn := s.drawn + 1)
  }

  // ── PaymentService ──────────────────────────────────────────────────────

  /** SUM(amount) over the provider's ledger entries. */
  function Balance(debts: seq<Debt>, provider: string): int {
    if |debts| == 0 then 0 else
      Balance(debts[..|debts| - 1], provider) +
      (if debts[|debts| - 1].provider == provider then debts[|debts| - 1].amount else 0)
  }

  /** COUNT(id) of the provider's ledger entries. */
  function Entries(debts: seq<Debt>, provider: string): nat {
    if |debts| == 0 then 0 else
      Entries(debts[..|debts| - 1], provider) + (if debts[|debts| - 1].provider == provider then 1 else 0)
  }

  function Gross(s: Store, task: TaskId): int
    requires task in s.payouts
  {
    if s.payouts[task].amount != 0 then s.payouts[task].amount
    else if task in s.tasks then s.tasks[task].providerPayout else 0
  }

  function OffsetOf(gross: int, debt: int): int {
    if debt > 0 then Min(gross, debt) else 0
  }

  /** A payout the service is willing to pay out: it exists for this provider and the customer has paid. */
  predicate Payable(s: Store, task: TaskId, provider: string) {
    task in s.payouts && s.payouts[task].provider == provider
    && s.payouts[task].status == PayoutStatus.CustomerPaid
  }

  function WithOffset(s: Store, task: TaskId, provider: string, offset: int): Store {
    s.(debts := s.debts + [Debt(provider, Some(task), -offset, PayoutOffset)],
       transactions := s.transactions + [Transaction(offset, DebtSettlement, true, None, Some(provider), Some(task))])
  }

  function MarkInitiated(s: Store, task: TaskId, gross: int): Store
    requires task in s.payouts
  {
    var payout := s.payouts[task].(amount := gross, status := PayoutStatus.TransferInitiated);
    var withPayout := s.(payouts := s.payouts[task := payout]);
    if task in s.tasks
    then withPayout.(tasks := s.tasks[task := s.tasks[task].(status := Some(PaymentStatus.TransferInitiated))])
    else withPayout
  }

  /** What the provider owes comes out of the payout first. */
  function OffsetStage(s: Store, task: TaskId, provider: string): Store
    requires task in s.payouts
  {
    var debt := Balance(s.debts, provider);
    if debt > 0 then WithOffset(s, task, provider, OffsetOf(Gross(s, task), debt)) else s
  }

  function Net(s: Store, task: TaskId, provider: string): int
    requires task in s.payouts
  {
    Gross(s, task) - OffsetOf(Gross(s, task), Balance(s.debts, provider))
  }

  /** What is left is handed to a durable transfer. */
  ghost function TransferStage(s: Store, task: TaskId, provider: string, now: Time): Store
    requires task in s.payouts
  {
    var afterOffset := OffsetStage(s, task, provider);
    if Net(s, task, provider) > 0
    then CreateAndEnqueue(afterOffset, task, task, provider, Net(s, task, provider), now)
    else afterOffset
  }

  ghost function ProcessPayout(s: Store, task: TaskId, provider: string, now: Time): Store {
    if Payable(s, task, provider)
    then MarkInitiated(TransferStage(s, task, provider, now), task, Gross(s, task))
    else s
  }

  /** What process_provider_payout commits, one after the other. */
  datatype PayStage = OffsetEntry | OffsetAudited | TransferCreated | JobQueued | PayoutMarked

  /** The stage is reached: there is a debt to offset, or something left to transfer. */
  predicate StopsAt(s: Store, task: TaskId, provider: string, stage: PayStage) {
    && Payable(s, task, provider)
    && (stage.OffsetEntry? || stage.OffsetAudited? ==> Balance(s.debts, provider) > 0)
    && (stage.TransferCreated? || stage.JobQueued? ==> Net(s, task, provider) > 0)
  }

  /** process_provider_payout cut off by a crash after the given commit. */
  ghost function PayoutUpTo(s: Store, task: TaskId, provider: string, now: Time, stage: PayStage): Store
    requires task in s.payouts
  {
    match stage
    case OffsetEntry => s.(debts := OffsetStage(s, task, provider).debts)
    case OffsetAudited => OffsetStage(s, task, provider)
    case TransferCreated => TransferStage(s, task, provider, now).(jobs := s.jobs)
    case JobQueued => TransferStage(s, task, provider, now)
    case PayoutMarked => MarkInitiated(TransferStage(s, task, provider, now), task, Gross(s, task)).(tasks := s.tasks)
  }

  function CashPayout(task: Task): int {
    if task.providerPayout > 0 then task.providerPayout else Max(0, task.price - task.platformFee)
  }

  function PayInCash(s: Store, task: TaskId, provider: string): Store
    requires task in s.tasks
  {
    var row := s.tasks[task];
    var paid := s.(tasks := s.tasks[task := row.(status := Some(PaymentStatus.CashPaid))]);
    var withDebt :=
      if row.platformFee > 0
      then paid.(debts := s.debts + [Debt(provider, Some(task), row.platformFee, CashTaskCommission)])
      else paid;
    if CashPayout(row) > 0
    then withDebt.(payouts := s.payouts[task :=
           Payout(provider, row.customer, CashPayout(row), row.price, PayoutStatus.Completed, None)])
    else withDebt
  }

  function RequestOnline(s: Store, task: TaskId, provider: string, reference: string): Store
    requires task in s.tasks
  {
    var row := s.tasks[task];
    var requested := s.(tasks := s.tasks[task := row.(status := Some(PaymentStatus.PaymentRequested))]);
    if row.providerPayout > 0
    then requested.(payouts := s.payouts[task :=
           Payout(provider, row.customer, row.providerPayout, row.price, PayoutStatus.Pending, Some(reference))])
    else requested
  }

  datatype ReinitiateError = PayoutNotFound | NotPending | TaskNotFound | CustomerNotFound | InvalidPrice

  function ReinitiateCheck(s: Store, users: set<string>, task: TaskId, customer: string): Outcome<ReinitiateError> {
    if task !in s.payouts || s.payouts[task].customer != Some(customer) then Raised(PayoutNotFound)
    else if s.payouts[task].status != PayoutStatus.Pending then Raised(NotPending)
    else if task !in s.tasks then Raised(TaskNotFound)
    else if customer !in users then Raised(CustomerNotFound)
    else if s.tasks[task].price <= 0 then Raised(InvalidPrice)
    else Done
  }

  function Reinitiate(s: Store, users: set<string>, task: TaskId, customer: string, reference: string): Store {
    if ReinitiateCheck(s, users, task, customer).Done?
    then s.(payouts := s.payouts[task := s.payouts[task].(reference := Some(reference))])
    else s
  }

  // ── Charge webhooks ─────────────────────────────────────────────────────

  datatype ChargeKind = ForTask | ForDebt | Other

  datatype Charge = Charge(
    reference: string, amount: int, user: Option<string>, task: Option<TaskId>,
    kind: ChargeKind, provider: Option<string>)

  predicate IsSpace(c: char) {
    c == ' ' || c == '\t' || c == '\n' || c == '\r'
  }

  predicate Blank(text: string) {
    forall i | 0 <= i < |text| :: IsSpace(text[i])
  }

  /** A transaction of this outcome is already booked under the reference. */
  predicate Booked(transactions: seq<Transaction>, reference: string, succeeded: bool) {
    exists i | 0 <= i < |transactions| ::
      transactions[i].reference == Some(reference) && transactions[i].succeeded == succeeded
  }

  /** The charge is for a task the webhook looks up. */
  predicate NamesTask(d: Charge) {
    d.kind == ForTask && d.task.Some?
  }

  /** The task exists and the amount covers its price, if it has one. */
  predicate Covers(s: Store, d: Charge)
    requires NamesTask(d)
  {
    d.task.value in s.tasks && (s.tasks[d.task.value].price > 0 ==> d.amount >= s.tasks[d.task.value].price)
  }

  predicate Accepted(s: Store, d: Charge) {
    !Blank(d.reference) && !Booked(s.transactions, d.reference, true) && (NamesTask(d) ==> Covers(s, d))
  }

  /** Payment statuses from which a charge moves the task on. */
  predicate AwaitingPayment(status: Option<PaymentStatus>) {
    status in {None, Some(PaymentStatus.Pending), Some(PaymentStatus.PaymentRequested), Some(PaymentStatus.Failed)}
  }

  function MarkCustomerPaid(s: Store, task: TaskId): Store
    requires task in s.tasks
  {
    var row := s.tasks[task];
    var paid := s.(tasks := s.tasks[task := row.(status := Some(PaymentStatus.CustomerPaid))]);
    if task in s.payouts && row.assignedProvider == Some(s.payouts[task].provider)
       && s.payouts[task].status in {PayoutStatus.Pending, PayoutStatus.Cancelled}
    then paid.(payouts := s.payouts[task := s.payouts[task].(status := PayoutStatus.CustomerPaid)])
    else paid
  }

  function PayoutProvider(task: Task): Option<string> {
    if task.assignedProvider.Some? then task.assignedProvider else task.assignmentProvider
  }

  /** Step 5 of handle_charge_success. */
  ghost function AdvanceTask(s: Store, task: TaskId, now: Time): Store
    requires task in s.tasks
  {
    if !AwaitingPayment(s.tasks[task].status) then s else
      var paid := MarkCustomerPaid(s, task);
      if PayoutProvider(s.tasks[task]).Some?
      then ProcessPayout(paid, task, PayoutProvider(s.tasks[task]).value, now)
      else paid
  }

  function BookCharge(s: Store, d: Charge): Store {
    s.(transactions := s.transactions +
      [Transaction(d.amount, if d.kind == ForDebt then DebtSettlement else TaskPayment, true,
                   Some(d.reference), d.user, d.task)])
  }

  function Payer(d: Charge): Option<string> {
    if d.provider.Some? then d.provider else d.user
  }

  function SettleDebt(s: Store, d: Charge): Store {
    if Payer(d).Some? then s.(debts := s.debts + [Debt(Payer(d).value, None, -d.amount, DebtPayment)]) else s
  }

  ghost function ChargeSuccess(s: Store, d: Charge, now: Time): Store {
    if !Accepted(s, d) then s
    else if d.kind == ForDebt then SettleDebt(BookCharge(s, d), d)
    else if NamesTask(d) then AdvanceTask(BookCharge(s, d), d.task.value, now)
    else BookCharge(s, d)
  }

  /** What handle_charge_success commits before and while it triggers a payout. */
  datatype ChargeStage = Booking | TaskPaid | Paying(stage: PayStage)

  predicate MovesTask(s: Store, d: Charge) {
    Accepted(s, d) && d.kind != ForDebt && NamesTask(d) && AwaitingPayment(s.tasks[d.task.value].status)
  }

  /** The tables from which an accepted charge triggers the payout. */
  function BeforePayout(s: Store, d: Charge): Store
    requires MovesTask(s, d)
  {
    MarkCustomerPaid(BookCharge(s, d), d.task.value)
  }

  function ChargeProvider(s: Store, d: Charge): Option<string>
    requires MovesTask(s, d)
  {
    PayoutProvider(s.tasks[d.task.value])
  }

  predicate ChargeStopsAt(s: Store, d: Charge, stage: ChargeStage) {
    match stage
    case Booking => Accepted(s, d)
    case TaskPaid => MovesTask(s, d)
    case Paying(payStage) =>
      && MovesTask(s, d) && ChargeProvider(s, d).Some?
      && StopsAt(BeforePayout(s, d), d.task.value, ChargeProvider(s, d).value, payStage)
  }

  /**
   handle_charge_success cut off by a crash after the given commit. The payout row reads
   CUSTOMER_PAID only with the next commit after that of the task.
   */
  ghost function ChargeUpTo(s: Store, d: Charge, now: Time, stage: ChargeStage): Store
    requires ChargeStopsAt(s, d, stage)
  {
    match stage
    case Booking => BookCharge(s, d)
    case TaskPaid => BookCharge(s, d).(tasks := BeforePayout(s, d).tasks)
    case Paying(payStage) => PayoutUpTo(BeforePayout(s, d), d.task.value, ChargeProvider(s, d).value, now, payStage)
  }

  function ChargeFailed(s: Store, d: Charge): Store {
    if d.reference == "" || d.user.None? || Booked(s.transactions, d.reference, false) then s
    else s.(transactions := s.transactions +
           [Transaction(d.amount, TaskPayment, false, Some(d.reference), d.user, d.task)])
  }

  // ── Transfer webhooks ───────────────────────────────────────────────────

  datatype Notice = Notice(reference: string, amount: int, user: string, task: Option<TaskId>)

  predicate Matches(row: Transfer, d: Notice) {
    row.providerTransferId == Some(d.reference) || row.idempotencyKey == d.reference || d.task == Some(row.taskId)
  }

  /** What the transfer query may return: any matching row, or none when there is none. */
  predicate IsHit(s: Store, d: Notice, hit: Option<TransferId>) {
    match hit
    case Some(t) => t in s.transfers && Matches(s.transfers[t], d)
    case None => forall t | t in s.transfers :: !Matches(s.transfers[t], d)
  }

  /** The payout rows the fallback updates address. */
  predicate Addressed(d: Notice, task: TaskId, payout: Payout) {
    if d.task.Some? then d.task.value == task else payout.reference == Some(d.reference)
  }

  function FallbackCompleted(payouts: map<TaskId, Payout>, d: Notice): map<TaskId, Payout> {
    map t | t in payouts ::
      if Addressed(d, t, payouts[t])
         && payouts[t].status in {PayoutStatus.Pending, PayoutStatus.CustomerPaid, PayoutStatus.TransferInitiated}
      then payouts[t].(status := PayoutStatus.Completed) else payouts[t]
  }

  function FallbackCancelled(payouts: map<TaskId, Payout>, d: Notice): map<TaskId, Payout> {
    map t | t in payouts ::
      if Addressed(d, t, payouts[t]) && payouts[t].status != PayoutStatus.Completed
      then payouts[t].(status := PayoutStatus.Cancelled) else payouts[t]
  }

  function BookNotice(s: Store, d: Notice, succeeded: bool): Store {
    s.(transactions := s.transactions +
      [Transaction(if d.amount >= 0 then -d.amount else d.amount, ProviderPayout, succeeded,
                   Some(d.reference), Some(d.user), d.task)])
  }

  /** The handler gives up before changing anything. */
  predicate Ignored(s: Store, d: Notice, succeeded: bool) {
    d.reference == "" || d.user == "" || Booked(s.transactions, d.reference, succeeded)
  }

  /** The state machine rejects the mark: the transfer found is neither Processing nor already there. */
  predicate Rejected(s: Store, hit: Option<TransferId>, goal: TransferStatus)
    requires hit.Some? ==> hit.value in s.transfers
  {
    hit.Some? && s.transfers[hit.value].status != goal && s.transfers[hit.value].status != Processing
  }

  function TransferSuccess(s: Store, d: Notice, hit: Option<TransferId>, now: Time): Store
    requires IsHit(s, d, hit)
  {
    if Ignored(s, d, true) || Rejected(s, hit, TransferStatus.Completed) then s
    else if hit.Some? && s.transfers[hit.value].status == Processing then
      BookNotice(StoreCompleted(s, s.transfers[hit.value], Some(d.reference), now), d, true)
    else
      var fallback := s.(payouts := FallbackCompleted(s.payouts, d));
      BookNotice(if d.task.Some? then SetTaskUnlessPaid(fallback, d.task.value, PaymentStatus.Paid) else fallback, d, true)
  }

  function TransferFailed(s: Store, d: Notice, hit: Option<TransferId>, now: Time): Store
    requires IsHit(s, d, hit)
  {
    if Ignored(s, d, false) || Rejected(s, hit, TransferStatus.Failed) then s
    else if hit.Some? && s.transfers[hit.value].status == Processing then
      BookNotice(StoreFailed(s, s.transfers[hit.value], Some("WEBHOOK_FAILED"), now), d, false)
    else
      var fallback := s.(payouts := FallbackCancelled(s.payouts, d));
      BookNotice(if d.task.Some? then SetTaskUnlessPaid(fallback, d.task.value, PaymentStatus.Failed) else fallback, d, false)
  }
}
