/**
 Durable transfers as a protocol: Celery workers, crashes, duplicate jobs, the recovery and
 reconciliation scans, webhooks and an unreliable provider, all acting on the same rows.

 Each event is one atomic action of the running system. A worker commits its claim, calls the
 provider outside the transaction, commits the mark and then writes its audit record; any other
 event may come in between, and the worker may die in between. An event whose guard is false
 does nothing, so every sequence of events is a run.
 */
module TransferProtocol {
  import opened Common
  import opened TransferRow

  /** What a call to the provider, or the lookup of the destination before it, came back with. */
  datatype Reply =
    | Succeeded(providerId: string)
    | TemporaryError(code: Option<string>)
    | PermanentError(code: Option<string>)
    | NoAccount

  datatype Lookup = FoundSuccess(providerId: string) | FoundFailed | Unknown | Unreachable

  datatype Phase =
    | Claimed                // the claim is committed, the provider has not been called
    | Replied(reply: Reply)  // the outcome is known to the worker only
    | Marked(reply: Reply)   // the outcome is committed, the audit record is not written

  /** A worker holds its own copy of the row; sessions do not expire rows on commit. */
  datatype Worker = Worker(copy: Transfer, phase: Phase)

  /** A movement of money made by the provider. */
  datatype Payment = Payment(key: string, payoutId: string, amount: int)

  datatype Attempt = Attempt(transferId: TransferId, number: nat, reply: Reply)

  datatype State = State(
    transfers: map<TransferId, Transfer>,
    order: seq<TransferId>,
    workers: map<nat, Worker>,
    paid: seq<Payment>,
    attempts: seq<Attempt>,
    now: Time)

  datatype Event =
    | Create(id: TransferId, payoutId: string, taskId: string, userId: string, amount: int)
    | Start(worker: nat, id: TransferId)
    | FindNoAccount(worker: nat)
    | CallProvider(worker: nat, pays: bool, reply: Reply)
    | Mark(worker: nat, jitter: real)
    | Record(worker: nat)
    | Die(worker: nat)
    | Reconcile(id: TransferId, lookup: Lookup, jitter: real)
    | WebhookSuccess(id: TransferId, reference: string)
    | WebhookFailed(id: TransferId)
    | Tick(elapsed: Time)

  const START := State(map[], [], map[], [], [], 0.0)

  /** Age after which the scan treats a Processing row as abandoned. */
  const STALE_AFTER: Time := 600.0

  predicate Paid(paid: seq<Payment>, key: string) {
    exists i | 0 <= i < |paid| :: paid[i].key == key
  }

  /** The worker has claimed and not yet marked. */
  predicate Holding(w: Worker) {
    w.phase.Claimed? || w.phase.Replied?
  }

  predicate Held(s: State, id: TransferId) {
    exists w | w in s.workers :: Holding(s.workers[w]) && s.workers[w].copy.id == id
  }

  predicate HasPayout(transfers: map<TransferId, Transfer>, payoutId: string) {
    exists t | t in transfers :: transfers[t].payoutId == payoutId
  }

  /**
   When an event can happen. The provider honours each key once, so it reports success only for
   a key it has paid. A live worker is done with a claimed row before the row looks abandoned,
   so time does not pass that point while it holds one. A webhook is not handled while a worker
   holds the row.
   */
  predicate Enabled(s: State, e: Event) {
    match e
    case Create(id, payoutId, _, _, _) => id !in s.transfers && !HasPayout(s.transfers, payoutId)
    case Start(w, id) => w !in s.workers && id in s.transfers && Claimable(s.transfers[id])
    case FindNoAccount(w) => w in s.workers && s.workers[w].phase.Claimed?
    case CallProvider(w, pays, reply) =>
      && w in s.workers && s.workers[w].phase.Claimed?
      && !reply.NoAccount?
      && (reply.Succeeded? ==> pays || Paid(s.paid, s.workers[w].copy.idempotencyKey))
    case Mark(w, jitter) =>
      w in s.workers && s.workers[w].phase.Replied? && IsJitter(s.workers[w].copy.attemptCount, jitter)
    case Record(w) => w in s.workers && s.workers[w].phase.Marked?
    case Die(w) => w in s.workers
    case Reconcile(id, lookup, jitter) =>
      && id in s.transfers && s.transfers[id].status == Processing
      && s.transfers[id].updatedAt < s.now - STALE_AFTER
      && IsJitter(s.transfers[id].attemptCount, jitter)
      && (lookup.FoundSuccess? ==> Paid(s.paid, s.transfers[id].idempotencyKey))
    case WebhookSuccess(id, _) =>
      && id in s.transfers && s.transfers[id].status == Processing
      && Paid(s.paid, s.transfers[id].idempotencyKey) && !Held(s, id)
    case WebhookFailed(id) => id in s.transfers && s.transfers[id].status == Processing && !Held(s, id)
    case Tick(elapsed) =>
      && 0.0 <= elapsed
      && forall w | w in s.workers ::
           Holding(s.workers[w]) ==> s.now + elapsed <= s.workers[w].copy.updatedAt + STALE_AFTER
  }

  function Without(workers: map<nat, Worker>, w: nat): map<nat, Worker> {
    map v | v in workers && v != w :: workers[v]
  }

  /** The row a worker commits once it knows the outcome. */
  function MarkedRow(row: Transfer, reply: Reply, jitter: real, now: Time): Transfer
    requires row.status == Processing
  {
    match reply
    case Succeeded(providerId) => Complete(row, Some(providerId), now)
    case TemporaryError(code) => Retry(row, code, RetryDelay(row.attemptCount, jitter), now)
    case PermanentError(code) => Fail(row, code, now)
    case NoAccount => Fail(row, Some("NO_PAYMENT_ACCOUNT"), now)
  }

  function ReconciledRow(row: Transfer, lookup: Lookup, jitter: real, now: Time): Transfer
    requires row.status == Processing
  {
    match lookup
    case FoundSuccess(providerId) => Complete(row, Some(providerId), now)
    case FoundFailed => Fail(row, Some("RECONCILED_FAILED"), now)
    case Unknown => Retry(row, Some("RECONCILED_UNKNOWN"), RetryDelay(row.attemptCount, jitter), now)
    case Unreachable => row
  }

  /** The provider's books after a call: a key already paid is never paid again. */
  function AfterCall(paid: seq<Payment>, row: Transfer, pays: bool): seq<Payment> {
    if pays && !Paid(paid, row.idempotencyKey)
    then paid + [Payment(row.idempotencyKey, row.payoutId, row.amount)]
    else paid
  }

  function Do(s: State, e: Event): State
    requires Enabled(s, e)
    requires e.Mark? ==> s.workers[e.worker].copy.status == Processing
  {
    match e
    case Create(id, payoutId, taskId, userId, amount) =>
      s.(transfers := s.transfers[id := NewTransfer(id, payoutId, taskId, userId, amount, s.now)],
         order := s.order + [id])
    case Start(w, id) =>
      var row := Claim(s.transfers[id], s.now);
      s.(transfers := s.transfers[id := row], workers := s.workers[w := Worker(row, Claimed)])
    case FindNoAccount(w) =>
      s.(workers := s.workers[w := s.workers[w].(phase := Replied(NoAccount))])
    case CallProvider(w, pays, reply) =>
      s.(paid := AfterCall(s.paid, s.workers[w].copy, pays),
         workers := s.workers[w := s.workers[w].(phase := Replied(reply))])
    case Mark(w, jitter) =>
      var reply := s.workers[w].phase.reply;
      var row := MarkedRow(s.workers[w].copy, reply, jitter, s.now);
      s.(transfers := s.transfers[row.id := row], workers := s.workers[w := Worker(row, Marked(reply))])
    case Record(w) =>
      var copy := s.workers[w].copy;
      s.(attempts := s.attempts + [Attempt(copy.id, copy.attemptCount, s.workers[w].phase.reply)],
         workers := Without(s.workers, w))
    case Die(w) => s.(workers := Without(s.workers, w))
    case Reconcile(id, lookup, jitter) =>
      s.(transfers := s.transfers[id := ReconciledRow(s.transfers[id], lookup, jitter, s.now)])
    case WebhookSuccess(id, reference) =>
      s.(transfers := s.transfers[id := Complete(s.transfers[id], Some(reference), s.now)])
    case WebhookFailed(id) =>
      s.(transfers := s.transfers[id := Fail(s.transfers[id], Some("WEBHOOK_FAILED"), s.now)])
    case Tick(elapsed) => s.(now := s.now + elapsed)
  }

  /**
   One step of the system. The second test is the guard _transition makes before a mark; the
   lemma MarkNeverRejected shows it always passes.
   */
  function Step(s: State, e: Event): State {
    if Enabled(s, e) && (e.Mark? ==> s.workers[e.worker].copy.status == Processing) then Do(s, e) else s
  }

  function After(run: seq<Event>): State {
    if |run| == 0 then START else Step(After(run[..|run| - 1]), run[|run| - 1])
  }
}
