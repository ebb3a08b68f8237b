/** What holds in every reachable state of the transfer protocol. */
module TransferSafety {
  import opened Common
  import opened TransferRow
  import opened TransferProtocol

  // ── The inductive invariant ─────────────────────────────────────────────

  predicate RowsOk(s: State) {
    && (forall t | t in s.transfers ::
          RowOk(s.transfers[t]) && s.transfers[t].id == t && s.transfers[t].idempotencyKey == KeyOf(t))
    && (forall t, u | t in s.transfers && u in s.transfers ::
          s.transfers[t].payoutId == s.transfers[u].payoutId ==> t == u)
  }

  predicate OrderOk(s: State) {
    && (forall i | 0 <= i < |s.order| :: s.order[i] in s.transfers)
    && (forall t | t in s.transfers :: t in s.order)
    && (forall i, j | 0 <= i < j < |s.order| :: s.order[i] != s.order[j])
  }

  /** A payment was made under the key of an existing transfer, for its payout and its amount. */
  predicate Backed(transfers: map<TransferId, Transfer>, p: Payment) {
    var t := IdOf(p.key);
    && t in transfers && p.key == KeyOf(t)
    && p.payoutId == transfers[t].payoutId && p.amount == transfers[t].amount
  }

  predicate PaidOk(s: State) {
    && (forall i | 0 <= i < |s.paid| :: Backed(s.transfers, s.paid[i]))
    && (forall i, j | 0 <= i < j < |s.paid| :: s.paid[i].key != s.paid[j].key)
    && (forall t | t in s.transfers :: s.transfers[t].status == Completed ==> Paid(s.paid, KeyOf(t)))
  }

  /** A worker's attempt number is its own; while it holds the row, its copy is the stored row. */
  predicate WorkerOk(s: State, w: Worker) {
    && w.copy.id in s.transfers
    && 1 <= w.copy.attemptCount <= s.transfers[w.copy.id].attemptCount
    && (Holding(w) ==>
          && w.copy == s.transfers[w.copy.id] && w.copy.status == Processing
          && s.now <= w.copy.updatedAt + STALE_AFTER)
    && (w.phase.Replied? && w.phase.reply.Succeeded? ==> Paid(s.paid, w.copy.idempotencyKey))
  }

  predicate WorkersOk(s: State) {
    forall w | w in s.workers :: WorkerOk(s, s.workers[w])
  }

  /** No two workers claimed the same attempt of the same transfer. */
  predicate NumbersDistinct(workers: map<nat, Worker>) {
    forall v, w | v in workers && w in workers && v != w ::
      workers[v].copy.id == workers[w].copy.id ==> workers[v].copy.attemptCount != workers[w].copy.attemptCount
  }

  /** Logged attempts exist, are logged once, and belong to no worker still running. */
  predicate LogOk(s: State) {
    && (forall i | 0 <= i < |s.attempts| ::
          && s.attempts[i].transferId in s.transfers
          && 1 <= s.attempts[i].number <= s.transfers[s.attempts[i].transferId].attemptCount)
    && (forall i, w | 0 <= i < |s.attempts| && w in s.workers ::
          s.attempts[i].transferId == s.workers[w].copy.id ==>
            s.attempts[i].number != s.workers[w].copy.attemptCount)
    && (forall i, j | 0 <= i < j < |s.attempts| ::
          s.attempts[i].transferId == s.attempts[j].transferId ==> s.attempts[i].number != s.attempts[j].number)
  }

  predicate Inv(s: State) {
    RowsOk(s) && OrderOk(s) && PaidOk(s) && WorkersOk(s) && NumbersDistinct(s.workers) && LogOk(s)
  }

  // ── Rows and payments ───────────────────────────────────────────────────

  lemma PaidGrows(paid: seq<Payment>, row: Transfer, pays: bool, key: string)
    requires Paid(paid, key)
    ensures Paid(AfterCall(paid, row, pays), key)
  {
    var i :| 0 <= i < |paid| && paid[i].key == key;
    assert AfterCall(paid, row, pays)[i].key == key;
  }

  lemma PaidByCall(paid: seq<Payment>, row: Transfer)
    ensures Paid(AfterCall(paid, row, true), row.idempotencyKey)
  {
    if !Paid(paid, row.idempotencyKey) {
      assert AfterCall(paid, row, true)[|paid|].key == row.idempotencyKey;
    }
  }

  lemma RowsUnchanged(s: State, s': State)
    requires RowsOk(s) && OrderOk(s)
    requires s'.transfers == s.transfers && s'.order == s.order
    ensures RowsOk(s') && OrderOk(s')
  {
  }

  lemma PaymentsUnchanged(s: State, s': State)
    requires PaidOk(s)
    requires s'.transfers == s.transfers && s'.paid == s.paid
    ensures PaidOk(s')
  {
  }

  lemma RowChangeKeepsRows(s: State, s': State, id: TransferId, row: Transfer)
    requires RowsOk(s) && OrderOk(s) && id in s.transfers && OneChange(s.transfers[id], row)
    requires s'.transfers == s.transfers[id := row] && s'.order == s.order
    ensures RowsOk(s') && OrderOk(s')
  {
    hide KeyOf, RowOk, ValidTransitions;
  }

  lemma RowChangeKeepsPaid(s: State, s': State, id: TransferId, row: Transfer)
    requires RowsOk(s) && PaidOk(s) && id in s.transfers && OneChange(s.transfers[id], row)
    requires row.status == Completed ==> Paid(s.paid, KeyOf(id))
    requires s'.transfers == s.transfers[id := row] && s'.paid == s.paid
    ensures PaidOk(s')
  {
    hide KeyOf, IdOf, RowOk, ValidTransitions;
    forall i | 0 <= i < |s'.paid| ensures Backed(s'.transfers, s'.paid[i]) {
      assert Backed(s.transfers, s.paid[i]);
    }
  }

  /** Changing one row along the transition table keeps everything that is not about workers. */
  lemma RowChangeKeeps(s: State, s': State, id: TransferId, row: Transfer)
    requires RowsOk(s) && OrderOk(s) && PaidOk(s) && id in s.transfers
    requires OneChange(s.transfers[id], row)
    requires row.status == Completed ==> Paid(s.paid, KeyOf(id))
    requires s'.transfers == s.transfers[id := row] && s'.order == s.order && s'.paid == s.paid
    ensures RowsOk(s') && OrderOk(s') && PaidOk(s')
  {
    hide RowsOk, OrderOk, PaidOk, OneChange, Paid;
    RowChangeKeepsRows(s, s', id, row);
    RowChangeKeepsPaid(s, s', id, row);
  }

  lemma CreateKeepsRows(s: State, e: Event)
    requires RowsOk(s) && Enabled(s, e) && e.Create?
    ensures RowsOk(Do(s, e))
  {
    hide KeyOf;
    var row := NewTransfer(e.id, e.payoutId, e.taskId, e.userId, e.amount, s.now);
    assert RowOk(row);
    hide RowOk;
  }

  lemma CreateKeepsOrder(s: State, e: Event)
    requires OrderOk(s) && Enabled(s, e) && e.Create?
    ensures OrderOk(Do(s, e))
  {
    hide NewTransfer;
    var s' := Do(s, e);
    assert s'.order == s.order + [e.id];
    assert forall t | t in s.order :: t in s'.order;
    assert s'.order[|s.order|] == e.id;
  }

  lemma CreateKeepsPaid(s: State, e: Event)
    requires RowsOk(s) && PaidOk(s) && Enabled(s, e) && e.Create?
    ensures PaidOk(Do(s, e))
  {
    hide KeyOf, IdOf, RowOk;
    var s' := Do(s, e);
    forall i | 0 <= i < |s.paid| ensures Backed(s'.transfers, s'.paid[i]) {
      assert Backed(s.transfers, s.paid[i]);
    }
  }

  lemma CallGrowsPaid(s: State, e: Event)
    requires Enabled(s, e) && e.CallProvider?
    ensures forall key | Paid(s.paid, key) :: Paid(Do(s, e).paid, key)
    ensures e.pays ==> Paid(Do(s, e).paid, s.workers[e.worker].copy.idempotencyKey)
  {
    var copy := s.workers[e.worker].copy;
    forall key | Paid(s.paid, key) ensures Paid(Do(s, e).paid, key) {
      PaidGrows(s.paid, copy, e.pays, key);
    }
    if e.pays {
      PaidByCall(s.paid, copy);
    }
    hide Paid, AfterCall;
  }

  lemma CallKeepsPaid(s: State, e: Event)
    requires RowsOk(s) && WorkersOk(s) && PaidOk(s) && Enabled(s, e) && e.CallProvider?
    ensures PaidOk(Do(s, e))
  {
    var s' := Do(s, e);
    var copy := s.workers[e.worker].copy;
    assert WorkerOk(s, s.workers[e.worker]);
    CallGrowsPaid(s, e);
    KeyInvertible(copy.id);
    hide KeyOf, IdOf, RowOk;
    forall i | 0 <= i < |s'.paid| ensures Backed(s'.transfers, s'.paid[i]) {
      if i < |s.paid| {
        assert Backed(s.transfers, s.paid[i]);
      }
    }
    KeysStayDistinct(s.paid, copy, e.pays);
    hide AfterCall, Paid;
  }

  lemma KeysStayDistinct(paid: seq<Payment>, row: Transfer, pays: bool)
    requires forall i, j | 0 <= i < j < |paid| :: paid[i].key != paid[j].key
    ensures var paid' := AfterCall(paid, row, pays);
      forall i, j | 0 <= i < j < |paid'| :: paid'[i].key != paid'[j].key
  {
  }

  // ── Workers and the audit log ───────────────────────────────────────────

  /** A worker that is not holding a row stays consistent while rows only gain attempts. */
  lemma IdleWorkerKeeps(s: State, s': State, w: Worker)
    requires WorkerOk(s, w)
    requires w.copy.id in s'.transfers
    requires s'.transfers[w.copy.id].attemptCount >= s.transfers[w.copy.id].attemptCount
    requires Holding(w) ==> s'.transfers[w.copy.id] == s.transfers[w.copy.id] && s'.now == s.now
    requires forall key | Paid(s.paid, key) :: Paid(s'.paid, key)
    ensures WorkerOk(s', w)
  {
  }

  /** The log and the workers' claims on attempt numbers survive when no row loses an attempt. */
  lemma LogKeeps(s: State, s': State)
    requires LogOk(s) && s'.attempts == s.attempts
    requires forall t | t in s.transfers ::
      t in s'.transfers && s'.transfers[t].attemptCount >= s.transfers[t].attemptCount
    requires forall w | w in s'.workers ::
      || (w in s.workers && s.workers[w].copy.id == s'.workers[w].copy.id
          && s.workers[w].copy.attemptCount == s'.workers[w].copy.attemptCount)
      || (s'.workers[w].copy.id in s.transfers
          && s'.workers[w].copy.attemptCount > s.transfers[s'.workers[w].copy.id].attemptCount)
    ensures LogOk(s')
  {
  }

  lemma NumbersKeep(workers: map<nat, Worker>, workers': map<nat, Worker>)
    requires NumbersDistinct(workers)
    requires forall w | w in workers' ::
      && w in workers && workers[w].copy.id == workers'[w].copy.id
      && workers[w].copy.attemptCount == workers'[w].copy.attemptCount
    ensures NumbersDistinct(workers')
  {
  }

  lemma CreateKeeps(s: State, e: Event)
    requires Inv(s) && Enabled(s, e) && e.Create?
    ensures Inv(Do(s, e))
  {
    hide KeyOf, IdOf, RowsOk, OrderOk, PaidOk, LogOk, NumbersDistinct, WorkerOk;
    var s' := Do(s, e);
    CreateKeepsRows(s, e);
    CreateKeepsOrder(s, e);
    CreateKeepsPaid(s, e);
    forall w | w in s'.workers ensures WorkerOk(s', s'.workers[w]) {
      assert WorkerOk(s, s.workers[w]);
      WorkerHasRow(s, s.workers[w]);
      IdleWorkerKeeps(s, s', s.workers[w]);
    }
    LogKeeps(s, s');
  }

  lemma WorkerHasRow(s: State, w: Worker)
    requires WorkerOk(s, w)
    ensures w.copy.id in s.transfers && w.copy.attemptCount <= s.transfers[w.copy.id].attemptCount
    ensures Holding(w) ==> w.copy == s.transfers[w.copy.id] && w.copy.status == Processing
  {
  }

  lemma StartKeepsWorkers(s: State, e: Event)
    requires RowsOk(s) && WorkersOk(s) && NumbersDistinct(s.workers) && Enabled(s, e) && e.Start?
    ensures WorkersOk(Do(s, e)) && NumbersDistinct(Do(s, e).workers)
  {
    hide KeyOf, IdOf, RowOk;
    var s' := Do(s, e);
    forall w | w in s'.workers ensures WorkerOk(s', s'.workers[w]) {
      if w != e.worker {
        assert WorkerOk(s, s.workers[w]);
      }
    }
    forall w | w in s.workers && s.workers[w].copy.id == e.id
      ensures s.workers[w].copy.attemptCount < s'.workers[e.worker].copy.attemptCount
    {
      assert WorkerOk(s, s.workers[w]);
    }
  }

  lemma StartKeepsLog(s: State, e: Event)
    requires RowsOk(s) && LogOk(s) && Enabled(s, e) && e.Start?
    ensures LogOk(Do(s, e))
  {
    hide KeyOf, IdOf, RowOk, LogOk;
    LogKeeps(s, Do(s, e));
  }

  lemma StartKeeps(s: State, e: Event)
    requires Inv(s) && Enabled(s, e) && e.Start?
    ensures Inv(Do(s, e))
  {
    hide KeyOf, IdOf, RowOk, ValidTransitions, OrderOk, PaidOk, WorkersOk, LogOk, NumbersDistinct;
    EditsAreChanges(s.transfers[e.id], None, None, 0.0, s.now);
    StartKeepsWorkers(s, e);
    StartKeepsLog(s, e);
    RowChangeKeeps(s, Do(s, e), e.id, Do(s, e).transfers[e.id]);
  }

  lemma CallKeepsWorkers(s: State, e: Event)
    requires WorkersOk(s) && NumbersDistinct(s.workers) && Enabled(s, e) && (e.CallProvider? || e.FindNoAccount?)
    requires forall key | Paid(s.paid, key) :: Paid(Do(s, e).paid, key)
    requires e.CallProvider? && e.pays ==> Paid(Do(s, e).paid, s.workers[e.worker].copy.idempotencyKey)
    ensures WorkersOk(Do(s, e)) && NumbersDistinct(Do(s, e).workers)
  {
    hide AfterCall, Paid, NumbersDistinct;
    var s' := Do(s, e);
    forall w | w in s'.workers ensures WorkerOk(s', s'.workers[w]) {
      assert WorkerOk(s, s.workers[w]);
    }
    NumbersKeep(s.workers, s'.workers);
  }

  lemma CallKeeps(s: State, e: Event)
    requires Inv(s) && Enabled(s, e) && (e.CallProvider? || e.FindNoAccount?)
    ensures Inv(Do(s, e))
  {
    hide KeyOf, IdOf, RowsOk, OrderOk, PaidOk, LogOk, WorkersOk, NumbersDistinct, AfterCall, Paid;
    var s' := Do(s, e);
    RowsUnchanged(s, s');
    if e.CallProvider? {
      CallGrowsPaid(s, e);
      CallKeepsPaid(s, e);
    } else {
      PaymentsUnchanged(s, s');
    }
    CallKeepsWorkers(s, e);
    LogKeeps(s, s');
  }

  lemma MarkedRowChanges(s: State, w: nat, jitter: real)
    requires RowsOk(s) && WorkersOk(s) && w in s.workers && s.workers[w].phase.Replied?
    ensures var copy := s.workers[w].copy;
      && copy.status == Processing && copy.id in s.transfers && copy == s.transfers[copy.id]
      && var row := MarkedRow(copy, s.workers[w].phase.reply, jitter, s.now);
      && OneChange(copy, row) && row.attemptCount == copy.attemptCount
      && (row.status == Completed ==> Paid(s.paid, KeyOf(copy.id)))
  {
    var copy := s.workers[w].copy;
    var reply := s.workers[w].phase.reply;
    assert WorkerOk(s, s.workers[w]);
    hide KeyOf;
    var providerId := if reply.Succeeded? then Some(reply.providerId) else None;
    var code := if reply.TemporaryError? || reply.PermanentError? then reply.code
                else if reply.NoAccount? then Some("NO_PAYMENT_ACCOUNT") else None;
    EditsAreChanges(copy, providerId, code, RetryDelay(copy.attemptCount, jitter), s.now);
  }

  /** A worker that holds the row a change is made to is the one worker that does. */
  lemma HolderIsUnique(s: State, v: nat, w: nat)
    requires WorkersOk(s) && NumbersDistinct(s.workers) && v in s.workers && w in s.workers
    requires Holding(s.workers[v]) && Holding(s.workers[w]) && s.workers[v].copy.id == s.workers[w].copy.id
    ensures v == w
  {
    assert WorkerOk(s, s.workers[v]) && WorkerOk(s, s.workers[w]);
  }

  /** A mark changes the worker's row and the worker's own copy of it, which keeps id and number. */
  lemma MarkMoves(s: State, w: nat, jitter: real)
    requires RowsOk(s) && WorkersOk(s) && Enabled(s, Mark(w, jitter))
    ensures var copy := s.workers[w].copy; var reply := s.workers[w].phase.reply;
      && copy.status == Processing
      && var row := MarkedRow(copy, reply, jitter, s.now);
      && row.id == copy.id && row.attemptCount == copy.attemptCount
      && Do(s, Mark(w, jitter)) == Step(s, Mark(w, jitter)) ==
         s.(transfers := s.transfers[copy.id := row], workers := s.workers[w := Worker(row, Marked(reply))])
  {
    MarkedRowChanges(s, w, jitter);
    hide KeyOf, IdOf, RowOk, MarkedRow, RowsOk, Paid, IsJitter, ValidTransitions, WorkersOk;
  }

  lemma MarkKeepsWorkers(s: State, e: Event)
    requires RowsOk(s) && WorkersOk(s) && NumbersDistinct(s.workers) && Enabled(s, e) && e.Mark?
    requires s.workers[e.worker].copy.status == Processing
    ensures WorkersOk(Do(s, e)) && NumbersDistinct(Do(s, e).workers)
  {
    hide KeyOf, IdOf, RowOk, OneChange, MarkedRow, NumbersDistinct, RowsOk, Paid, Do, Step, IsJitter;
    var s' := Do(s, e);
    MarkMoves(s, e.worker, e.jitter);
    forall w | w in s'.workers ensures WorkerOk(s', s'.workers[w]) {
      assert WorkerOk(s, s.workers[w]);
      if w != e.worker && Holding(s.workers[w]) && s.workers[w].copy.id == s.workers[e.worker].copy.id {
        HolderIsUnique(s, w, e.worker);
      }
    }
    NumbersKeep(s.workers, s'.workers);
  }

  lemma MarkKeepsLog(s: State, e: Event)
    requires RowsOk(s) && WorkersOk(s) && LogOk(s) && Enabled(s, e) && e.Mark?
    requires s.workers[e.worker].copy.status == Processing
    ensures LogOk(Do(s, e))
  {
    var copy := s.workers[e.worker].copy;
    assert WorkerOk(s, s.workers[e.worker]);
    hide KeyOf, IdOf, MarkedRow, RowsOk, WorkersOk, LogOk, Do, Step, IsJitter, Paid;
    MarkMoves(s, e.worker, e.jitter);
    LogKeeps(s, Do(s, e));
  }

  lemma MarkKeeps(s: State, e: Event)
    requires Inv(s) && Enabled(s, e) && e.Mark?
    requires s.workers[e.worker].copy.status == Processing
    ensures Inv(Do(s, e))
  {
    hide KeyOf, IdOf, OneChange, Paid, MarkedRow, RowsOk, OrderOk, PaidOk, WorkersOk, LogOk, NumbersDistinct, Do, Step, IsJitter;
    var copy := s.workers[e.worker].copy;
    MarkedRowChanges(s, e.worker, e.jitter);
    MarkMoves(s, e.worker, e.jitter);
    MarkKeepsWorkers(s, e);
    MarkKeepsLog(s, e);
    RowChangeKeeps(s, Do(s, e), copy.id, Do(s, e).transfers[copy.id]);
  }

  lemma RecordKeepsLog(s: State, e: Event)
    requires WorkersOk(s) && NumbersDistinct(s.workers) && LogOk(s) && Enabled(s, e) && (e.Record? || e.Die?)
    ensures LogOk(Do(s, e))
  {
    hide RowOk, KeyOf;
    assert WorkerOk(s, s.workers[e.worker]);
  }

  lemma RecordOrDieKeeps(s: State, e: Event)
    requires Inv(s) && Enabled(s, e) && (e.Record? || e.Die?)
    ensures Inv(Do(s, e))
  {
    hide KeyOf, IdOf, RowsOk, OrderOk, PaidOk, LogOk, NumbersDistinct;
    var s' := Do(s, e);
    RowsUnchanged(s, s');
    PaymentsUnchanged(s, s');
    forall w | w in s'.workers ensures WorkerOk(s', s'.workers[w]) {
      assert WorkerOk(s, s.workers[w]);
    }
    NumbersKeep(s.workers, s'.workers);
    RecordKeepsLog(s, e);
  }

  // ── Changes from outside the worker ─────────────────────────────────────

  /** The cutoff of the scan is what keeps reconciliation away from a row some worker holds. */
  lemma StaleRowsAreNotHeld(s: State, id: TransferId)
    requires WorkersOk(s) && id in s.transfers
    requires s.transfers[id].updatedAt < s.now - STALE_AFTER
    ensures !Held(s, id)
  {
    forall w | w in s.workers && s.workers[w].copy.id == id ensures !Holding(s.workers[w]) {
      assert WorkerOk(s, s.workers[w]);
    }
  }

  /** A change made to a row nobody holds. */
  lemma OutsideChangeKeeps(s: State, s': State, id: TransferId, row: Transfer)
    requires Inv(s) && id in s.transfers && !Held(s, id)
    requires OneChange(s.transfers[id], row) && row.attemptCount == s.transfers[id].attemptCount
    requires row.status == Completed ==> Paid(s.paid, KeyOf(id))
    requires s' == s.(transfers := s.transfers[id := row])
    ensures Inv(s')
  {
    hide KeyOf, IdOf, RowOk, ValidTransitions, RowsOk, OrderOk, PaidOk, LogOk, NumbersDistinct;
    RowChangeKeeps(s, s', id, row);
    forall w | w in s'.workers ensures WorkerOk(s', s'.workers[w]) {
      assert WorkerOk(s, s.workers[w]);
    }
    LogKeeps(s, s');
  }

  lemma OutsideEventKeeps(s: State, e: Event)
    requires Inv(s) && Enabled(s, e) && (e.Reconcile? || e.WebhookSuccess? || e.WebhookFailed?)
    ensures Inv(Do(s, e))
  {
    hide KeyOf, IdOf, OrderOk, PaidOk, WorkersOk, LogOk;
    var row := s.transfers[e.id];
    assert RowOk(row) && row.idempotencyKey == KeyOf(e.id);
    match e
    case Reconcile(id, lookup, jitter) =>
      StaleRowsAreNotHeld(s, id);
      if lookup.Unreachable? {
        assert s.transfers[id := row] == s.transfers;
      } else {
        var providerId := if lookup.FoundSuccess? then Some(lookup.providerId) else None;
        var code := if lookup.FoundFailed? then Some("RECONCILED_FAILED") else Some("RECONCILED_UNKNOWN");
        EditsAreChanges(row, providerId, code, RetryDelay(row.attemptCount, jitter), s.now);
        OutsideChangeKeeps(s, Do(s, e), id, ReconciledRow(row, lookup, jitter, s.now));
      }
    case WebhookSuccess(id, reference) =>
      EditsAreChanges(row, Some(reference), None, 0.0, s.now);
      OutsideChangeKeeps(s, Do(s, e), id, Complete(row, Some(reference), s.now));
    case WebhookFailed(id) =>
      EditsAreChanges(row, None, Some("WEBHOOK_FAILED"), 0.0, s.now);
      OutsideChangeKeeps(s, Do(s, e), id, Fail(row, Some("WEBHOOK_FAILED"), s.now));
  }

  lemma TickKeeps(s: State, e: Event)
    requires Inv(s) && Enabled(s, e) && e.Tick?
    ensures Inv(Do(s, e))
  {
    hide KeyOf, IdOf, RowsOk, OrderOk, PaidOk, LogOk, NumbersDistinct;
    var s' := Do(s, e);
    RowsUnchanged(s, s');
    PaymentsUnchanged(s, s');
    forall w | w in s'.workers ensures WorkerOk(s', s'.workers[w]) {
      assert WorkerOk(s, s.workers[w]);
    }
    LogKeeps(s, s');
  }

  lemma StepKeeps(s: State, e: Event)
    requires Inv(s)
    ensures Inv(Step(s, e))
  {
    hide Inv, Do;
    if Step(s, e) != s {
      match e
      case Create(_, _, _, _, _) => CreateKeeps(s, e);
      case Start(_, _) => StartKeeps(s, e);
      case FindNoAccount(_) => CallKeeps(s, e);
      case CallProvider(_, _, _) => CallKeeps(s, e);
      case Mark(_, _) => MarkKeeps(s, e);
      case Record(_) => RecordOrDieKeeps(s, e);
      case Die(_) => RecordOrDieKeeps(s, e);
      case Reconcile(_, _, _) => OutsideEventKeeps(s, e);
      case WebhookSuccess(_, _) => OutsideEventKeeps(s, e);
      case WebhookFailed(_) => OutsideEventKeeps(s, e);
      case Tick(_) => TickKeeps(s, e);
    }
  }

  lemma {:induction false} RunKeeps(run: seq<Event>)
    ensures Inv(After(run))
  {
    if |run| > 0 {
      RunKeeps(run[..|run| - 1]);
      StepKeeps(After(run[..|run| - 1]), run[|run| - 1]);
    }
  }

  // ── The promises ────────────────────────────────────────────────────────

  /** Transfer t is the only one for the payout that p pays, and p pays its amount. */
  predicate BelongsTo(s: State, p: Payment, t: TransferId) {
    && t in s.transfers && s.transfers[t].payoutId == p.payoutId && s.transfers[t].amount == p.amount
    && forall u | u in s.transfers :: s.transfers[u].payoutId == p.payoutId ==> u == t
  }

  /** A payout is paid at most once, and only the amount its one transfer was created for. */
  lemma AtMostOnePayment(run: seq<Event>)
    ensures var s := After(run);
      && (forall i, j | 0 <= i < j < |s.paid| :: s.paid[i].payoutId != s.paid[j].payoutId)
      && (forall i | 0 <= i < |s.paid| :: BelongsTo(s, s.paid[i], IdOf(s.paid[i].key)))
  {
    RunKeeps(run);
    var s := After(run);
    hide KeyOf, IdOf;
    forall i, j | 0 <= i < j < |s.paid| ensures s.paid[i].payoutId != s.paid[j].payoutId {
      assert Backed(s.transfers, s.paid[i]) && Backed(s.transfers, s.paid[j]);
    }
    forall i | 0 <= i < |s.paid| ensures BelongsTo(s, s.paid[i], IdOf(s.paid[i].key)) {
      assert Backed(s.transfers, s.paid[i]);
    }
  }

  /** A transfer reported COMPLETED has been paid, once, in full. */
  lemma CompletedMeansPaid(run: seq<Event>, id: TransferId)
    requires id in After(run).transfers && After(run).transfers[id].status == Completed
    ensures var s := After(run);
      exists i | 0 <= i < |s.paid| ::
        && s.paid[i].payoutId == s.transfers[id].payoutId && s.paid[i].amount == s.transfers[id].amount
        && (forall j | 0 <= j < |s.paid| && j != i :: s.paid[j].payoutId != s.transfers[id].payoutId)
  {
    RunKeeps(run);
    AtMostOnePayment(run);
    var s := After(run);
    var i :| 0 <= i < |s.paid| && s.paid[i].key == KeyOf(id);
    KeyInvertible(id);
    assert Backed(s.transfers, s.paid[i]);
  }

  /** At most one worker is between claim and mark, and what it holds is what is stored. */
  lemma ClaimExclusive(run: seq<Event>, v: nat, w: nat)
    requires v in After(run).workers && w in After(run).workers
    requires Holding(After(run).workers[v]) && Holding(After(run).workers[w])
    requires After(run).workers[v].copy.id == After(run).workers[w].copy.id
    ensures v == w
    ensures After(run).workers[v].copy.id in After(run).transfers
    ensures After(run).workers[v].copy == After(run).transfers[After(run).workers[v].copy.id]
  {
    RunKeeps(run);
    var s := After(run);
    assert WorkerOk(s, s.workers[v]) && WorkerOk(s, s.workers[w]);
  }

  /** The guard in _transition never rejects the mark of a live worker. */
  lemma MarkNeverRejected(run: seq<Event>, w: nat, jitter: real)
    requires Enabled(After(run), Mark(w, jitter))
    ensures After(run).workers[w].copy.status == Processing
    ensures Step(After(run), Mark(w, jitter)).transfers[After(run).workers[w].copy.id].status != Processing
  {
    RunKeeps(run);
    MarkedRowChanges(After(run), w, jitter);
    hide After, Inv, RowsOk, WorkersOk, MarkedRow, KeyOf;
  }

  /** Counters, timestamps and status of every row agree after every run. */
  lemma CounterInvariant(run: seq<Event>, id: TransferId)
    requires id in After(run).transfers
    ensures RowOk(After(run).transfers[id])
    ensures After(run).transfers[id].idempotencyKey == KeyOf(id)
  {
    RunKeeps(run);
  }

  /** What one step may do to a row: nothing, or one change of state along the table. */
  predicate Evolves(s: State, s': State, id: TransferId)
    requires id in s.transfers
  {
    id in s'.transfers && (s'.transfers[id] == s.transfers[id] || OneChange(s.transfers[id], s'.transfers[id]))
  }

  lemma MarkEvolves(s: State, e: Event, id: TransferId)
    requires RowsOk(s) && WorkersOk(s) && id in s.transfers && e.Mark?
    ensures Evolves(s, Step(s, e), id)
  {
    if Step(s, e) != s {
      MarkedRowChanges(s, e.worker, e.jitter);
      hide RowsOk, WorkersOk, OneChange, MarkedRow, KeyOf, Paid;
    }
  }

  predicate ChangesRow(e: Event) {
    e.Start? || e.Reconcile? || e.WebhookSuccess? || e.WebhookFailed?
  }

  lemma OtherRowsStay(s: State, e: Event, id: TransferId)
    requires RowsOk(s) && id in s.transfers && !e.Mark? && (ChangesRow(e) ==> e.id != id)
    ensures Evolves(s, Step(s, e), id)
  {
    hide Claim, ReconciledRow, Complete, Fail, OneChange, KeyOf, Paid, RowOk;
  }

  lemma StepEvolves(s: State, e: Event, id: TransferId)
    requires Inv(s) && id in s.transfers
    ensures Evolves(s, Step(s, e), id)
  {
    hide Step, Evolves, OrderOk, PaidOk, LogOk, NumbersDistinct, WorkersOk, KeyOf;
    if e.Mark? {
      MarkEvolves(s, e, id);
    } else if ChangesRow(e) && e.id == id && Enabled(s, e) {
      assert RowOk(s.transfers[id]);
      OutsideRowChanges(s, e);
    } else if !ChangesRow(e) || e.id != id {
      OtherRowsStay(s, e, id);
    } else {
      DisabledStays(s, e, id);
    }
  }

  lemma DisabledStays(s: State, e: Event, id: TransferId)
    requires id in s.transfers && !Enabled(s, e)
    ensures Evolves(s, Step(s, e), id)
  {
  }

  lemma OutsideRowChanges(s: State, e: Event)
    requires e.Start? || e.Reconcile? || e.WebhookSuccess? || e.WebhookFailed?
    requires Enabled(s, e) && e.id in s.transfers && RowOk(s.transfers[e.id])
    ensures Evolves(s, Step(s, e), e.id)
  {
    hide KeyOf, Held, Paid;
    var row := s.transfers[e.id];
    EditsAreChanges(row, None, None, 0.0, s.now);
    match e
    case Start(_, _) =>
    case Reconcile(_, lookup, jitter) =>
      EditsAreChanges(row, if lookup.FoundSuccess? then Some(lookup.providerId) else None,
                      if lookup.FoundFailed? then Some("RECONCILED_FAILED") else Some("RECONCILED_UNKNOWN"),
                      RetryDelay(row.attemptCount, jitter), s.now);
    case WebhookSuccess(_, reference) => EditsAreChanges(row, Some(reference), None, 0.0, s.now);
    case WebhookFailed(_) => EditsAreChanges(row, None, Some("WEBHOOK_FAILED"), 0.0, s.now);
  }

  lemma TerminalRowsStay(s: State, s': State, id: TransferId)
    requires id in s.transfers && Evolves(s, s', id)
    ensures SameIntent(s.transfers[id], s'.transfers[id])
    ensures s.transfers[id].status in {Completed, Failed} ==> s'.transfers[id] == s.transfers[id]
  {
  }

  lemma PaymentsStay(s: State, e: Event)
    ensures s.paid <= Step(s, e).paid
  {
    hide KeyOf, Held, Paid, MarkedRow, ReconciledRow, Complete, Fail, NewTransfer, Claim;
  }

  /** Once a transfer is COMPLETED or FAILED, or a payment is booked, no step changes it. */
  lemma SettledForGood(run: seq<Event>, e: Event, id: TransferId)
    requires id in After(run).transfers
    ensures var s := After(run); var s' := After(run + [e]);
      && id in s'.transfers && SameIntent(s.transfers[id], s'.transfers[id])
      && (s.transfers[id].status in {Completed, Failed} ==> s'.transfers[id] == s.transfers[id])
      && s.paid <= s'.paid
  {
    hide Step, Inv, SameIntent, OneChange;
    assert (run + [e])[..|run + [e]| - 1] == run;
    assert After(run + [e]) == Step(After(run), e);
    hide After;
    RunKeeps(run);
    StepEvolves(After(run), e, id);
    TerminalRowsStay(After(run), After(run + [e]), id);
    PaymentsStay(After(run), e);
  }
}
