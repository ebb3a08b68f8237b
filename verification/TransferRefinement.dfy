/** The serial service calls, seen by the transfers table and the audit log, are runs of the transfer protocol. */
module TransferRefinement {
  import opened Common
  import opened TransferRow
  import opened TransferProtocol
  import TransferSafety
  import PaymentStore
  import Settlement

  /** The protocol state and the store hold the same transfers and the same log. */
  predicate Agrees(p: State, s: PaymentStore.Store) {
    p.transfers == s.transfers && p.attempts == s.attempts
  }

  /** What the worker finds out: that there is no account, or what the provider replies. */
  function Ask(w: nat, pays: bool, reply: Reply): Event {
    if reply.NoAccount? then FindNoAccount(w) else CallProvider(w, pays, reply)
  }

  function Claiming(p: State, w: nat, id: TransferId): State {
    Step(p, Event.Start(w, id))
  }

  function Replying(p: State, w: nat, id: TransferId, pays: bool, reply: Reply): State {
    Step(Claiming(p, w, id), Ask(w, pays, reply))
  }

  function Marking(p: State, w: nat, id: TransferId, pays: bool, reply: Reply, jitter: real): State {
    Step(Replying(p, w, id, pays, reply), Mark(w, jitter))
  }

  /** A worker starts, calls, marks and records, with nothing in between. */
  function Attempting(p: State, w: nat, id: TransferId, pays: bool, reply: Reply, jitter: real): State {
    Step(Marking(p, w, id, pays, reply, jitter), Record(w))
  }

  /** The provider says it paid only if it did, and the delay is one that can be drawn. */
  predicate CanReply(p: State, w: nat, id: TransferId, pays: bool, reply: Reply, jitter: real) {
    && w !in p.workers && id in p.transfers && p.transfers[id].id == id
    && (reply.Succeeded? ==> pays || Paid(p.paid, p.transfers[id].idempotencyKey))
    && IsJitter(p.transfers[id].attemptCount + 1, jitter)
  }

  lemma RepliedState(p: State, w: nat, id: TransferId, pays: bool, reply: Reply, jitter: real)
    requires CanReply(p, w, id, pays, reply, jitter) && Claimable(p.transfers[id])
    ensures var q := Replying(p, w, id, pays, reply); var row := Claim(p.transfers[id], p.now);
      && q.transfers == p.transfers[id := row] && q.attempts == p.attempts && q.now == p.now
      && w in q.workers && q.workers[w] == Worker(row, Replied(reply))
  {
    hide AfterCall, Paid;
  }

  lemma EditsKeepNames(row: Transfer, providerId: Option<string>, code: Option<string>, delay: Time, now: Time)
    requires row.status == Processing
    ensures Complete(row, providerId, now).id == Fail(row, code, now).id == Retry(row, code, delay, now).id == row.id
    ensures Complete(row, providerId, now).attemptCount == Fail(row, code, now).attemptCount
      == Retry(row, code, delay, now).attemptCount == row.attemptCount
  {
  }

  lemma StoredMarks(s: PaymentStore.Store, row: Transfer, providerId: Option<string>, code: Option<string>, delay: Time, now: Time)
    requires row.status == Processing
    ensures var s' := PaymentStore.StoreCompleted(s, row, providerId, now);
      s'.transfers == s.transfers[row.id := Complete(row, providerId, now)] && s'.attempts == s.attempts
    ensures var s' := PaymentStore.StoreFailed(s, row, code, now);
      s'.transfers == s.transfers[row.id := Fail(row, code, now)] && s'.attempts == s.attempts
    ensures var s' := PaymentStore.StoreRetry(s, row, code, delay, now);
      s'.transfers == s.transfers[row.id := Retry(row, code, delay, now)] && s'.attempts == s.attempts
    ensures Complete(row, providerId, now).id == Fail(row, code, now).id == Retry(row, code, delay, now).id == row.id
    ensures Complete(row, providerId, now).attemptCount == Fail(row, code, now).attemptCount
      == Retry(row, code, delay, now).attemptCount == row.attemptCount
  {
    var given := if code.Some? then code else Some("MAX_ATTEMPTS_EXCEEDED");
    EditsKeepNames(row, providerId, code, delay, now);
    EditsKeepNames(row, providerId, given, delay, now);
    assert row.attemptCount >= row.maxAttempts ==> Retry(row, code, delay, now) == Fail(row, given, now);
    hide Complete, Fail, Retry;
  }

  /** The service saves the row the protocol marks, and leaves the log to the caller. */
  lemma StoredAsMarked(s: PaymentStore.Store, row: Transfer, reply: Reply, jitter: real, now: Time)
    requires row.status == Processing && row.id in s.transfers
    ensures var saved := PaymentStore.SaveRow(s, row);
      var s' := PaymentStore.StoreMarked(saved, row, reply, jitter, now);
      && s'.transfers == s.transfers[row.id := MarkedRow(row, reply, jitter, now)] && s'.attempts == s.attempts
      && MarkedRow(row, reply, jitter, now).id == row.id
      && MarkedRow(row, reply, jitter, now).attemptCount == row.attemptCount
  {
    var providerId := if reply.Succeeded? then Some(reply.providerId) else None;
    var code := if reply.TemporaryError? || reply.PermanentError? then reply.code else Some("NO_PAYMENT_ACCOUNT");
    var delay := RetryDelay(row.attemptCount, jitter);
    var saved := PaymentStore.SaveRow(s, row);
    StoredMarks(saved, row, providerId, code, delay, now);
    hide RetryDelay, Complete, Fail, Retry, PaymentStore.StoreCompleted, PaymentStore.StoreFailed, PaymentStore.StoreRetry;
    assert forall marked: Transfer | marked.id == row.id :: saved.transfers[row.id := marked] == s.transfers[row.id := marked];
  }

  lemma MarkedState(p: State, s: PaymentStore.Store, w: nat, id: TransferId, pays: bool, reply: Reply, jitter: real)
    requires Agrees(p, s) && CanReply(p, w, id, pays, reply, jitter) && Claimable(p.transfers[id])
    ensures var row := Claim(p.transfers[id], p.now);
      var marked := MarkedRow(row, reply, jitter, p.now);
      var q := Marking(p, w, id, pays, reply, jitter);
      && q.transfers == p.transfers[id := marked] && q.attempts == p.attempts
      && w in q.workers && q.workers[w] == Worker(marked, Marked(reply)) && marked.id == id && row.id == id
      && marked.attemptCount == row.attemptCount && row.status == Processing
      && var s' := PaymentStore.StoreMarked(PaymentStore.SaveRow(s, row), row, reply, jitter, p.now);
         s'.transfers == q.transfers && s'.attempts == q.attempts
  {
    hide Replying, PaymentStore.StoreMarked, PaymentStore.SaveRow, MarkedRow;
    var row := Claim(p.transfers[id], p.now);
    assert row.id == id && row.status == Processing && row.attemptCount == p.transfers[id].attemptCount + 1;
    hide Claim;
    RepliedState(p, w, id, pays, reply, jitter);
    StoredAsMarked(s, row, reply, jitter, p.now);
  }

  /** process_transfer without interference is one worker's whole life in the protocol. */
  lemma AttemptRefines(p: State, s: PaymentStore.Store, w: nat, id: TransferId, pays: bool, reply: Reply, jitter: real)
    requires Agrees(p, s) && CanReply(p, w, id, pays, reply, jitter) && Claimable(p.transfers[id])
    ensures Agrees(Attempting(p, w, id, pays, reply, jitter), PaymentStore.ProcessTransfer(s, id, reply, jitter, p.now))
  {
    MarkedState(p, s, w, id, pays, reply, jitter);
    hide Marking, MarkedRow, Claim, PaymentStore.StoreMarked, PaymentStore.SaveRow;
  }

  /** Cut off between the commits of its mark, it is a worker that dies before it writes its record. */
  lemma CutRefines(p: State, s: PaymentStore.Store, w: nat, id: TransferId, pays: bool, reply: Reply, jitter: real,
                   stage: Settlement.Stage)
    requires Agrees(p, s) && CanReply(p, w, id, pays, reply, jitter) && Claimable(p.transfers[id])
    ensures Agrees(Step(Marking(p, w, id, pays, reply, jitter), Die(w)),
                   Settlement.Perform(s, Settlement.Cut(Settlement.AttemptTransfer(id, reply, jitter, p.now), stage)))
  {
    hide Marking, MarkedRow, Claim, PaymentStore.StoreMarked, PaymentStore.Gross;
    MarkedState(p, s, w, id, pays, reply, jitter);
    var cut := Settlement.Perform(s, Settlement.Cut(Settlement.AttemptTransfer(id, reply, jitter, p.now), stage));
    assert cut.transfers == PaymentStore.ProcessTransfer(s, id, reply, jitter, p.now).transfers && cut.attempts == s.attempts;
    hide Settlement.Perform;
  }

  /** A crash after the claim is a worker that starts and dies. */
  lemma CrashRefines(p: State, s: PaymentStore.Store, w: nat, id: TransferId)
    requires Agrees(p, s) && w !in p.workers && id in p.transfers && p.transfers[id].id == id && Claimable(p.transfers[id])
    ensures Agrees(Step(Claiming(p, w, id), Die(w)), PaymentStore.ClaimOnly(s, id, p.now))
  {
  }

  /** Reconciliation of a row the scan may pick is the protocol's step. */
  lemma ReconcileRefines(p: State, s: PaymentStore.Store, id: TransferId, lookup: Lookup, jitter: real)
    requires Agrees(p, s) && Enabled(p, Event.Reconcile(id, lookup, jitter)) && p.transfers[id].id == id
    ensures Agrees(Step(p, Event.Reconcile(id, lookup, jitter)), PaymentStore.ReconcileTransfer(s, id, lookup, jitter, p.now))
  {
    assert p.transfers[id := p.transfers[id]] == p.transfers;
    var row := p.transfers[id];
    var code := if lookup.FoundFailed? then Some("RECONCILED_FAILED") else Some("RECONCILED_UNKNOWN");
    StoredMarks(s, row, if lookup.FoundSuccess? then Some(lookup.providerId) else None, code, RetryDelay(row.attemptCount, jitter), p.now);
    hide RetryDelay, Paid, Complete, Fail, Retry, PaymentStore.StoreCompleted, PaymentStore.StoreFailed, PaymentStore.StoreRetry;
  }

  /** create_transfer for a payout that has none is the protocol's step, under the drawn id. */
  lemma CreateRefines(p: State, s: PaymentStore.Store, payout: string, task: string, user: string, amount: int)
    requires Agrees(p, s) && Enabled(p, Create(PaymentStore.Uuid(s.drawn), payout, task, user, amount))
    ensures Agrees(Step(p, Create(PaymentStore.Uuid(s.drawn), payout, task, user, amount)),
                   PaymentStore.CreateAndEnqueue(s, payout, task, user, amount, p.now))
  {
    hide PaymentStore.Uuid;
  }
}
