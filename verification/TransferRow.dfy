/**
 The transfers table: one row, and the only ways the service changes it.
 Every function here is one in-memory edit of a row that the caller then commits.
 */
module TransferRow {
  import opened Common

  datatype TransferStatus = Pending | Processing | Retrying | Completed | Failed | Cancelled

  type Time = real
  type TransferId = string

  const DEFAULT_MAX_ATTEMPTS: nat := 10
  const BASE_DELAY_SECONDS: real := 30.0
  const MAX_DELAY_SECONDS: real := 7200.0
  const JITTER_FACTOR: real := 0.2

  datatype Transfer = Transfer(
    id: TransferId,
    taskId: string,
    payoutId: string,
    userId: string,
    amount: int,
    status: TransferStatus,
    attemptCount: nat,
    maxAttempts: nat,
    providerTransferId: Option<string>,
    idempotencyKey: string,
    nextRetryAt: Option<Time>,
    lastAttemptAt: Option<Time>,
    completedAt: Option<Time>,
    failedAt: Option<Time>,
    failureCode: Option<string>,
    version: nat,
    updatedAt: Time)

  function ValidTransitions(status: TransferStatus): set<TransferStatus> {
    match status
    case Pending => {Processing, Cancelled}
    case Processing => {Completed, Retrying, Failed}
    case Retrying => {Processing, Cancelled}
    case Completed => {}
    case Failed => {}
    case Cancelled => {}
  }

  function KeyOf(id: TransferId): string {
    "transfer:" + id
  }

  /** The id a key was made from; keys are never shared because this inverts KeyOf. */
  function IdOf(key: string): TransferId {
    if |key| >= 9 then key[9..] else ""
  }

  lemma KeyInvertible(id: TransferId)
    ensures IdOf(KeyOf(id)) == id
  {
  }

  function NewTransfer(id: TransferId, payoutId: string, taskId: string, userId: string, amount: int, now: Time): Transfer {
    Transfer(id, taskId, payoutId, userId, amount, Pending, 0, DEFAULT_MAX_ATTEMPTS, None, KeyOf(id),
             None, None, None, None, None, 0, now)
  }

  predicate CanTransition(row: Transfer, status: TransferStatus) {
    status in ValidTransitions(row.status)
  }

  function Transition(row: Transfer, status: TransferStatus, now: Time): Transfer
    requires CanTransition(row, status)
  {
    row.(status := status, version := row.version + 1, updatedAt := now)
  }

  /** The states process_transfer is willing to work on. */
  predicate Claimable(row: Transfer) {
    row.status == Pending || row.status == Retrying
  }

  function Claim(row: Transfer, now: Time): Transfer
    requires Claimable(row)
  {
    Transition(row, Processing, now).(attemptCount := row.attemptCount + 1, lastAttemptAt := Some(now))
  }

  function Complete(row: Transfer, providerId: Option<string>, now: Time): Transfer
    requires row.status == Processing
  {
    Transition(row, Completed, now).(providerTransferId := providerId, completedAt := Some(now), nextRetryAt := None)
  }

  function Fail(row: Transfer, code: Option<string>, now: Time): Transfer
    requires row.status == Processing
  {
    Transition(row, Failed, now).(failedAt := Some(now), failureCode := code, nextRetryAt := None)
  }

  /** A retryable failure: back to Retrying, unless the attempts are used up. */
  function Retry(row: Transfer, code: Option<string>, delay: Time, now: Time): Transfer
    requires row.status == Processing
  {
    if row.attemptCount >= row.maxAttempts then
      Fail(row, if code.Some? then code else Some("MAX_ATTEMPTS_EXCEEDED"), now)
    else
      Transition(row, Retrying, now).(nextRetryAt := Some(now + delay), failureCode := code)
  }

  // ── Retry schedule ──────────────────────────────────────────────────────

  function PowerOfTwo(n: nat): (p: real)
    ensures p >= 1.0
  {
    if n == 0 then 1.0 else 2.0 * PowerOfTwo(n - 1)
  }

  /** The backoff before jitter: 30, 60, 120, ... seconds, at most two hours. */
  function Backoff(attemptCount: nat): real {
    var raw := if attemptCount == 0 then BASE_DELAY_SECONDS / 2.0
               else BASE_DELAY_SECONDS * PowerOfTwo(attemptCount - 1);
    if raw < MAX_DELAY_SECONDS then raw else MAX_DELAY_SECONDS
  }

  /** The draws random.uniform(0, backoff * JITTER_FACTOR) may return. */
  predicate IsJitter(attemptCount: nat, jitter: real) {
    0.0 <= jitter <= Backoff(attemptCount) * JITTER_FACTOR
  }

  function RetryDelay(attemptCount: nat, jitter: real): real {
    Backoff(attemptCount) + jitter
  }

  lemma {:induction false} PowerOfTwoGrows(m: nat, n: nat)
    requires m <= n
    ensures PowerOfTwo(m) <= PowerOfTwo(n)
    decreases n
  {
    if m < n {
      PowerOfTwoGrows(m, n - 1);
    }
  }

  /** Later attempts never wait less, no wait passes the cap, and jitter adds at most a fifth. */
  lemma BackoffSchedule(m: nat, n: nat, jitter: real)
    requires m <= n && IsJitter(n, jitter)
    ensures Backoff(m) <= Backoff(n) <= MAX_DELAY_SECONDS
    ensures Backoff(n) <= RetryDelay(n, jitter) <= Backoff(n) * 1.2
  {
    if m >= 1 {
      PowerOfTwoGrows(m - 1, n - 1);
    }
  }

  /** Sum of the backoffs that follow attempts 1..n. */
  function BackoffSum(n: nat): real {
    if n == 0 then 0.0 else BackoffSum(n - 1) + Backoff(n)
  }

  lemma {:induction false} BackoffSumGrows(m: nat, n: nat)
    requires m <= n
    ensures BackoffSum(m) <= BackoffSum(n)
    decreases n
  {
    if m < n {
      BackoffSumGrows(m, n - 1);
    }
  }

  /** The nine retries a default transfer can schedule. */
  lemma DefaultBackoffSum()
    ensures BackoffSum(DEFAULT_MAX_ATTEMPTS - 1) == 14850.0
  {
    assert PowerOfTwo(0) == 1.0 && PowerOfTwo(1) == 2.0 && PowerOfTwo(2) == 4.0 && PowerOfTwo(3) == 8.0;
    assert PowerOfTwo(4) == 16.0 && PowerOfTwo(5) == 32.0 && PowerOfTwo(6) == 64.0;
    assert PowerOfTwo(7) == 128.0 && PowerOfTwo(8) == 256.0;
    assert BackoffSum(3) == 210.0;
    assert BackoffSum(6) == 1890.0;
    assert BackoffSum(9) == 14850.0;
  }

  // ── What holds of every row ─────────────────────────────────────────────

  /**
   The counters, timestamps and status of a row agree. The version counts state changes:
   two per finished attempt and one for an attempt under way.
   */
  predicate RowOk(row: Transfer) {
    && row.version + (if row.status == Processing then 1 else 0) == 2 * row.attemptCount
    && 1 <= row.maxAttempts
    && row.attemptCount <= row.maxAttempts
    && row.status != Cancelled
    && (row.status == Pending <==> row.attemptCount == 0)
    && (row.status == Retrying ==> row.attemptCount < row.maxAttempts && row.nextRetryAt.Some?)
    && (row.status == Completed <==> row.completedAt.Some?)
    && (row.status == Failed <==> row.failedAt.Some?)
    && (row.status == Completed || row.status == Failed ==> row.nextRetryAt.None?)
    && (row.providerTransferId.Some? ==> row.status == Completed)
  }

  /** The fields that fix what is paid, to whom and under which key. */
  predicate SameIntent(a: Transfer, b: Transfer) {
    && a.id == b.id && a.taskId == b.taskId && a.payoutId == b.payoutId && a.userId == b.userId
    && a.amount == b.amount && a.idempotencyKey == b.idempotencyKey && a.maxAttempts == b.maxAttempts
  }

  /** One change of state: the status changes along the table and the version counts it. */
  predicate OneChange(a: Transfer, b: Transfer) {
    && SameIntent(a, b)
    && CanTransition(a, b.status) && a.status != b.status
    && b.version == a.version + 1
    && RowOk(b)
  }

  /** Every edit the service makes keeps the row consistent and is one legal change of state. */
  lemma EditsAreChanges(row: Transfer, providerId: Option<string>, code: Option<string>, delay: Time, now: Time)
    requires RowOk(row)
    ensures Claimable(row) ==> OneChange(row, Claim(row, now))
    ensures row.status == Processing ==>
              && OneChange(row, Complete(row, providerId, now))
              && OneChange(row, Fail(row, code, now))
              && OneChange(row, Retry(row, code, delay, now))
  {
  }
}
