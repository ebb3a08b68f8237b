/** The dispatch tables and, for each service call, the table contents it leaves behind. */
module DispatchStore {
  import opened Common
  import Policy = DispatchPolicy

  datatype TaskStatus =
    Draft | UnderReview | Open | Searching | Assigned | InProgress | Completed | Cancelled | NoMatch

  datatype DispatchStatus = Ready | Dispatching | RetryScheduled | Matched | AutoExhausted | Cancelled

  datatype Trigger = Initial | AutoRetry | Manual

  datatype SessionStatus = Running | Assigned | Failed | Expired | Exhausted | Cancelled

  datatype AttemptStatus = Pending | Accepted | Declined | Timeout | Cancelled

  datatype AssignmentStatus = Assigned | InProgress | Completed | Cancelled

  datatype Duty = Offline | OnlineAvailable | OnDispatch | OnTask

  type TaskId = string
  type ProviderId = string

  /** Rows that are only ever added are named by their position. */
  type SessionId = nat

  datatype Task = Task(
    customer: Option<string>,
    status: TaskStatus,
    dispatch: DispatchStatus,
    assignedTo: Option<ProviderId>,
    autoCount: nat,
    manualCount: nat,
    nextDispatchAt: Option<int>)

  datatype Session = Session(task: TaskId, trigger: Trigger, status: SessionStatus, sequence: nat, lockVersion: nat)

  datatype Attempt = Attempt(
    session: SessionId, task: TaskId, provider: ProviderId, order: nat, expiresAt: int, status: AttemptStatus)

  datatype Assignment = Assignment(provider: ProviderId, status: AssignmentStatus)

  datatype World = World(
    tasks: map<TaskId, Task>,
    sessions: seq<Session>,
    attempts: seq<Attempt>,
    assignments: map<TaskId, Assignment>,
    duty: map<ProviderId, Duty>)

  // ── Sessions ────────────────────────────────────────────────────────────

  function MaxSequence(sessions: seq<Session>, task: TaskId): nat {
    if |sessions| == 0 then 0 else
      var rest, last := MaxSequence(sessions[..|sessions| - 1], task), sessions[|sessions| - 1];
      if last.task == task && last.sequence > rest then last.sequence else rest
  }

  function OpenSession(w: World, task: TaskId, trigger: Trigger): World {
    w.(sessions := w.sessions + [Session(task, trigger, Running, MaxSequence(w.sessions, task) + 1, 1)])
  }

  function WithTask(w: World, task: TaskId, row: Task): World {
    w.(tasks := w.tasks[task := row])
  }

  predicate Dispatchable(status: TaskStatus) {
    status != TaskStatus.Assigned && status != TaskStatus.Completed && status != TaskStatus.Cancelled
  }

  function StartInitial(w: World, task: TaskId): World {
    if task !in w.tasks || !Dispatchable(w.tasks[task].status) then w else
      OpenSession(WithTask(w, task, w.tasks[task].(dispatch := Dispatching, status := Searching)), task, Initial)
  }

  function GiveUp(w: World, task: TaskId): World
    requires task in w.tasks
  {
    WithTask(w, task, w.tasks[task].(dispatch := AutoExhausted, status := NoMatch))
  }

  function AutoRetryTask(w: World, task: TaskId): World {
    if task !in w.tasks || !Dispatchable(w.tasks[task].status) then w
    else if !Policy.CanAutoRetry(w.tasks[task].autoCount) then GiveUp(w, task)
    else
      var row := w.tasks[task];
      OpenSession(
        WithTask(w, task, row.(autoCount := row.autoCount + 1, dispatch := Dispatching, status := Searching)),
        task, AutoRetry)
  }

  datatype RedispatchError = TaskNotFound | NotAuthorized | LimitReached | Closed

  function RedispatchCheck(w: World, task: TaskId, user: string, isAdmin: bool): Outcome<RedispatchError> {
    if task !in w.tasks then Raised(TaskNotFound)
    else if !isAdmin && w.tasks[task].customer != Some(user) then Raised(NotAuthorized)
    else if !isAdmin && !Policy.CanManualRedispatch(w.tasks[task].manualCount) then Raised(LimitReached)
    else if isAdmin && w.tasks[task].status in {TaskStatus.Completed, TaskStatus.Cancelled} then Raised(Closed)
    else Done
  }

  function SetDuty(duty: map<ProviderId, Duty>, provider: ProviderId, status: Duty): map<ProviderId, Duty> {
    if provider in duty then duty[provider := status] else duty
  }

  /** Cancels the assignment of an assigned task and frees its provider. */
  function Unassign(w: World, task: TaskId): World
    requires task in w.tasks
  {
    if w.tasks[task].status == TaskStatus.Assigned && task in w.assignments then
      w.(assignments := w.assignments[task := w.assignments[task].(status := AssignmentStatus.Cancelled)],
         duty := SetDuty(w.duty, w.assignments[task].provider, OnlineAvailable))
    else w
  }

  function Redispatch(w: World, task: TaskId, user: string, isAdmin: bool): World {
    if !RedispatchCheck(w, task, user, isAdmin).Done? then w else
      var freed := Unassign(w, task);
      var row := w.tasks[task];
      OpenSession(
        WithTask(freed, task, row.(assignedTo := None, manualCount := row.manualCount + 1,
                                   dispatch := Dispatching, status := Searching)),
        task, Manual)
  }

  function SetSessionStatus(w: World, session: SessionId, status: SessionStatus): World {
    if session < |w.sessions|
    then w.(sessions := w.sessions[session := w.sessions[session].(status := status)])
    else w
  }

  /** The session failed; the task is scheduled for a retry, or given up when none is left. */
  function HandleNoMatch(w: World, task: TaskId, session: SessionId, now: int): World {
    var failed := SetSessionStatus(w, session, SessionStatus.Failed);
    if task !in w.tasks then failed
    else if Policy.CanAutoRetry(w.tasks[task].autoCount) then
      var row := w.tasks[task];
      WithTask(failed, task, row.(dispatch := RetryScheduled,
                                  nextDispatchAt := Some(now + Policy.NextRetryDelay(row.autoCount))))
    else SetSessionStatus(GiveUp(failed, task), session, SessionStatus.Exhausted)
  }

  /** The scan for due retries claims the task. */
  function ClaimDue(w: World, task: TaskId, now: int): World {
    if task in w.tasks && w.tasks[task].dispatch == RetryScheduled
       && w.tasks[task].nextDispatchAt.Some? && w.tasks[task].nextDispatchAt.value <= now
    then WithTask(w, task, w.tasks[task].(dispatch := Dispatching)) else w
  }

  /** The scan for stale claims schedules the task again, at once. */
  function Reclaim(w: World, task: TaskId, now: int): World {
    if task in w.tasks && w.tasks[task].dispatch == Dispatching
    then WithTask(w, task, w.tasks[task].(dispatch := RetryScheduled, nextDispatchAt := Some(now))) else w
  }

  // ── Responses ───────────────────────────────────────────────────────────

  predicate IsPing(a: Attempt, task: TaskId, provider: ProviderId) {
    a.task == task && a.provider == provider && a.status == Pending
  }

  /** How many pings the response query would find. */
  function Pings(attempts: seq<Attempt>, task: TaskId, provider: ProviderId): nat {
    if |attempts| == 0 then 0 else
      Pings(attempts[..|attempts| - 1], task, provider) +
      (if IsPing(attempts[|attempts| - 1], task, provider) then 1 else 0)
  }

  function LastPing(attempts: seq<Attempt>, task: TaskId, provider: ProviderId): (i: nat)
    requires Pings(attempts, task, provider) > 0
    ensures i < |attempts| && IsPing(attempts[i], task, provider)
  {
    if IsPing(attempts[|attempts| - 1], task, provider) then |attempts| - 1
    else LastPing(attempts[..|attempts| - 1], task, provider)
  }

  predicate AcceptedByAnother(attempts: seq<Attempt>, task: TaskId, provider: ProviderId) {
    exists i | 0 <= i < |attempts| ::
      attempts[i].task == task && attempts[i].status == Accepted && attempts[i].provider != provider
  }

  /** How many rows the query for the acceptances of others would find. */
  function AcceptedByOthers(attempts: seq<Attempt>, task: TaskId, provider: ProviderId): nat {
    if |attempts| == 0 then 0 else
      var last := attempts[|attempts| - 1];
      AcceptedByOthers(attempts[..|attempts| - 1], task, provider) +
      (if last.task == task && last.status == Accepted && last.provider != provider then 1 else 0)
  }

  function WithStatus(attempts: seq<Attempt>, i: nat, status: AttemptStatus): seq<Attempt>
    requires i < |attempts|
  {
    attempts[i := attempts[i].(status := status)]
  }

  /** UPDATE: the other pending attempts of the task are cancelled. */
  function CancelOthers(attempts: seq<Attempt>, task: TaskId, keep: nat): (r: seq<Attempt>)
    ensures |r| == |attempts|
    ensures forall k | 0 <= k < |r| ::
      r[k] == if k != keep && attempts[k].task == task && attempts[k].status == Pending
              then attempts[k].(status := AttemptStatus.Cancelled) else attempts[k]
  {
    seq(|attempts|, k requires 0 <= k < |attempts| =>
      if k != keep && attempts[k].task == task && attempts[k].status == Pending
      then attempts[k].(status := AttemptStatus.Cancelled) else attempts[k])
  }

  /** UPDATE: the running sessions of the task are assigned. */
  function CloseSessions(sessions: seq<Session>, task: TaskId): (r: seq<Session>)
    ensures |r| == |sessions|
    ensures forall k | 0 <= k < |r| ::
      r[k] == if sessions[k].task == task && sessions[k].status == Running
              then sessions[k].(status := SessionStatus.Assigned) else sessions[k]
  {
    seq(|sessions|, k requires 0 <= k < |sessions| =>
      if sessions[k].task == task && sessions[k].status == Running
      then sessions[k].(status := SessionStatus.Assigned) else sessions[k])
  }

  /**
   Whether the last statements of an acceptance are committed: by the notification of the customer,
   or by the log entries that are flushed through the same session when the request ends.
   */
  predicate TailCommits(w: World, task: TaskId, flushed: bool) {
    flushed || (task in w.tasks && w.tasks[task].customer.Some?)
  }

  /** The ping, the task, the assignment and the duty status, each committed by itself. */
  function Assign(w: World, i: nat): World
    requires i < |w.attempts|
  {
    var task, provider := w.attempts[i].task, w.attempts[i].provider;
    var taken :=
      if task in w.tasks
      then WithTask(w, task, w.tasks[task].(status := TaskStatus.Assigned, dispatch := Matched, assignedTo := Some(provider)))
      else w;
    taken.(
      attempts := WithStatus(w.attempts, i, Accepted),
      assignments := w.assignments[task := Assignment(provider, AssignmentStatus.Assigned)],
      duty := SetDuty(w.duty, provider, OnTask))
  }

  /** The running sessions and the other open pings of the task are closed, if that is committed. */
  function Accept(w: World, i: nat, flushed: bool): World
    requires i < |w.attempts|
  {
    var task, taken := w.attempts[i].task, Assign(w, i);
    if TailCommits(w, task, flushed)
    then taken.(attempts := CancelOthers(taken.attempts, task, i), sessions := CloseSessions(w.sessions, task))
    else taken
  }

  function Free(duty: map<ProviderId, Duty>, provider: ProviderId): map<ProviderId, Duty> {
    if provider in duty && duty[provider] == OnDispatch then duty[provider := OnlineAvailable] else duty
  }

  predicate AnyPending(attempts: seq<Attempt>, task: TaskId) {
    exists i | 0 <= i < |attempts| :: attempts[i].task == task && attempts[i].status == Pending
  }

  /** A decline or a timeout that leaves no ping open while the task is searching. */
  predicate LastToClose(w: World, i: nat, status: AttemptStatus)
    requires i < |w.attempts|
  {
    var task := w.attempts[i].task;
    !AnyPending(WithStatus(w.attempts, i, status), task) && task in w.tasks && w.tasks[task].status == Searching
  }

  /**
   The last ping to close ends the session, which commits the release of the provider; otherwise
   only the log flush at the end of the request does.
   */
  function Decline(w: World, i: nat, status: AttemptStatus, now: int, flushed: bool): World
    requires i < |w.attempts|
  {
    var closed := w.(attempts := WithStatus(w.attempts, i, status));
    var freed := closed.(duty := Free(w.duty, w.attempts[i].provider));
    if LastToClose(w, i, status) then HandleNoMatch(freed, w.attempts[i].task, w.attempts[i].session, now)
    else if flushed then freed
    else closed
  }

  datatype Answer = Accepts | Declines | TimesOut

  function Respond(w: World, task: TaskId, provider: ProviderId, answer: Answer, now: int, flushed: bool): World {
    if Pings(w.attempts, task, provider) != 1 then w else
      var i := LastPing(w.attempts, task, provider);
      match answer
      case Accepts =>
        if (task in w.tasks && w.tasks[task].status == TaskStatus.Assigned)
           || AcceptedByAnother(w.attempts, task, provider)
        then w else Accept(w, i, flushed)
      case Declines => Decline(w, i, Declined, now, flushed)
      case TimesOut => Decline(w, i, Timeout, now, flushed)
  }

  /** Both queries expect one row at most: the provider's open ping, and an acceptance of somebody else. */
  predicate RespondRaises(w: World, task: TaskId, provider: ProviderId, answer: Answer) {
    || Pings(w.attempts, task, provider) > 1
    || (&& Pings(w.attempts, task, provider) == 1 && answer.Accepts?
        && !(task in w.tasks && w.tasks[task].status == TaskStatus.Assigned)
        && AcceptedByOthers(w.attempts, task, provider) > 1)
  }

  // ── Pings ───────────────────────────────────────────────────────────────

  predicate IsStale(a: Attempt, task: TaskId, now: int) {
    a.task == task && a.status == Pending && a.expiresAt <= now
  }

  function ExpireStale(attempts: seq<Attempt>, task: TaskId, now: int): (r: seq<Attempt>)
    ensures |r| == |attempts|
    ensures forall k | 0 <= k < |r| ::
      r[k] == if IsStale(attempts[k], task, now) then attempts[k].(status := Timeout) else attempts[k]
  {
    seq(|attempts|, k requires 0 <= k < |attempts| =>
      if IsStale(attempts[k], task, now) then attempts[k].(status := Timeout) else attempts[k])
  }

  predicate HasStale(attempts: seq<Attempt>, task: TaskId, provider: ProviderId, now: int) {
    exists i | 0 <= i < |attempts| :: attempts[i].provider == provider && IsStale(attempts[i], task, now)
  }

  /** Expired pings of the task time out and their providers become available. */
  function RecoverStale(w: World, task: TaskId, now: int): World {
    w.(attempts := ExpireStale(w.attempts, task, now),
       duty := map p | p in w.duty ::
         if HasStale(w.attempts, task, p, now) && w.duty[p] == OnDispatch then OnlineAvailable else w.duty[p])
  }

  /** The candidates whose conditional UPDATE went through, in batch order. */
  function Winners(batch: seq<ProviderId>, duty: map<ProviderId, Duty>): seq<ProviderId> {
    if |batch| == 0 then [] else
      var front, last := Winners(batch[..|batch| - 1], duty), batch[|batch| - 1];
      if last in duty && duty[last] == OnlineAvailable then front + [last] else front
  }

  function TakeDuty(batch: seq<ProviderId>, duty: map<ProviderId, Duty>): map<ProviderId, Duty> {
    map p | p in duty :: if p in batch && duty[p] == OnlineAvailable then OnDispatch else duty[p]
  }

  /** One attempt per winner, numbered from the start of the batch's range. */
  function NewAttempts(winners: seq<ProviderId>, session: SessionId, task: TaskId, start: nat, expiresAt: int): (r: seq<Attempt>)
    ensures |r| == |winners|
    ensures forall k | 0 <= k < |r| :: r[k] == Attempt(session, task, winners[k], start + k, expiresAt, Pending)
  {
    seq(|winners|, k requires 0 <= k < |winners| => Attempt(session, task, winners[k], start + k, expiresAt, Pending))
  }

  function PingBatch(w: World, session: SessionId, task: TaskId, batch: seq<ProviderId>, start: nat, now: int, duration: int): World {
    w.(attempts := w.attempts + NewAttempts(Winners(batch, w.duty), session, task, start, now + duration),
       duty := TakeDuty(batch, w.duty))
  }

  // ── Engine jobs ─────────────────────────────────────────────────────────

  predicate AnyStale(attempts: seq<Attempt>, task: TaskId, now: int) {
    exists i | 0 <= i < |attempts| :: IsStale(attempts[i], task, now)
  }

  function Bump(w: World, session: SessionId): World
    requires session < |w.sessions|
  {
    w.(sessions := w.sessions[session := w.sessions[session].(lockVersion := w.sessions[session].lockVersion + 1)])
  }

  /** The engine looks for candidates: its session runs and its task exists. */
  predicate Searches(w: World, session: SessionId) {
    session < |w.sessions| && w.sessions[session].status == Running && w.sessions[session].task in w.tasks
  }

  /**
   What a run has committed when it returns. The bump of the version is committed together with
   recovered pings; without any it is still open, for the job to commit or to roll back.
   */
  function RunCommits(w: World, session: SessionId, now: int): World {
    if Searches(w, session) && AnyStale(w.attempts, w.sessions[session].task, now)
    then RecoverStale(Bump(w, session), w.sessions[session].task, now)
    else w
  }

  predicate BumpStaysOpen(w: World, session: SessionId, now: int) {
    && session < |w.sessions| && w.sessions[session].status == Running
    && (w.sessions[session].task in w.tasks ==> !AnyStale(w.attempts, w.sessions[session].task, now))
  }

  /** The whole job: without a match the session is reported, which commits the bump; otherwise it is rolled back. */
  function RunJob(w: World, session: SessionId, found: bool, now: int): World {
    if session >= |w.sessions| then w
    else if Searches(w, session) && found then RunCommits(w, session, now)
    else
      var run := RunCommits(w, session, now);
      HandleNoMatch(if BumpStaysOpen(w, session, now) then Bump(run, session) else run,
                    w.sessions[session].task, session, now)
  }
}
