/**
 Runs of the dispatch system, closed to the dispatch service and the pinger: who is pinged, who is
 assigned and who won, in every reachable state.
 */
module DispatchSafety {
  import opened Common
  import opened DispatchStore
  import Policy = DispatchPolicy

  datatype Event =
    | Start(task: TaskId)
    | Retry(task: TaskId)
    | RedispatchBy(task: TaskId, user: string, isAdmin: bool)
    | NoMatchFor(task: TaskId, session: SessionId, now: int)
    | Claims(task: TaskId, now: int)
    | Reclaims(task: TaskId, now: int)
    | Responds(task: TaskId, provider: ProviderId, answer: Answer, now: int, flushed: bool)
    | RunEngine(session: SessionId, found: bool, now: int)
    | PingNext(session: SessionId, batch: seq<ProviderId>, start: nat, now: int, duration: int)
    | Recover(task: TaskId, now: int)

  predicate Duplicates(batch: seq<ProviderId>) {
    exists i, j | 0 <= i < j < |batch| :: batch[i] == batch[j]
  }

  /** A batch is pinged while its session runs and its task searches; the query names a provider once. */
  predicate Enabled(w: World, e: Event) {
    e.PingNext? ==>
      && e.session < |w.sessions| && w.sessions[e.session].status == Running
      && w.sessions[e.session].task in w.tasks && w.tasks[w.sessions[e.session].task].status == Searching
      && !Duplicates(e.batch)
  }

  function Do(w: World, e: Event): World
    requires Enabled(w, e)
  {
    match e
    case Start(task) => StartInitial(w, task)
    case Retry(task) => AutoRetryTask(w, task)
    case RedispatchBy(task, user, isAdmin) => Redispatch(w, task, user, isAdmin)
    case NoMatchFor(task, session, now) => HandleNoMatch(w, task, session, now)
    case Claims(task, now) => ClaimDue(w, task, now)
    case Reclaims(task, now) => Reclaim(w, task, now)
    case Responds(task, provider, answer, now, flushed) => Respond(w, task, provider, answer, now, flushed)
    case RunEngine(session, found, now) => RunJob(w, session, found, now)
    case PingNext(session, batch, start, now, duration) =>
      PingBatch(w, session, w.sessions[session].task, batch, start, now, duration)
    case Recover(task, now) => RecoverStale(w, task, now)
  }

  function Step(w: World, e: Event): World {
    if Enabled(w, e) then Do(w, e) else w
  }

  function After(w: World, run: seq<Event>): World {
    if |run| == 0 then w else Step(After(w, run[..|run| - 1]), run[|run| - 1])
  }

  /** Before any dispatch: tasks that nobody has, and no session, attempt or assignment. */
  predicate Opening(w: World) {
    && w.sessions == [] && w.attempts == [] && w.assignments == map[]
    && forall t | t in w.tasks :: w.tasks[t].status != TaskStatus.Assigned && w.tasks[t].autoCount == 0
  }

  // ── The invariant ───────────────────────────────────────────────────────

  predicate IsPending(w: World, i: nat) {
    i < |w.attempts| && w.attempts[i].status == Pending
  }

  /** A provider has one open ping at most, and is on dispatch while it has one. */
  predicate PingsOk(w: World) {
    && (forall i, j | 0 <= i < j < |w.attempts| ::
          w.attempts[i].status == Pending && w.attempts[j].status == Pending ==>
            w.attempts[i].provider != w.attempts[j].provider)
    && (forall i | 0 <= i < |w.attempts| :: w.attempts[i].status == Pending ==>
          w.attempts[i].provider in w.duty && w.duty[w.attempts[i].provider] == OnDispatch)
  }

  /** All acceptances of a task come from one provider. */
  predicate OneWinner(w: World) {
    forall i, j | 0 <= i < j < |w.attempts| ::
      (w.attempts[i].status == Accepted && w.attempts[j].status == Accepted && w.attempts[i].task == w.attempts[j].task)
      ==> w.attempts[i].provider == w.attempts[j].provider
  }

  predicate HasAccepted(w: World, t: TaskId, p: ProviderId) {
    exists i | 0 <= i < |w.attempts| ::
      w.attempts[i].task == t && w.attempts[i].provider == p && w.attempts[i].status == Accepted
  }

  predicate IsAssigned(w: World, t: TaskId) {
    t in w.tasks && w.tasks[t].status == TaskStatus.Assigned
  }

  /** Task row, assignment row, accepted attempt and duty status of an assigned task agree. */
  predicate AssignedTo(w: World, t: TaskId, p: ProviderId) {
    && t in w.tasks && w.tasks[t].assignedTo == Some(p)
    && t in w.assignments && w.assignments[t] == Assignment(p, AssignmentStatus.Assigned)
    && p in w.duty && w.duty[p] == OnTask
    && HasAccepted(w, t, p)
  }

  predicate AssignmentsOk(w: World) {
    && (forall t | t in w.tasks :: IsAssigned(w, t) ==>
          w.tasks[t].assignedTo.Some? && AssignedTo(w, t, w.tasks[t].assignedTo.value))
    && (forall t, u | t in w.tasks && u in w.tasks && t != u :: IsAssigned(w, t) && IsAssigned(w, u) ==>
          w.tasks[t].assignedTo != w.tasks[u].assignedTo)
  }

  predicate TasksExist(w: World) {
    forall i | 0 <= i < |w.attempts| :: w.attempts[i].task in w.tasks
  }

  predicate Inv(w: World) {
    PingsOk(w) && OneWinner(w) && AssignmentsOk(w) && TasksExist(w)
  }

  // ── Steps that leave attempts and duty alone ────────────────────────────

  /** Sessions and the status of one task change; nobody becomes assigned. */
  lemma SchedulingKeeps(w: World, w': World)
    requires Inv(w)
    requires w'.attempts == w.attempts && w'.assignments == w.assignments && w'.duty == w.duty
    requires forall t | t in w.tasks :: t in w'.tasks
    requires forall t | t in w'.tasks ::
      && t in w.tasks
      && (IsAssigned(w', t) ==> IsAssigned(w, t) && w'.tasks[t].assignedTo == w.tasks[t].assignedTo)
    ensures Inv(w')
  {
    forall t | t in w'.tasks && IsAssigned(w', t) ensures AssignedTo(w', t, w.tasks[t].assignedTo.value) {
      assert IsAssigned(w, t) && AssignedTo(w, t, w.tasks[t].assignedTo.value);
      var i :| 0 <= i < |w.attempts| && w.attempts[i].task == t
        && w.attempts[i].provider == w.tasks[t].assignedTo.value && w.attempts[i].status == Accepted;
      assert w'.attempts[i] == w.attempts[i];
    }
  }

  lemma StartKeeps(w: World, task: TaskId)
    requires Inv(w)
    ensures Inv(StartInitial(w, task))
  {
    hide Inv, MaxSequence;
    SchedulingKeeps(w, StartInitial(w, task));
  }

  lemma RetryKeeps(w: World, task: TaskId)
    requires Inv(w)
    ensures Inv(AutoRetryTask(w, task))
  {
    hide Inv, MaxSequence;
    SchedulingKeeps(w, AutoRetryTask(w, task));
  }

  lemma NoMatchKeeps(w: World, task: TaskId, session: SessionId, now: int)
    requires Inv(w)
    ensures Inv(HandleNoMatch(w, task, session, now))
  {
    hide Inv, Policy.NextRetryDelay;
    SchedulingKeeps(w, HandleNoMatch(w, task, session, now));
  }

  lemma ClaimKeeps(w: World, e: Event)
    requires Inv(w) && (e.Claims? || e.Reclaims?)
    ensures Inv(Do(w, e))
  {
    hide Inv;
    SchedulingKeeps(w, Do(w, e));
  }

  // ── Manual redispatch ───────────────────────────────────────────────────

  /** Freeing the provider of an assigned task touches no ping and no other assigned task. */
  lemma UnassignKeeps(w: World, task: TaskId, row: Task)
    requires Inv(w) && task in w.tasks && row.status != TaskStatus.Assigned
    ensures Inv(WithTask(Unassign(w, task), task, row))
  {
    var w' := WithTask(Unassign(w, task), task, row);
    UnassignPings(w, task, row);
    hide PingsOk, OneWinner, TasksExist, HasAccepted;
    if IsAssigned(w, task) {
      assert AssignedTo(w, task, w.tasks[task].assignedTo.value);
    }
    forall t | t in w'.tasks && IsAssigned(w', t) ensures AssignedTo(w', t, w.tasks[t].assignedTo.value) {
      assert IsAssigned(w, t) && AssignedTo(w, t, w.tasks[t].assignedTo.value);
      SameHistory(w, w', t);
    }
  }

  lemma UnassignPings(w: World, task: TaskId, row: Task)
    requires Inv(w) && task in w.tasks && row.status != TaskStatus.Assigned
    ensures var w' := WithTask(Unassign(w, task), task, row); PingsOk(w') && OneWinner(w') && TasksExist(w')
  {
    if IsAssigned(w, task) {
      assert AssignedTo(w, task, w.tasks[task].assignedTo.value);
    }
    hide HasAccepted;
  }

  lemma SameHistory(w: World, w': World, t: TaskId)
    requires w'.attempts == w.attempts
    ensures forall p :: HasAccepted(w, t, p) ==> HasAccepted(w', t, p)
  {
    forall p | HasAccepted(w, t, p) ensures HasAccepted(w', t, p) {
      var i :| 0 <= i < |w.attempts| && w.attempts[i].task == t && w.attempts[i].provider == p
        && w.attempts[i].status == Accepted;
      assert w'.attempts[i] == w.attempts[i];
    }
  }

  lemma OpenKeeps(w: World, task: TaskId, trigger: Trigger)
    requires Inv(w) && task in w.tasks && !IsAssigned(w, task)
    ensures Inv(OpenSession(w, task, trigger))
  {
    hide Inv, MaxSequence;
    SchedulingKeeps(w, OpenSession(w, task, trigger));
  }

  lemma RedispatchKeeps(w: World, task: TaskId, user: string, isAdmin: bool)
    requires Inv(w)
    ensures Inv(Redispatch(w, task, user, isAdmin))
  {
    hide Inv, OpenSession;
    if RedispatchCheck(w, task, user, isAdmin).Done? {
      var row := w.tasks[task].(assignedTo := None, manualCount := w.tasks[task].manualCount + 1,
                                dispatch := Dispatching, status := Searching);
      UnassignKeeps(w, task, row);
      var freed := WithTask(Unassign(w, task), task, row);
      assert freed.tasks == w.tasks[task := row];
      OpenKeeps(freed, task, Manual);
    }
  }

  // ── Responses ───────────────────────────────────────────────────────────

  lemma {:induction false} PingsSame(attempts: seq<Attempt>, task: TaskId, provider: ProviderId)
    requires forall i, j | 0 <= i < j < |attempts| ::
      attempts[i].status == Pending && attempts[j].status == Pending ==> attempts[i].provider != attempts[j].provider
    ensures Pings(attempts, task, provider) <= 1
  {
    if |attempts| > 0 {
      var front := attempts[..|attempts| - 1];
      PingsSame(front, task, provider);
      if Pings(front, task, provider) > 0 {
        var i := LastPing(front, task, provider);
        assert attempts[i] == front[i];
        assert !IsPing(attempts[|attempts| - 1], task, provider);
      }
    }
  }

  /** The response query never finds two rows, so it never raises. */
  lemma ResponseQueryFindsOne(w: World, run: seq<Event>, task: TaskId, provider: ProviderId)
    requires Opening(w)
    ensures Pings(After(w, run).attempts, task, provider) <= 1
  {
    RunKeeps(w, run);
    PingsSame(After(w, run).attempts, task, provider);
  }

  lemma AcceptPings(w: World, i: nat, flushed: bool)
    requires Inv(w) && IsPending(w, i)
    ensures PingsOk(Accept(w, i, flushed)) && TasksExist(Accept(w, i, flushed))
  {
    hide AssignmentsOk, OneWinner, CloseSessions;
  }

  lemma AcceptWinner(w: World, i: nat, flushed: bool)
    requires OneWinner(w) && IsPending(w, i) && !AcceptedByAnother(w.attempts, w.attempts[i].task, w.attempts[i].provider)
    ensures OneWinner(Accept(w, i, flushed))
  {
    hide CloseSessions;
    var w' := Accept(w, i, flushed);
    forall k | 0 <= k < |w'.attempts| && w'.attempts[k].status == Accepted && w'.attempts[k].task == w.attempts[i].task
      ensures w'.attempts[k].provider == w.attempts[i].provider
    {
    }
  }

  lemma AcceptTask(w: World, i: nat, flushed: bool)
    requires TasksExist(w) && PingsOk(w) && IsPending(w, i)
    ensures AssignedTo(Accept(w, i, flushed), w.attempts[i].task, w.attempts[i].provider)
  {
    var w' := Accept(w, i, flushed);
    assert w'.attempts[i].status == Accepted && w'.attempts[i].task == w.attempts[i].task;
  }

  lemma AcceptOthers(w: World, i: nat, flushed: bool, t: TaskId)
    requires Inv(w) && IsPending(w, i) && t in w.tasks && t != w.attempts[i].task && IsAssigned(w, t)
    ensures AssignedTo(Accept(w, i, flushed), t, w.tasks[t].assignedTo.value)
    ensures w.tasks[t].assignedTo != Some(w.attempts[i].provider)
  {
    var p := w.tasks[t].assignedTo.value;
    assert AssignedTo(w, t, p);
    hide OneWinner, TasksExist;
    var w' := Accept(w, i, flushed);
    var k :| 0 <= k < |w.attempts| && w.attempts[k].task == t && w.attempts[k].provider == p && w.attempts[k].status == Accepted;
    assert w'.attempts[k].status == Accepted && w'.attempts[k].task == t && w'.attempts[k].provider == p;
    assert HasAccepted(w', t, p);
  }

  lemma AcceptKeeps(w: World, i: nat, flushed: bool)
    requires Inv(w) && IsPending(w, i) && !IsAssigned(w, w.attempts[i].task)
    requires !AcceptedByAnother(w.attempts, w.attempts[i].task, w.attempts[i].provider)
    ensures Inv(Accept(w, i, flushed))
  {
    var w' := Accept(w, i, flushed);
    AcceptPings(w, i, flushed);
    AcceptWinner(w, i, flushed);
    AcceptTask(w, i, flushed);
    hide PingsOk, OneWinner, TasksExist, AssignedTo, CancelOthers, CloseSessions, AcceptedByAnother;
    forall t | t in w'.tasks && IsAssigned(w', t) && t != w.attempts[i].task
      ensures IsAssigned(w, t) && AssignedTo(w', t, w.tasks[t].assignedTo.value)
      ensures w.tasks[t].assignedTo != Some(w.attempts[i].provider)
    {
      AcceptOthers(w, i, flushed, t);
    }
  }

  /** A ping that is not accepted closes; its provider is free again, or the release is rolled back. */
  lemma CloseKeeps(w: World, w': World, i: nat, status: AttemptStatus)
    requires Inv(w) && IsPending(w, i) && status != Pending && status != Accepted
    requires w'.attempts == WithStatus(w.attempts, i, status) && (w'.duty == Free(w.duty, w.attempts[i].provider) || w'.duty == w.duty)
    requires w' == w.(attempts := w'.attempts, duty := w'.duty)
    ensures Inv(w')
  {
    ClosePings(w, w', i, status);
    hide PingsOk, OneWinner, TasksExist;
    forall t | t in w'.tasks && IsAssigned(w', t) ensures AssignedTo(w', t, w.tasks[t].assignedTo.value) {
      var p := w.tasks[t].assignedTo.value;
      assert IsAssigned(w, t) && AssignedTo(w, t, p);
      var k :| 0 <= k < |w.attempts| && w.attempts[k].task == t && w.attempts[k].provider == p && w.attempts[k].status == Accepted;
      assert w'.attempts[k] == w.attempts[k];
    }
  }

  lemma ClosePings(w: World, w': World, i: nat, status: AttemptStatus)
    requires Inv(w) && IsPending(w, i) && status != Pending && status != Accepted
    requires w'.attempts == WithStatus(w.attempts, i, status) && (w'.duty == Free(w.duty, w.attempts[i].provider) || w'.duty == w.duty)
    requires w' == w.(attempts := w'.attempts, duty := w'.duty)
    ensures PingsOk(w') && OneWinner(w') && TasksExist(w')
  {
    hide AssignmentsOk;
  }

  lemma DeclineKeeps(w: World, i: nat, status: AttemptStatus, now: int, flushed: bool)
    requires Inv(w) && IsPending(w, i) && status != Pending && status != Accepted
    ensures Inv(Decline(w, i, status, now, flushed))
  {
    hide Inv, LastToClose, HandleNoMatch;
    var closed := w.(attempts := WithStatus(w.attempts, i, status));
    var freed := closed.(duty := Free(w.duty, w.attempts[i].provider));
    CloseKeeps(w, closed, i, status);
    CloseKeeps(w, freed, i, status);
    NoMatchKeeps(freed, w.attempts[i].task, w.attempts[i].session, now);
  }

  lemma RespondKeeps(w: World, task: TaskId, provider: ProviderId, answer: Answer, now: int, flushed: bool)
    requires Inv(w)
    ensures Inv(Respond(w, task, provider, answer, now, flushed))
  {
    hide Inv, AcceptedByAnother, Decline, Accept;
    if Pings(w.attempts, task, provider) == 1 {
      var i := LastPing(w.attempts, task, provider);
      assert IsPending(w, i);
      if answer.Accepts? {
        if !IsAssigned(w, task) && !AcceptedByAnother(w.attempts, task, provider) {
          AcceptKeeps(w, i, flushed);
        }
      } else {
        DeclineKeeps(w, i, if answer.Declines? then Declined else Timeout, now, flushed);
      }
    }
  }

  // ── Pings ───────────────────────────────────────────────────────────────

  lemma StalePings(w: World, task: TaskId, now: int)
    requires PingsOk(w)
    ensures PingsOk(RecoverStale(w, task, now))
  {
    var w' := RecoverStale(w, task, now);
    forall i | 0 <= i < |w'.attempts| && w'.attempts[i].status == Pending
      ensures w'.attempts[i].provider in w'.duty && w'.duty[w'.attempts[i].provider] == OnDispatch
    {
      assert w'.attempts[i] == w.attempts[i];
      forall k | 0 <= k < |w.attempts| && w.attempts[k].provider == w.attempts[i].provider
        ensures !IsStale(w.attempts[k], task, now)
      {
        if k != i {
          assert w.attempts[k].status != Pending;
        }
      }
    }
  }

  lemma StaleKeeps(w: World, task: TaskId, now: int)
    requires Inv(w)
    ensures Inv(RecoverStale(w, task, now))
  {
    var w' := RecoverStale(w, task, now);
    StalePings(w, task, now);
    hide PingsOk, HasStale;
    forall t | t in w'.tasks && IsAssigned(w', t) ensures AssignedTo(w', t, w.tasks[t].assignedTo.value) {
      var p := w.tasks[t].assignedTo.value;
      assert IsAssigned(w, t) && AssignedTo(w, t, p);
      var k :| 0 <= k < |w.attempts| && w.attempts[k].task == t && w.attempts[k].provider == p && w.attempts[k].status == Accepted;
      assert w'.attempts[k] == w.attempts[k];
    }
  }

  lemma {:induction false} WinnersAreFree(batch: seq<ProviderId>, duty: map<ProviderId, Duty>)
    ensures forall k | 0 <= k < |Winners(batch, duty)| ::
      var p := Winners(batch, duty)[k]; p in batch && p in duty && duty[p] == OnlineAvailable
    ensures !Duplicates(batch) ==> !Duplicates(Winners(batch, duty))
  {
    if |batch| > 0 {
      var front := batch[..|batch| - 1];
      WinnersAreFree(front, duty);
      if !Duplicates(batch) {
        assert forall i, j | 0 <= i < j < |front| :: batch[i] != batch[j];
        assert forall i | 0 <= i < |front| :: batch[i] != batch[|batch| - 1];
      }
    }
  }

  lemma BatchPings(w: World, session: SessionId, task: TaskId, batch: seq<ProviderId>, start: nat, now: int, duration: int)
    requires PingsOk(w) && !Duplicates(batch)
    ensures PingsOk(PingBatch(w, session, task, batch, start, now, duration))
  {
    var w' := PingBatch(w, session, task, batch, start, now, duration);
    var winners := Winners(batch, w.duty);
    WinnersAreFree(batch, w.duty);
    hide Winners;
    assert forall i | 0 <= i < |w.attempts| :: w'.attempts[i] == w.attempts[i];
    forall i | |w.attempts| <= i < |w'.attempts| ensures w'.attempts[i].provider == winners[i - |w.attempts|] {
    }
    forall i, j | 0 <= i < j < |w'.attempts| && w'.attempts[i].status == Pending && w'.attempts[j].status == Pending
      ensures w'.attempts[i].provider != w'.attempts[j].provider
    {
      if i >= |w.attempts| {
        assert winners[i - |w.attempts|] != winners[j - |w.attempts|];
      }
    }
  }

  lemma BatchKeeps(w: World, session: SessionId, task: TaskId, batch: seq<ProviderId>, start: nat, now: int, duration: int)
    requires Inv(w) && !Duplicates(batch) && task in w.tasks && !IsAssigned(w, task)
    ensures Inv(PingBatch(w, session, task, batch, start, now, duration))
  {
    var w' := PingBatch(w, session, task, batch, start, now, duration);
    BatchPings(w, session, task, batch, start, now, duration);
    hide PingsOk, Winners;
    assert forall i | 0 <= i < |w.attempts| :: w'.attempts[i] == w.attempts[i];
    forall t | t in w'.tasks && IsAssigned(w', t) ensures AssignedTo(w', t, w.tasks[t].assignedTo.value) {
      var p := w.tasks[t].assignedTo.value;
      assert IsAssigned(w, t) && AssignedTo(w, t, p);
      var k :| 0 <= k < |w.attempts| && w.attempts[k].task == t && w.attempts[k].provider == p && w.attempts[k].status == Accepted;
      assert w'.attempts[k] == w.attempts[k];
    }
  }

  lemma BumpKeeps(w: World, session: SessionId)
    requires Inv(w) && session < |w.sessions|
    ensures Inv(Bump(w, session))
  {
    hide Inv;
    SchedulingKeeps(w, Bump(w, session));
  }

  lemma RunCommitsKeeps(w: World, session: SessionId, now: int)
    requires Inv(w)
    ensures Inv(RunCommits(w, session, now))
  {
    hide Inv, RecoverStale, AnyStale, Bump;
    if Searches(w, session) {
      BumpKeeps(w, session);
      StaleKeeps(Bump(w, session), w.sessions[session].task, now);
    }
  }

  lemma RunEngineKeeps(w: World, session: SessionId, found: bool, now: int)
    requires Inv(w)
    ensures Inv(RunJob(w, session, found, now))
  {
    hide Inv, RunCommits, Bump, HandleNoMatch, BumpStaysOpen, Searches;
    RunCommitsKeeps(w, session, now);
    var run := RunCommits(w, session, now);
    if session < |w.sessions| {
      RunKeepsSessions(w, session, now);
      BumpKeeps(run, session);
      NoMatchKeeps(run, w.sessions[session].task, session, now);
      NoMatchKeeps(Bump(run, session), w.sessions[session].task, session, now);
    }
  }

  lemma RunKeepsSessions(w: World, session: SessionId, now: int)
    ensures |RunCommits(w, session, now).sessions| == |w.sessions|
  {
    hide AnyStale, HasStale, ExpireStale;
  }

  lemma StepKeeps(w: World, e: Event)
    requires Inv(w)
    ensures Inv(Step(w, e))
  {
    hide Inv;
    if Enabled(w, e) {
      match e
      case Start(task) => StartKeeps(w, task);
      case Retry(task) => RetryKeeps(w, task);
      case RedispatchBy(task, user, isAdmin) => RedispatchKeeps(w, task, user, isAdmin);
      case NoMatchFor(task, session, now) => NoMatchKeeps(w, task, session, now);
      case Claims(task, now) => ClaimKeeps(w, e);
      case Reclaims(task, now) => ClaimKeeps(w, e);
      case Responds(task, provider, answer, now, flushed) => RespondKeeps(w, task, provider, answer, now, flushed);
      case RunEngine(session, found, now) => RunEngineKeeps(w, session, found, now);
      case PingNext(session, batch, start, now, duration) =>
        BatchKeeps(w, session, w.sessions[session].task, batch, start, now, duration);
      case Recover(task, now) => StaleKeeps(w, task, now);
    }
  }

  lemma {:induction false} RunKeeps(w: World, run: seq<Event>)
    requires Opening(w)
    ensures Inv(After(w, run))
  {
    if |run| > 0 {
      RunKeeps(w, run[..|run| - 1]);
      StepKeeps(After(w, run[..|run| - 1]), run[|run| - 1]);
    }
  }

  // ── The promises ────────────────────────────────────────────────────────

  /** In every run a provider has at most one open ping, over all tasks, and is on dispatch while it has. */
  lemma ProviderPingedOnce(w: World, run: seq<Event>, i: nat, j: nat)
    requires Opening(w) && IsPending(After(w, run), i) && IsPending(After(w, run), j)
    requires After(w, run).attempts[i].provider == After(w, run).attempts[j].provider
    ensures i == j
    ensures var p := After(w, run).attempts[i].provider;
      p in After(w, run).duty && After(w, run).duty[p] == OnDispatch
  {
    RunKeeps(w, run);
  }

  /** In every run an assigned task's rows agree, its provider is on it alone, and it is no longer dispatched. */
  lemma AssignmentIsConsistent(w: World, run: seq<Event>, t: TaskId)
    requires Opening(w) && IsAssigned(After(w, run), t)
    ensures var s := After(w, run);
      && s.tasks[t].assignedTo.Some? && AssignedTo(s, t, s.tasks[t].assignedTo.value)
      && (forall u | u in s.tasks && u != t :: IsAssigned(s, u) ==> s.tasks[u].assignedTo != s.tasks[t].assignedTo)
  {
    RunKeeps(w, run);
  }

  /** Over every run, redispatch included, all acceptances of a task come from one provider. */
  lemma SingleWinner(w: World, run: seq<Event>, i: nat, j: nat)
    requires Opening(w) && i < |After(w, run).attempts| && j < |After(w, run).attempts|
    requires After(w, run).attempts[i].status == Accepted && After(w, run).attempts[j].status == Accepted
    requires After(w, run).attempts[i].task == After(w, run).attempts[j].task
    ensures After(w, run).attempts[i].provider == After(w, run).attempts[j].provider
  {
    RunKeeps(w, run);
    hide After, PingsOk, AssignmentsOk, TasksExist, OneWinner;
    WinnersAgree(After(w, run), i, j);
  }

  lemma WinnersAgree(w: World, i: nat, j: nat)
    requires OneWinner(w) && i < |w.attempts| && j < |w.attempts|
    requires w.attempts[i].status == Accepted && w.attempts[j].status == Accepted
    requires w.attempts[i].task == w.attempts[j].task
    ensures w.attempts[i].provider == w.attempts[j].provider
  {
  }

  // ── How long a task stays assigned ──────────────────────────────────────

  /** The steps that report a task without a match, whatever its status. */
  predicate ReportsNoMatch(w: World, e: Event, t: TaskId) {
    match e
    case NoMatchFor(task, _, _) => task == t
    case RunEngine(session, found, _) =>
      session < |w.sessions| && w.sessions[session].task == t && !(Searches(w, session) && found)
    case _ => false
  }

  /** The steps that take a task away from its provider. */
  predicate Unassigns(w: World, e: Event, t: TaskId)
    requires t in w.tasks
  {
    if e.RedispatchBy? then e.task == t && RedispatchCheck(w, t, e.user, e.isAdmin).Done?
    else ReportsNoMatch(w, e, t) && !Policy.CanAutoRetry(w.tasks[t].autoCount)
  }

  lemma NoMatchEffect(w: World, task: TaskId, session: SessionId, now: int, t: TaskId)
    requires t in w.tasks
    ensures var w' := HandleNoMatch(w, task, session, now);
      && t in w'.tasks
      && (t != task ==> w'.tasks[t] == w.tasks[t])
      && (t == task ==> (w'.tasks[t].status ==
            if Policy.CanAutoRetry(w.tasks[t].autoCount) then w.tasks[t].status else TaskStatus.NoMatch))
  {
    hide Policy.NextRetryDelay;
  }

  lemma EngineEffect(w: World, session: SessionId, found: bool, now: int, t: TaskId)
    requires t in w.tasks
    ensures var w' := RunJob(w, session, found, now);
      && t in w'.tasks
      && (!ReportsNoMatch(w, RunEngine(session, found, now), t) ==> w'.tasks[t] == w.tasks[t])
      && (ReportsNoMatch(w, RunEngine(session, found, now), t) ==> (w'.tasks[t].status ==
            if Policy.CanAutoRetry(w.tasks[t].autoCount) then w.tasks[t].status else TaskStatus.NoMatch))
  {
    if session < |w.sessions| {
      RunKeepsTasks(w, session, now);
      RunKeepsSessions(w, session, now);
      hide RunCommits, HandleNoMatch;
      var run := RunCommits(w, session, now);
      NoMatchEffect(run, w.sessions[session].task, session, now, t);
      NoMatchEffect(Bump(run, session), w.sessions[session].task, session, now, t);
    }
  }

  lemma RunKeepsTasks(w: World, session: SessionId, now: int)
    ensures RunCommits(w, session, now).tasks == w.tasks
  {
    hide AnyStale, HasStale, ExpireStale;
  }

  lemma DeclineEffect(w: World, i: nat, status: AttemptStatus, now: int, flushed: bool, t: TaskId)
    requires i < |w.attempts| && t in w.tasks && (w.attempts[i].task != t || w.tasks[t].status != Searching)
    ensures var w' := Decline(w, i, status, now, flushed); t in w'.tasks && w'.tasks[t] == w.tasks[t]
  {
    var freed := w.(attempts := WithStatus(w.attempts, i, status), duty := Free(w.duty, w.attempts[i].provider));
    NoMatchEffect(freed, w.attempts[i].task, w.attempts[i].session, now, t);
    hide HandleNoMatch, AnyPending;
  }

  lemma ResponsesLeaveAssigned(w: World, e: Event, t: TaskId)
    requires IsAssigned(w, t) && e.Responds?
    ensures IsAssigned(Step(w, e), t)
  {
    if Pings(w.attempts, e.task, e.provider) == 1 {
      var i := LastPing(w.attempts, e.task, e.provider);
      DeclineEffect(w, i, if e.answer.Declines? then Declined else Timeout, e.now, e.flushed, t);
    }
    hide AcceptedByAnother, Decline, CancelOthers, CloseSessions, Pings;
  }

  lemma OthersLeaveAssigned(w: World, e: Event, t: TaskId)
    requires IsAssigned(w, t) && !e.Responds?
    ensures IsAssigned(Step(w, e), t) <==> !Unassigns(w, e, t)
  {
    match e
    case NoMatchFor(task, session, now) => NoMatchEffect(w, task, session, now, t);
    case RunEngine(session, found, now) => EngineEffect(w, session, found, now, t);
    case _ =>
    hide HandleNoMatch, RunJob, MaxSequence, Winners, ExpireStale, HasStale;
  }

  /**
   A task stays assigned exactly until it is manually redispatched, or a no-match report finds its
   automatic retries used up: a late one, or one of an engine job whose session is over. Neither
   looks at the status of the task.
   */
  lemma {:induction false} AssignedUntil(w: World, run: seq<Event>, e: Event, t: TaskId)
    requires IsAssigned(After(w, run), t)
    ensures IsAssigned(Step(After(w, run), e), t) <==> !Unassigns(After(w, run), e, t)
  {
    hide Step;
    if e.Responds? {
      ResponsesLeaveAssigned(After(w, run), e, t);
    } else {
      OthersLeaveAssigned(After(w, run), e, t);
    }
  }
}
