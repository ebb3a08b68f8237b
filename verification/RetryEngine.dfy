/** The bounded retry engine: how sessions are numbered and how often a task is retried. */
module RetryEngine {
  import opened Common
  import opened DispatchStore
  import opened DispatchSafety
  import Policy = DispatchPolicy

  // ── Sessions of a task ──────────────────────────────────────────────────

  function SessionCount(sessions: seq<Session>, t: TaskId): nat {
    if |sessions| == 0 then 0 else
      SessionCount(sessions[..|sessions| - 1], t) + (if sessions[|sessions| - 1].task == t then 1 else 0)
  }

  function AutoSessions(sessions: seq<Session>, t: TaskId): nat {
    if |sessions| == 0 then 0 else
      var last := sessions[|sessions| - 1];
      AutoSessions(sessions[..|sessions| - 1], t) + (if last.task == t && last.trigger == AutoRetry then 1 else 0)
  }

  /** The sequence numbers of a task's sessions, oldest first. */
  function Numbers(sessions: seq<Session>, t: TaskId): seq<nat> {
    if |sessions| == 0 then [] else
      var last := sessions[|sessions| - 1];
      Numbers(sessions[..|sessions| - 1], t) + (if last.task == t then [last.sequence] else [])
  }

  /** 1, 2, ..., n. */
  function UpTo(n: nat): seq<nat> {
    if n == 0 then [] else UpTo(n - 1) + [n]
  }

  predicate NumberedOk(sessions: seq<Session>, t: TaskId) {
    Numbers(sessions, t) == UpTo(SessionCount(sessions, t)) && MaxSequence(sessions, t) == SessionCount(sessions, t)
  }

  ghost predicate EngineOk(w: World) {
    && (forall t :: NumberedOk(w.sessions, t))
    && (forall t | t in w.tasks ::
          AutoSessions(w.sessions, t) == w.tasks[t].autoCount <= Policy.AUTO_DISPATCH_MAX)
    && (forall i | 0 <= i < |w.sessions| :: w.sessions[i].task in w.tasks)
  }

  /** Only the status and the lock version of sessions differ. */
  predicate SameSessions(a: seq<Session>, b: seq<Session>) {
    |a| == |b| && forall i | 0 <= i < |a| ::
      a[i].task == b[i].task && a[i].trigger == b[i].trigger && a[i].sequence == b[i].sequence
  }

  lemma {:induction false} SameCounts(a: seq<Session>, b: seq<Session>, t: TaskId)
    requires SameSessions(a, b)
    ensures SessionCount(a, t) == SessionCount(b, t) && AutoSessions(a, t) == AutoSessions(b, t)
    ensures Numbers(a, t) == Numbers(b, t) && MaxSequence(a, t) == MaxSequence(b, t)
  {
    if |a| > 0 {
      SameCounts(a[..|a| - 1], b[..|b| - 1], t);
    }
  }

  /** Neither the numbering nor the retry counters differ. */
  predicate SameBooks(w: World, w': World) {
    && SameSessions(w.sessions, w'.sessions)
    && w'.tasks.Keys == w.tasks.Keys
    && forall t | t in w.tasks :: w'.tasks[t].autoCount == w.tasks[t].autoCount
  }

  lemma SameBooksKeep(w: World, w': World)
    requires EngineOk(w) && SameBooks(w, w')
    ensures EngineOk(w')
  {
    forall t ensures NumberedOk(w'.sessions, t) && AutoSessions(w'.sessions, t) == AutoSessions(w.sessions, t) {
      assert NumberedOk(w.sessions, t);
      SameCounts(w.sessions, w'.sessions, t);
    }
  }

  /** A new session takes the next number; an automatic one is counted. */
  lemma OpenKeeps(w: World, task: TaskId, trigger: Trigger, row: Task)
    requires EngineOk(w) && task in w.tasks
    requires row.autoCount == w.tasks[task].autoCount + (if trigger == AutoRetry then 1 else 0)
    requires trigger == AutoRetry ==> row.autoCount <= Policy.AUTO_DISPATCH_MAX
    ensures EngineOk(OpenSession(WithTask(w, task, row), task, trigger))
  {
    var w' := OpenSession(WithTask(w, task, row), task, trigger);
    assert w'.sessions[..|w'.sessions| - 1] == w.sessions;
    forall t ensures NumberedOk(w'.sessions, t) {
      assert NumberedOk(w.sessions, t);
    }
  }

  lemma NoMatchSameBooks(w: World, task: TaskId, session: SessionId, now: int)
    ensures SameBooks(w, HandleNoMatch(w, task, session, now))
  {
    hide Policy.NextRetryDelay;
  }

  lemma SameBooksChain(a: World, b: World, c: World)
    requires SameBooks(a, b) && SameBooks(b, c)
    ensures SameBooks(a, c)
  {
  }

  lemma AcceptSameBooks(w: World, i: nat, flushed: bool)
    requires i < |w.attempts|
    ensures SameBooks(w, Accept(w, i, flushed))
  {
    hide CancelOthers;
  }

  lemma DeclineSameBooks(w: World, i: nat, status: AttemptStatus, now: int, flushed: bool)
    requires i < |w.attempts|
    ensures SameBooks(w, Decline(w, i, status, now, flushed))
  {
    hide HandleNoMatch, LastToClose, WithStatus;
    var freed := w.(attempts := WithStatus(w.attempts, i, status), duty := Free(w.duty, w.attempts[i].provider));
    NoMatchSameBooks(freed, w.attempts[i].task, w.attempts[i].session, now);
  }

  lemma RespondSameBooks(w: World, task: TaskId, provider: ProviderId, answer: Answer, now: int, flushed: bool)
    ensures SameBooks(w, Respond(w, task, provider, answer, now, flushed))
  {
    hide Accept, Decline, AcceptedByAnother, Pings;
    if Pings(w.attempts, task, provider) == 1 {
      var i := LastPing(w.attempts, task, provider);
      AcceptSameBooks(w, i, flushed);
      DeclineSameBooks(w, i, if answer.Declines? then Declined else Timeout, now, flushed);
    }
  }

  lemma EngineSameBooks(w: World, session: SessionId, found: bool, now: int)
    ensures SameBooks(w, RunJob(w, session, found, now))
  {
    CommitsSameBooks(w, session, now);
    if session < |w.sessions| {
      var run, task := RunCommits(w, session, now), w.sessions[session].task;
      NoMatchSameBooks(run, task, session, now);
      NoMatchSameBooks(Bump(run, session), task, session, now);
      hide RunCommits, HandleNoMatch, SameBooks, Bump;
      SameBooksChain(run, Bump(run, session), HandleNoMatch(Bump(run, session), task, session, now));
      SameBooksChain(w, run, HandleNoMatch(run, task, session, now));
      SameBooksChain(w, run, HandleNoMatch(Bump(run, session), task, session, now));
    }
  }

  lemma CommitsSameBooks(w: World, session: SessionId, now: int)
    ensures SameBooks(w, RunCommits(w, session, now))
    ensures session < |w.sessions| ==> SameBooks(RunCommits(w, session, now), Bump(RunCommits(w, session, now), session))
  {
    hide AnyStale, HasStale, ExpireStale;
  }

  lemma StartKeepsEngine(w: World, task: TaskId)
    requires EngineOk(w)
    ensures EngineOk(StartInitial(w, task))
  {
    hide EngineOk, OpenSession;
    if task in w.tasks && Dispatchable(w.tasks[task].status) {
      OpenKeeps(w, task, Initial, w.tasks[task].(dispatch := Dispatching, status := Searching));
    }
  }

  lemma RetryKeepsEngine(w: World, task: TaskId)
    requires EngineOk(w)
    ensures EngineOk(AutoRetryTask(w, task))
  {
    hide EngineOk, OpenSession;
    if task in w.tasks && Dispatchable(w.tasks[task].status) {
      var row := w.tasks[task];
      if Policy.CanAutoRetry(row.autoCount) {
        OpenKeeps(w, task, AutoRetry, row.(autoCount := row.autoCount + 1, dispatch := Dispatching, status := Searching));
      } else {
        SameBooksKeep(w, GiveUp(w, task));
      }
    }
  }

  lemma RedispatchKeepsEngine(w: World, task: TaskId, user: string, isAdmin: bool)
    requires EngineOk(w)
    ensures EngineOk(Redispatch(w, task, user, isAdmin))
  {
    hide EngineOk, OpenSession;
    if RedispatchCheck(w, task, user, isAdmin).Done? {
      var row := w.tasks[task];
      var freed := Unassign(w, task);
      SameBooksKeep(w, freed);
      OpenKeeps(freed, task, Manual,
                row.(assignedTo := None, manualCount := row.manualCount + 1, dispatch := Dispatching, status := Searching));
    }
  }

  lemma StepKeepsEngine(w: World, e: Event)
    requires EngineOk(w)
    ensures EngineOk(Step(w, e))
  {
    hide EngineOk, HandleNoMatch, Respond, RunJob, StartInitial, AutoRetryTask, Redispatch, ExpireStale, HasStale, Winners;
    match e
    case Start(task) => StartKeepsEngine(w, task);
    case Retry(task) => RetryKeepsEngine(w, task);
    case RedispatchBy(task, user, isAdmin) => RedispatchKeepsEngine(w, task, user, isAdmin);
    case NoMatchFor(task, session, now) =>
      NoMatchSameBooks(w, task, session, now);
      SameBooksKeep(w, Step(w, e));
    case Claims(_, _) => SameBooksKeep(w, Step(w, e));
    case Reclaims(_, _) => SameBooksKeep(w, Step(w, e));
    case Responds(task, provider, answer, now, flushed) =>
      RespondSameBooks(w, task, provider, answer, now, flushed);
      SameBooksKeep(w, Step(w, e));
    case RunEngine(session, found, now) =>
      EngineSameBooks(w, session, found, now);
      SameBooksKeep(w, Step(w, e));
    case PingNext(_, _, _, _, _) => SameBooksKeep(w, Step(w, e));
    case Recover(_, _) => SameBooksKeep(w, Step(w, e));
  }

  lemma {:induction false} RunKeepsEngine(w: World, run: seq<Event>)
    requires Opening(w)
    ensures EngineOk(After(w, run))
  {
    if |run| == 0 {
      forall t ensures NumberedOk(w.sessions, t) && AutoSessions(w.sessions, t) == 0 {
      }
    } else {
      RunKeepsEngine(w, run[..|run| - 1]);
      StepKeepsEngine(After(w, run[..|run| - 1]), run[|run| - 1]);
    }
  }

  /** After any run a task's sessions are numbered 1..n, and those made by the retry engine are counted, at most 5. */
  lemma SessionsNumberedAndBounded(w: World, run: seq<Event>, t: TaskId)
    requires Opening(w) && t in After(w, run).tasks
    ensures var s := After(w, run);
      && Numbers(s.sessions, t) == UpTo(SessionCount(s.sessions, t))
      && AutoSessions(s.sessions, t) == s.tasks[t].autoCount <= 5
  {
    RunKeepsEngine(w, run);
    assert NumberedOk(After(w, run).sessions, t);
  }

  // ── Steps, as a task left to the engine sees them ───────────────────────

  /** A response that closes the task's last open ping without an acceptance. */
  predicate LastDeclines(w: World, e: Event, t: TaskId) {
    && e.Responds? && e.task == t && !e.answer.Accepts? && Pings(w.attempts, t, e.provider) == 1
    && LastToClose(w, LastPing(w.attempts, t, e.provider), if e.answer.Declines? then Declined else Timeout)
  }

  /** The step reports that a session of the task found nobody. */
  predicate Reports(w: World, e: Event, t: TaskId) {
    ReportsNoMatch(w, e, t) || LastDeclines(w, e, t)
  }

  /** The task is not started again, not redispatched and not accepted. */
  predicate LeavesAlone(w: World, e: Event, t: TaskId) {
    match e
    case Start(task) => task != t
    case RedispatchBy(task, user, isAdmin) => task != t || !RedispatchCheck(w, t, user, isAdmin).Done?
    case Responds(task, _, answer, _, _) => task != t || !answer.Accepts? || Step(w, e) == w
    case _ => true
  }

  predicate Undisturbed(w: World, more: seq<Event>, t: TaskId) {
    |more| == 0 ||
    (Undisturbed(w, more[..|more| - 1], t) && LeavesAlone(After(w, more[..|more| - 1]), more[|more| - 1], t))
  }

  /** The engine may work on the task: its counter is in bounds and it is neither assigned nor closed. */
  predicate Engaged(w: World, t: TaskId) {
    t in w.tasks && Dispatchable(w.tasks[t].status) && w.tasks[t].autoCount <= Policy.AUTO_DISPATCH_MAX
  }

  /** A task whose retries are used up and that was given up. */
  predicate GivenUp(w: World, t: TaskId) {
    t in w.tasks && w.tasks[t].dispatch == AutoExhausted && w.tasks[t].status == NoMatch
    && w.tasks[t].autoCount >= Policy.AUTO_DISPATCH_MAX
  }

  /** What a report makes of the row: a retry is scheduled, or the task is given up. */
  function Reported(row: Task, now: int): Task {
    if Policy.CanAutoRetry(row.autoCount)
    then row.(dispatch := RetryScheduled, nextDispatchAt := Some(now + Policy.NextRetryDelay(row.autoCount)))
    else row.(dispatch := AutoExhausted, status := NoMatch)
  }

  lemma NoMatchRow(w: World, task: TaskId, session: SessionId, now: int, t: TaskId)
    requires t in w.tasks
    ensures var w' := HandleNoMatch(w, task, session, now);
      t in w'.tasks && w'.tasks[t] == if t == task then Reported(w.tasks[t], now) else w.tasks[t]
  {
    hide Policy.NextRetryDelay;
  }

  lemma EngineRow(w: World, session: SessionId, found: bool, now: int, t: TaskId)
    requires t in w.tasks
    ensures var w' := RunJob(w, session, found, now);
      t in w'.tasks && w'.tasks[t] ==
        if ReportsNoMatch(w, RunEngine(session, found, now), t) then Reported(w.tasks[t], now) else w.tasks[t]
  {
    if session < |w.sessions| {
      RunKeepsTasks(w, session, now);
      RunKeepsSessions(w, session, now);
      var run, task := RunCommits(w, session, now), w.sessions[session].task;
      NoMatchRow(run, task, session, now, t);
      NoMatchRow(Bump(run, session), task, session, now, t);
      hide RunCommits, HandleNoMatch, Reported;
    }
  }

  lemma DeclineRow(w: World, e: Event, t: TaskId)
    requires t in w.tasks && e.Responds? && !e.answer.Accepts?
    ensures t in Step(w, e).tasks
    ensures Step(w, e).tasks[t] == if LastDeclines(w, e, t) then Reported(w.tasks[t], e.now) else w.tasks[t]
  {
    if Pings(w.attempts, e.task, e.provider) == 1 {
      var i := LastPing(w.attempts, e.task, e.provider);
      var status := if e.answer.Declines? then Declined else Timeout;
      var freed := w.(attempts := WithStatus(w.attempts, i, status), duty := Free(w.duty, w.attempts[i].provider));
      NoMatchRow(freed, w.attempts[i].task, w.attempts[i].session, e.now, t);
    }
    hide HandleNoMatch, LastToClose, Pings, Reported;
  }

  lemma AcceptRow(w: World, e: Event, t: TaskId)
    requires t in w.tasks && e.Responds? && e.answer.Accepts? && LeavesAlone(w, e, t)
    ensures t in Step(w, e).tasks && Step(w, e).tasks[t] == w.tasks[t]
  {
    hide AcceptedByAnother, CancelOthers, CloseSessions, Pings;
  }

  /** The row of a task that is left alone changes by retries, reports and the two scans only. */
  function RowAfter(w: World, e: Event, t: TaskId): Task
    requires t in w.tasks
  {
    var row := w.tasks[t];
    if e == Retry(t) then
      if !Policy.CanAutoRetry(row.autoCount) then row.(dispatch := AutoExhausted, status := NoMatch)
      else row.(autoCount := row.autoCount + 1, dispatch := Dispatching, status := Searching)
    else if Reports(w, e, t) then Reported(row, e.now)
    else if e.Claims? && e.task == t then ClaimDue(w, t, e.now).tasks[t]
    else if e.Reclaims? && e.task == t then Reclaim(w, t, e.now).tasks[t]
    else row
  }

  lemma LeftAloneRow(w: World, e: Event, t: TaskId)
    requires Engaged(w, t) && LeavesAlone(w, e, t)
    ensures t in Step(w, e).tasks && Step(w, e).tasks[t] == RowAfter(w, e, t)
  {
    hide HandleNoMatch, RunJob, Respond, Reported, MaxSequence, Winners, HasStale, ExpireStale, Pings, LastToClose;
    match e
    case NoMatchFor(task, session, now) => NoMatchRow(w, task, session, now, t);
    case RunEngine(session, found, now) => EngineRow(w, session, found, now, t);
    case Responds(_, _, answer, _, _) =>
      if answer.Accepts? {
        AcceptRow(w, e, t);
      } else {
        DeclineRow(w, e, t);
      }
    case _ =>
  }

  lemma StaysEngaged(w: World, e: Event, t: TaskId)
    requires Engaged(w, t) && LeavesAlone(w, e, t)
    ensures Engaged(Step(w, e), t)
  {
    LeftAloneRow(w, e, t);
    hide Step, Reports, Policy.NextRetryDelay, LeavesAlone;
  }

  lemma {:induction false} RunStaysEngaged(w: World, more: seq<Event>, t: TaskId)
    requires Engaged(w, t) && Undisturbed(w, more, t)
    ensures Engaged(After(w, more), t)
  {
    if |more| > 0 {
      RunStaysEngaged(w, more[..|more| - 1], t);
      StaysEngaged(After(w, more[..|more| - 1]), more[|more| - 1], t);
      hide Engaged, Step, LeavesAlone;
    }
  }

  // ── The counter ─────────────────────────────────────────────────────────

  function RetriesOf(more: seq<Event>, t: TaskId): nat {
    if |more| == 0 then 0 else RetriesOf(more[..|more| - 1], t) + (if more[|more| - 1] == Retry(t) then 1 else 0)
  }

  function CountAfter(start: nat, retries: nat): nat {
    if start + retries <= Policy.AUTO_DISPATCH_MAX then start + retries else Policy.AUTO_DISPATCH_MAX
  }

  /** Whatever else happens meanwhile, the counter is the number of retries, capped at 5. */
  lemma {:induction false} CounterCountsRetries(w: World, more: seq<Event>, t: TaskId)
    requires Engaged(w, t) && Undisturbed(w, more, t)
    ensures t in After(w, more).tasks
    ensures After(w, more).tasks[t].autoCount == CountAfter(w.tasks[t].autoCount, RetriesOf(more, t))
  {
    if |more| > 0 {
      var s, e := After(w, more[..|more| - 1]), more[|more| - 1];
      CounterCountsRetries(w, more[..|more| - 1], t);
      RunStaysEngaged(w, more[..|more| - 1], t);
      LeftAloneRow(s, e, t);
      hide Step, Reports, LeavesAlone, Policy.NextRetryDelay;
    }
  }

  // ── Exhaustion ──────────────────────────────────────────────────────────

  /** A retry or a report that finds the retries used up. */
  predicate UsesUp(w: World, e: Event, t: TaskId) {
    t in w.tasks && w.tasks[t].autoCount == Policy.AUTO_DISPATCH_MAX && (e == Retry(t) || Reports(w, e, t))
  }

  predicate UsedUp(w: World, more: seq<Event>, t: TaskId) {
    |more| > 0 &&
    (UsedUp(w, more[..|more| - 1], t) || UsesUp(After(w, more[..|more| - 1]), more[|more| - 1], t))
  }

  lemma GivenUpStep(w: World, e: Event, t: TaskId)
    requires Engaged(w, t) && LeavesAlone(w, e, t)
    ensures GivenUp(Step(w, e), t) <==> GivenUp(w, t) || UsesUp(w, e, t)
  {
    LeftAloneRow(w, e, t);
    hide Step, Reports, LeavesAlone, Policy.NextRetryDelay;
  }

  /** Left alone, a task is given up exactly once a retry or a report finds its five retries used up, and stays so. */
  lemma {:induction false} GivenUpExactly(w: World, more: seq<Event>, t: TaskId)
    requires Engaged(w, t) && Undisturbed(w, more, t)
    ensures GivenUp(After(w, more), t) <==> GivenUp(w, t) || UsedUp(w, more, t)
  {
    if |more| > 0 {
      GivenUpExactly(w, more[..|more| - 1], t);
      RunStaysEngaged(w, more[..|more| - 1], t);
      GivenUpStep(After(w, more[..|more| - 1]), more[|more| - 1], t);
      hide Step, GivenUp, UsesUp, Engaged, LeavesAlone;
    }
  }

  /** The sixth retry at the latest gives the task up. */
  lemma {:induction false} SixthRetryGivesUp(w: World, more: seq<Event>, t: TaskId)
    requires Engaged(w, t) && Undisturbed(w, more, t)
    requires w.tasks[t].autoCount + RetriesOf(more, t) > Policy.AUTO_DISPATCH_MAX
    ensures GivenUp(After(w, more), t)
  {
    LastRetryUsesUp(w, more, t);
    GivenUpExactly(w, more, t);
  }

  lemma {:induction false} LastRetryUsesUp(w: World, more: seq<Event>, t: TaskId)
    requires Engaged(w, t) && Undisturbed(w, more, t)
    requires w.tasks[t].autoCount + RetriesOf(more, t) > Policy.AUTO_DISPATCH_MAX
    ensures UsedUp(w, more, t)
  {
    var front := more[..|more| - 1];
    if w.tasks[t].autoCount + RetriesOf(front, t) > Policy.AUTO_DISPATCH_MAX {
      LastRetryUsesUp(w, front, t);
    } else {
      CounterCountsRetries(w, front, t);
    }
    hide Reports, After, LeavesAlone;
  }

  // ── Delays ──────────────────────────────────────────────────────────────

  /** The waits after the given number of automatic retries: count of them, from the table. */
  function DelaySum(autoCount: nat, count: nat): nat {
    if count == 0 then 0 else DelaySum(autoCount, count - 1) + Policy.NextRetryDelay(autoCount + count - 1)
  }

  /** The delay the last report since the last retry has asked for; a reclaimed task does not wait. */
  function Asked(w: World, more: seq<Event>, t: TaskId): Option<int> {
    if |more| == 0 then None else
      var s, e := After(w, more[..|more| - 1]), more[|more| - 1];
      if e == Retry(t) || (e.Reclaims? && e.task == t && Step(s, e) != s) then None
      else if t in s.tasks && Policy.CanAutoRetry(s.tasks[t].autoCount) && Reports(s, e, t)
              && t in Step(s, e).tasks && Step(s, e).tasks[t].nextDispatchAt.Some?
      then Some(Step(s, e).tasks[t].nextDispatchAt.value - e.now)
      else Asked(w, more[..|more| - 1], t)
  }

  /** The retry runs: it opens a session. */
  predicate Runs(s: World, e: Event, t: TaskId) {
    e == Retry(t) && t in s.tasks && Policy.CanAutoRetry(s.tasks[t].autoCount)
  }

  /** The delays, together, after which the retries of the run were asked to run. */
  function Waited(w: World, more: seq<Event>, t: TaskId): int {
    if |more| == 0 then 0 else
      var asked := Asked(w, more[..|more| - 1], t);
      Waited(w, more[..|more| - 1], t) +
      (if Runs(After(w, more[..|more| - 1]), more[|more| - 1], t) && asked.Some? then asked.value else 0)
  }

  /** Every retry that runs follows a report. */
  predicate AllReported(w: World, more: seq<Event>, t: TaskId) {
    |more| == 0 ||
    (AllReported(w, more[..|more| - 1], t) &&
     (Runs(After(w, more[..|more| - 1]), more[|more| - 1], t) ==> Asked(w, more[..|more| - 1], t).Some?))
  }

  /** A delay that was asked for is the one the table has for the counter. */
  lemma {:induction false} AskedIsFromTable(w: World, more: seq<Event>, t: TaskId)
    requires Engaged(w, t) && Undisturbed(w, more, t) && Asked(w, more, t).Some?
    ensures t in After(w, more).tasks
    ensures Asked(w, more, t).value == Policy.NextRetryDelay(After(w, more).tasks[t].autoCount)
  {
    var s, e := After(w, more[..|more| - 1]), more[|more| - 1];
    RunStaysEngaged(w, more[..|more| - 1], t);
    LeftAloneRow(s, e, t);
    if e != Retry(t) && !(Reports(s, e, t) && Policy.CanAutoRetry(s.tasks[t].autoCount)) {
      AskedIsFromTable(w, more[..|more| - 1], t);
    }
    hide Step, Reports, LeavesAlone, Policy.NextRetryDelay;
  }

  function Share(a: nat, retries: nat): nat
    requires a <= Policy.AUTO_DISPATCH_MAX
  {
    DelaySum(a, CountAfter(a, retries) - a)
  }

  /** The retries that run wait for at most their share of the table, and for all of it when each was reported. */
  lemma {:induction false} WaitedFromTable(w: World, more: seq<Event>, t: TaskId)
    requires Engaged(w, t) && Undisturbed(w, more, t)
    ensures var share := Share(w.tasks[t].autoCount, RetriesOf(more, t));
      && 0 <= Waited(w, more, t) <= share
      && (AllReported(w, more, t) ==> Waited(w, more, t) == share)
  {
    hide After, Step, Asked, LeavesAlone, Reports, Policy.NextRetryDelay, DelaySum, CountAfter, Share;
    var a := w.tasks[t].autoCount;
    NoShare(a);
    if |more| > 0 {
      var front, e := more[..|more| - 1], more[|more| - 1];
      WaitedFromTable(w, front, t);
      CounterCountsRetries(w, front, t);
      RunStaysEngaged(w, front, t);
      if Asked(w, front, t).Some? {
        AskedIsFromTable(w, front, t);
      }
      WaitStep(a, RetriesOf(front, t), e == Retry(t), Asked(w, front, t), Waited(w, front, t), AllReported(w, front, t));
    }
  }

  lemma NoShare(a: nat)
    requires a <= Policy.AUTO_DISPATCH_MAX
    ensures Share(a, 0) == 0
  {
  }

  /** One more event: a retry that runs adds what was asked for, if anything was. */
  lemma WaitStep(a: nat, retries: nat, retry: bool, asked: Option<int>, waited: int, reported: bool)
    requires a <= Policy.AUTO_DISPATCH_MAX && 0 <= waited <= Share(a, retries) && (reported ==> waited == Share(a, retries))
    requires asked.Some? ==> asked.value == Policy.NextRetryDelay(CountAfter(a, retries))
    ensures
      var runs := retry && CountAfter(a, retries) < Policy.AUTO_DISPATCH_MAX;
      var waited' := waited + (if runs && asked.Some? then asked.value else 0);
      var share' := Share(a, retries + if retry then 1 else 0);
      && 0 <= waited' <= share'
      && (reported && (runs ==> asked.Some?) ==> waited' == share')
  {
    NextShare(a, CountAfter(a, retries) - a);
    hide Policy.NextRetryDelay, DelaySum;
  }

  lemma NextShare(a: nat, n: nat)
    ensures DelaySum(a, n + 1) == DelaySum(a, n) + Policy.NextRetryDelay(a + n)
  {
  }

  lemma FullSchedule()
    ensures DelaySum(0, 5) == 4020
  {
    assert DelaySum(0, 2) == 420;
    assert DelaySum(0, 4) == 2220;
  }

  lemma {:induction false} ShareOfSchedule(a: nat, n: nat)
    requires a + n <= Policy.AUTO_DISPATCH_MAX
    ensures DelaySum(0, a + n) == DelaySum(0, a) + DelaySum(a, n)
  {
    if n > 0 {
      ShareOfSchedule(a, n - 1);
    }
    hide Policy.NextRetryDelay;
  }

  lemma {:induction false} DelaySumGrows(m: nat, n: nat)
    requires m <= n
    ensures DelaySum(0, m) <= DelaySum(0, n)
    decreases n
  {
    if m < n {
      DelaySumGrows(m, n - 1);
    }
  }

  /** Over every run that leaves the task alone, the delays of the retries that ran come to at most 4020 seconds. */
  lemma DelaysAreBounded(w: World, more: seq<Event>, t: TaskId)
    requires Engaged(w, t) && Undisturbed(w, more, t)
    ensures Waited(w, more, t) <= 4020
  {
    hide After, Waited, AllReported, RetriesOf, Undisturbed, Share;
    WaitedFromTable(w, more, t);
    ShareIsBounded(w.tasks[t].autoCount, RetriesOf(more, t));
  }

  lemma ShareIsBounded(a: nat, retries: nat)
    requires a <= Policy.AUTO_DISPATCH_MAX
    ensures Share(a, retries) <= 4020
  {
    var ran := CountAfter(a, retries) - a;
    ShareOfSchedule(a, ran);
    DelaySumGrows(a + ran, Policy.AUTO_DISPATCH_MAX);
    FullSchedule();
    hide DelaySum;
  }

  /** A fresh task that is retried five times, each after a report, has waited exactly 4020 seconds. */
  lemma ExhaustedAfterFive(w: World, more: seq<Event>, t: TaskId)
    requires Engaged(w, t) && w.tasks[t].autoCount == 0 && Undisturbed(w, more, t)
    requires RetriesOf(more, t) >= Policy.AUTO_DISPATCH_MAX && AllReported(w, more, t)
    ensures Waited(w, more, t) == 4020
    ensures forall e | LeavesAlone(After(w, more), e, t) && (e == Retry(t) || Reports(After(w, more), e, t)) ::
      GivenUp(Step(After(w, more), e), t)
  {
    WaitedFromTable(w, more, t);
    FullSchedule();
    CounterCountsRetries(w, more, t);
    RunStaysEngaged(w, more, t);
    hide DelaySum, Waited, AllReported, RetriesOf, Undisturbed, After, Step, Reports, GivenUp, LeavesAlone;
    forall e | LeavesAlone(After(w, more), e, t) && (e == Retry(t) || Reports(After(w, more), e, t))
      ensures GivenUp(Step(After(w, more), e), t)
    {
      GivenUpStep(After(w, more), e, t);
    }
  }
}
