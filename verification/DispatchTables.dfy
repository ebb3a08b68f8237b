/**
 The dispatch tables row by row: what each call makes of one ping, one duty status, one session, one
 task and one assignment, in terms of the rows it finds. The calls themselves work on whole tables.
 */
module DispatchTables {
  import opened Common
  import opened DispatchStore
  import opened DispatchSafety
  import Policy = DispatchPolicy

  // ── Conditions ──────────────────────────────────────────────────────────

  /** Row i is an open ping of the provider for the task. */
  predicate IsOpen(s: World, i: nat, t: TaskId, q: ProviderId) {
    i < |s.attempts| && s.attempts[i].task == t && s.attempts[i].provider == q && s.attempts[i].status == Pending
  }

  predicate HasOpen(s: World, t: TaskId, q: ProviderId) {
    exists i | 0 <= i < |s.attempts| :: IsOpen(s, i, t, q)
  }

  predicate WonByOther(s: World, t: TaskId, q: ProviderId) {
    exists i | 0 <= i < |s.attempts| ::
      s.attempts[i].task == t && s.attempts[i].status == Accepted && s.attempts[i].provider != q
  }

  /** An acceptance of an open ping goes through, unless the task is assigned or somebody else has won it. */
  predicate Wins(s: World, e: Event) {
    && e.Responds? && e.answer == Accepts && HasOpen(s, e.task, e.provider)
    && !(e.task in s.tasks && s.tasks[e.task].status == TaskStatus.Assigned) && !WonByOther(s, e.task, e.provider)
  }

  /** Its last updates are committed with the notification of the customer, or with the log. */
  predicate ClosesRest(s: World, e: Event) {
    Wins(s, e) && (e.flushed || (e.task in s.tasks && s.tasks[e.task].customer.Some?))
  }

  predicate Refuses(s: World, e: Event) {
    e.Responds? && e.answer != Accepts && HasOpen(s, e.task, e.provider)
  }

  predicate OthersOpen(s: World, t: TaskId, q: ProviderId) {
    exists i | 0 <= i < |s.attempts| :: s.attempts[i].task == t && s.attempts[i].status == Pending && s.attempts[i].provider != q
  }

  /** The refusal of the last open ping of a searching task is reported as no match. */
  predicate EndsSearch(s: World, e: Event) {
    Refuses(s, e) && !OthersOpen(s, e.task, e.provider) && e.task in s.tasks && s.tasks[e.task].status == Searching
  }

  /** The engine works on a running session of a task that exists. */
  predicate Works(s: World, e: Event) {
    e.RunEngine? && e.session < |s.sessions| && s.sessions[e.session].status == Running && s.sessions[e.session].task in s.tasks
  }

  /** The scan or the engine finds the ping overdue. */
  predicate Expires(s: World, e: Event, a: Attempt) {
    && a.status == Pending
    && ((e.Recover? && a.task == e.task && a.expiresAt <= e.now)
        || (Works(s, e) && a.task == s.sessions[e.session].task && a.expiresAt <= e.now))
  }

  // ── Pings ───────────────────────────────────────────────────────────────

  function StatusAfter(s: World, e: Event, a: Attempt): AttemptStatus {
    if a.status != Pending then a.status
    else if Wins(s, e) && a.task == e.task && a.provider == e.provider then Accepted
    else if ClosesRest(s, e) && a.task == e.task then AttemptStatus.Cancelled
    else if Refuses(s, e) && a.task == e.task && a.provider == e.provider then (if e.answer == Declines then Declined else Timeout)
    else if Expires(s, e, a) then Timeout
    else Pending
  }

  lemma {:induction false} OnePing(attempts: seq<Attempt>, t: TaskId, q: ProviderId, i: nat)
    requires i < |attempts| && IsPing(attempts[i], t, q)
    requires forall k | 0 <= k < |attempts| && k != i :: !IsPing(attempts[k], t, q)
    ensures Pings(attempts, t, q) == 1 && LastPing(attempts, t, q) == i
  {
    var n := |attempts| - 1;
    if i < n {
      assert forall k | 0 <= k < n :: attempts[..n][k] == attempts[k];
      OnePing(attempts[..n], t, q, i);
    } else {
      NoPings(attempts[..n], t, q);
    }
  }

  lemma {:induction false} NoPings(attempts: seq<Attempt>, t: TaskId, q: ProviderId)
    requires forall k | 0 <= k < |attempts| :: !IsPing(attempts[k], t, q)
    ensures Pings(attempts, t, q) == 0
  {
    if |attempts| > 0 {
      NoPings(attempts[..|attempts| - 1], t, q);
    }
  }

  /** The response query finds the open ping, if there is one. */
  lemma FindsOpen(s: World, t: TaskId, q: ProviderId)
    requires PingsOk(s)
    ensures Pings(s.attempts, t, q) == if HasOpen(s, t, q) then 1 else 0
    ensures HasOpen(s, t, q) ==> IsOpen(s, LastPing(s.attempts, t, q), t, q)
    ensures forall i: nat | IsOpen(s, i, t, q) :: i == LastPing(s.attempts, t, q)
  {
    if HasOpen(s, t, q) {
      var i :| 0 <= i < |s.attempts| && IsOpen(s, i, t, q);
      OnePing(s.attempts, t, q, i);
    } else {
      assert forall k | 0 <= k < |s.attempts| :: !IsPing(s.attempts[k], t, q) by {
        forall k | 0 <= k < |s.attempts| ensures !IsPing(s.attempts[k], t, q) {
          assert !IsOpen(s, k, t, q);
        }
      }
      NoPings(s.attempts, t, q);
    }
  }

  lemma AcceptedPings(s: World, e: Event, i: nat)
    requires PingsOk(s) && e.Responds? && e.answer == Accepts && i < |s.attempts|
    ensures i < |Step(s, e).attempts| == |s.attempts|
    ensures Step(s, e).attempts[i] == s.attempts[i].(status := StatusAfter(s, e, s.attempts[i]))
  {
    FindsOpen(s, e.task, e.provider);
    assert AcceptedByAnother(s.attempts, e.task, e.provider) <==> WonByOther(s, e.task, e.provider);
    assert IsOpen(s, i, e.task, e.provider) <==>
      s.attempts[i].task == e.task && s.attempts[i].provider == e.provider && s.attempts[i].status == Pending;
    hide Pings, AcceptedByAnother, WonByOther, HasOpen, PingsOk;
  }

  lemma RefusedPings(s: World, e: Event, i: nat)
    requires PingsOk(s) && e.Responds? && e.answer != Accepts && i < |s.attempts|
    ensures i < |Step(s, e).attempts| == |s.attempts|
    ensures Step(s, e).attempts[i] == s.attempts[i].(status := StatusAfter(s, e, s.attempts[i]))
  {
    FindsOpen(s, e.task, e.provider);
    assert IsOpen(s, i, e.task, e.provider) <==>
      s.attempts[i].task == e.task && s.attempts[i].provider == e.provider && s.attempts[i].status == Pending;
    hide Pings, HasOpen, PingsOk, LastToClose, Policy.NextRetryDelay;
  }

  lemma OtherPings(s: World, e: Event, i: nat)
    requires !e.Responds? && !e.RunEngine? && i < |s.attempts|
    ensures i < |Step(s, e).attempts|
    ensures Step(s, e).attempts[i] == s.attempts[i].(status := StatusAfter(s, e, s.attempts[i]))
  {
    hide MaxSequence, HasStale, Winners, Policy.NextRetryDelay, TakeDuty, WonByOther;
  }

  /** The engine finds overdue pings of the task exactly when one expires. */
  lemma StaleExpires(s: World, e: Event)
    requires Works(s, e)
    ensures Searches(s, e.session)
    ensures AnyStale(s.attempts, s.sessions[e.session].task, e.now) <==> exists i | 0 <= i < |s.attempts| :: Expires(s, e, s.attempts[i])
    ensures forall i | 0 <= i < |s.attempts| :: Expires(s, e, s.attempts[i]) <==> IsStale(s.attempts[i], s.sessions[e.session].task, e.now)
  {
    if AnyStale(s.attempts, s.sessions[e.session].task, e.now) {
      var i :| 0 <= i < |s.attempts| && IsStale(s.attempts[i], s.sessions[e.session].task, e.now);
      assert Expires(s, e, s.attempts[i]);
    }
  }

  lemma EnginePings(s: World, e: Event, i: nat)
    requires e.RunEngine? && i < |s.attempts|
    ensures i < |Step(s, e).attempts|
    ensures Step(s, e).attempts[i] == s.attempts[i].(status := StatusAfter(s, e, s.attempts[i]))
  {
    if Works(s, e) {
      StaleExpires(s, e);
    } else {
      assert !Searches(s, e.session);
    }
    hide HasStale, IsStale, Expires, AnyStale, Policy.NextRetryDelay, WonByOther;
  }

  /** In every step an open ping gets the status its response, its expiry or another's acceptance gives it, and no other row changes. */
  lemma PingTells(s: World, e: Event, i: nat)
    requires Inv(s) && i < |s.attempts|
    ensures i < |Step(s, e).attempts|
    ensures Step(s, e).attempts[i] == s.attempts[i].(status := StatusAfter(s, e, s.attempts[i]))
  {
    if e.RunEngine? {
      EnginePings(s, e, i);
    } else if !e.Responds? {
      OtherPings(s, e, i);
    } else if e.answer == Accepts {
      AcceptedPings(s, e, i);
    } else {
      RefusedPings(s, e, i);
    }
    hide Step, StatusAfter;
  }

  // ── Duty ────────────────────────────────────────────────────────────────

  predicate Allowed(s: World, e: Event) {
    && e.RedispatchBy? && e.task in s.tasks
    && if e.isAdmin then s.tasks[e.task].status != TaskStatus.Completed && s.tasks[e.task].status != TaskStatus.Cancelled
       else s.tasks[e.task].customer == Some(e.user) && s.tasks[e.task].manualCount < 3
  }

  /** The redispatch takes the task from its provider. */
  predicate TakesFrom(s: World, e: Event, p: ProviderId) {
    Allowed(s, e) && s.tasks[e.task].status == TaskStatus.Assigned && e.task in s.assignments && s.assignments[e.task].provider == p
  }

  predicate PingExpires(s: World, e: Event, p: ProviderId) {
    exists i | 0 <= i < |s.attempts| :: s.attempts[i].provider == p && Expires(s, e, s.attempts[i])
  }

  function DutyAfter(s: World, e: Event, p: ProviderId): Duty
    requires p in s.duty
  {
    if Wins(s, e) && e.provider == p then OnTask
    else if TakesFrom(s, e, p) then OnlineAvailable
    else if e.PingNext? && Enabled(s, e) && p in e.batch && s.duty[p] == OnlineAvailable then OnDispatch
    else if s.duty[p] == OnDispatch && Refuses(s, e) && e.provider == p && (EndsSearch(s, e) || e.flushed) then OnlineAvailable
    else if s.duty[p] == OnDispatch && PingExpires(s, e, p) then OnlineAvailable
    else s.duty[p]
  }

  lemma NoMatchKeepsDuty(s: World, task: TaskId, session: SessionId, now: int)
    ensures HandleNoMatch(s, task, session, now).duty == s.duty
  {
    hide Policy.NextRetryDelay;
  }

  lemma LastIsLast(s: World, e: Event, i: nat, status: AttemptStatus)
    requires PingsOk(s) && Refuses(s, e) && IsOpen(s, i, e.task, e.provider) && status != Pending
    ensures LastToClose(s, i, status) <==> EndsSearch(s, e)
  {
    var closed := WithStatus(s.attempts, i, status);
    if OthersOpen(s, e.task, e.provider) {
      var k :| 0 <= k < |s.attempts| && s.attempts[k].task == e.task && s.attempts[k].status == Pending && s.attempts[k].provider != e.provider;
      assert closed[k] == s.attempts[k];
    }
    if AnyPending(closed, e.task) {
      var k :| 0 <= k < |closed| && closed[k].task == e.task && closed[k].status == Pending;
      assert k != i && s.attempts[k] == closed[k];
      assert s.attempts[k].provider != e.provider;
    }
  }

  lemma RespondedDuty(s: World, e: Event, p: ProviderId)
    requires PingsOk(s) && e.Responds? && p in s.duty
    ensures p in Step(s, e).duty && Step(s, e).duty[p] == DutyAfter(s, e, p)
  {
    FindsOpen(s, e.task, e.provider);
    assert AcceptedByAnother(s.attempts, e.task, e.provider) <==> WonByOther(s, e.task, e.provider);
    hide Pings, AcceptedByAnother, WonByOther, HasOpen, PingsOk, LastToClose, CancelOthers, CloseSessions;
    if Refuses(s, e) {
      var i := LastPing(s.attempts, e.task, e.provider);
      var status := if e.answer.Declines? then Declined else Timeout;
      LastIsLast(s, e, i, status);
      var freed := s.(attempts := WithStatus(s.attempts, i, status), duty := Free(s.duty, s.attempts[i].provider));
      NoMatchKeepsDuty(freed, s.attempts[i].task, s.attempts[i].session, e.now);
    }
    hide HandleNoMatch, EndsSearch;
  }

  /** Whatever the tables hold, a refusal frees nobody but its own provider, and him from ON_DISPATCH only. */
  lemma RefusalFreesOnly(s: World, e: Event, p: ProviderId)
    requires e.Responds? && e.answer != Accepts && p in s.duty
    ensures p in Step(s, e).duty
    ensures Step(s, e).duty[p] == s.duty[p] || (p == e.provider && s.duty[p] == OnDispatch && Step(s, e).duty[p] == OnlineAvailable)
  {
    if Pings(s.attempts, e.task, e.provider) == 1 {
      var i := LastPing(s.attempts, e.task, e.provider);
      var status := if e.answer.Declines? then Declined else Timeout;
      var freed := s.(attempts := WithStatus(s.attempts, i, status), duty := Free(s.duty, s.attempts[i].provider));
      NoMatchKeepsDuty(freed, s.attempts[i].task, s.attempts[i].session, e.now);
    }
    hide HandleNoMatch, LastToClose, Pings;
  }

  predicate IsOverdue(a: Attempt, task: TaskId, p: ProviderId, now: int) {
    a.provider == p && a.task == task && a.status == Pending && a.expiresAt <= now
  }

  /** The scan for overdue pings of a task frees exactly the providers on dispatch who have one. */
  lemma RecoveredAreFreed(s: World, task: TaskId, now: int, p: ProviderId)
    requires p in s.duty
    ensures p in RecoverStale(s, task, now).duty
    ensures RecoverStale(s, task, now).duty[p] ==
      if s.duty[p] == OnDispatch && (exists i | 0 <= i < |s.attempts| :: IsOverdue(s.attempts[i], task, p, now))
      then OnlineAvailable else s.duty[p]
  {
  }

  lemma EngineDuty(s: World, e: Event, p: ProviderId)
    requires e.RunEngine? && p in s.duty
    ensures p in Step(s, e).duty && Step(s, e).duty[p] == DutyAfter(s, e, p)
  {
    assert Searches(s, e.session) <==> Works(s, e);
    if e.session < |s.sessions| {
      RunDuty(s, e, p);
      hide RunCommits, HandleNoMatch, PingExpires, HasOpen, OthersOpen, WonByOther, Searches, Works, BumpStaysOpen;
      var task, run := s.sessions[e.session].task, RunCommits(s, e.session, e.now);
      RunKeepsSessions(s, e.session, e.now);
      NoMatchKeepsDuty(run, task, e.session, e.now);
      NoMatchKeepsDuty(Bump(run, e.session), task, e.session, e.now);
    }
  }

  lemma RunDuty(s: World, e: Event, p: ProviderId)
    requires e.RunEngine? && p in s.duty && e.session < |s.sessions|
    ensures var duty := RunCommits(s, e.session, e.now).duty;
      p in duty && duty[p] == if s.duty[p] == OnDispatch && PingExpires(s, e, p) then OnlineAvailable else s.duty[p]
  {
    assert Searches(s, e.session) <==> Works(s, e);
    if Works(s, e) {
      RecoveredAreFreed(Bump(s, e.session), s.sessions[e.session].task, e.now, p);
      StaleExpires(s, e);
    }
    hide RecoverStale, AnyStale, IsStale;
  }

  lemma OpenedDuty(s: World, e: Event, p: ProviderId)
    requires (e.Start? || e.Retry? || e.RedispatchBy?) && p in s.duty
    ensures p in Step(s, e).duty && Step(s, e).duty[p] == DutyAfter(s, e, p)
  {
    hide MaxSequence, HasOpen, OthersOpen, WonByOther;
  }

  lemma OtherDuty(s: World, e: Event, p: ProviderId)
    requires !e.Responds? && !e.RunEngine? && !e.Start? && !e.Retry? && !e.RedispatchBy? && p in s.duty
    ensures p in Step(s, e).duty && Step(s, e).duty[p] == DutyAfter(s, e, p)
  {
    hide HandleNoMatch, RecoverStale, Winners, HasOpen, OthersOpen, WonByOther;
    if e.Recover? {
      RecoveredAreFreed(s, e.task, e.now, p);
    }
    if e.NoMatchFor? {
      NoMatchKeepsDuty(s, e.task, e.session, e.now);
    }
  }

  /** In every step a provider's duty changes by his own response, the expiry of his ping, a new one or a redispatch, and by nothing else. */
  lemma DutyTells(s: World, e: Event, p: ProviderId)
    requires Inv(s) && p in s.duty
    ensures p in Step(s, e).duty && Step(s, e).duty[p] == DutyAfter(s, e, p)
  {
    if e.Responds? {
      RespondedDuty(s, e, p);
    } else if e.RunEngine? {
      EngineDuty(s, e, p);
    } else if e.Start? || e.Retry? || e.RedispatchBy? {
      OpenedDuty(s, e, p);
    } else {
      OtherDuty(s, e, p);
    }
    hide Step, DutyAfter;
  }

  // ── Sessions ────────────────────────────────────────────────────────────

  /** The step reports the session without a match. */
  predicate ReportsSession(s: World, e: Event, k: SessionId) {
    || (e.NoMatchFor? && e.session == k)
    || (e.RunEngine? && e.session == k && !(Works(s, e) && e.found))
    || (EndsSearch(s, e) && exists i | 0 <= i < |s.attempts| :: IsOpen(s, i, e.task, e.provider) && s.attempts[i].session == k)
  }

  function StatusOfSession(s: World, e: Event, k: SessionId): SessionStatus
    requires k < |s.sessions|
  {
    if ReportsSession(s, e, k) then
      var task := if e.RunEngine? then s.sessions[k].task else e.task;
      if task in s.tasks && s.tasks[task].autoCount >= 5 then SessionStatus.Exhausted else SessionStatus.Failed
    else if ClosesRest(s, e) && s.sessions[k].task == e.task && s.sessions[k].status == Running then SessionStatus.Assigned
    else s.sessions[k].status
  }

  /** A version is taken by the engine for a running session, and kept by a report or by the recovery of overdue pings. */
  predicate TakesVersion(s: World, e: Event, k: SessionId)
    requires k < |s.sessions|
  {
    && e.RunEngine? && e.session == k && s.sessions[k].status == Running
    && (!(Works(s, e) && e.found) || exists i | 0 <= i < |s.attempts| :: Expires(s, e, s.attempts[i]))
  }

  predicate SessionIs(s: World, e: Event, k: SessionId, after: World)
    requires k < |s.sessions|
  {
    && k < |after.sessions|
    && after.sessions[k] == s.sessions[k].(
         status := StatusOfSession(s, e, k), lockVersion := s.sessions[k].lockVersion + if TakesVersion(s, e, k) then 1 else 0)
  }

  lemma NoMatchSession(s: World, task: TaskId, session: SessionId, now: int, k: SessionId)
    requires k < |s.sessions|
    ensures var s' := HandleNoMatch(s, task, session, now);
      && |s'.sessions| == |s.sessions|
      && s'.sessions[k] == if k != session then s.sessions[k] else s.sessions[k].(status :=
           if task in s.tasks && s.tasks[task].autoCount >= 5 then SessionStatus.Exhausted else SessionStatus.Failed)
  {
    hide Policy.NextRetryDelay;
  }

  lemma RespondedSession(s: World, e: Event, k: SessionId)
    requires PingsOk(s) && e.Responds? && k < |s.sessions|
    ensures SessionIs(s, e, k, Step(s, e)) && |Step(s, e).sessions| == |s.sessions|
  {
    FindsOpen(s, e.task, e.provider);
    assert AcceptedByAnother(s.attempts, e.task, e.provider) <==> WonByOther(s, e.task, e.provider);
    hide Pings, AcceptedByAnother, WonByOther, HasOpen, PingsOk, LastToClose, CancelOthers;
    if Refuses(s, e) {
      var i := LastPing(s.attempts, e.task, e.provider);
      var status := if e.answer.Declines? then Declined else Timeout;
      LastIsLast(s, e, i, status);
      var freed := s.(attempts := WithStatus(s.attempts, i, status), duty := Free(s.duty, s.attempts[i].provider));
      NoMatchSession(freed, s.attempts[i].task, s.attempts[i].session, e.now, k);
      assert ReportsSession(s, e, k) <==> EndsSearch(s, e) && s.attempts[i].session == k;
    }
    hide HandleNoMatch, EndsSearch;
  }

  /** The engine has kept its version, or holds it open. */
  lemma RunSessions(s: World, e: Event, k: SessionId)
    requires e.RunEngine? && k < |s.sessions| && e.session < |s.sessions|
    ensures var run := RunCommits(s, e.session, e.now);
      var kept := Works(s, e) && exists i | 0 <= i < |s.attempts| :: Expires(s, e, s.attempts[i]);
      && run.tasks == s.tasks && |run.sessions| == |s.sessions|
      && run.sessions[k] == (if kept && k == e.session then s.sessions[k].(lockVersion := s.sessions[k].lockVersion + 1) else s.sessions[k])
      && (BumpStaysOpen(s, e.session, e.now) <==> s.sessions[e.session].status == Running && !kept)
  {
    assert Searches(s, e.session) <==> Works(s, e);
    hide AnyStale, RecoverStale, Expires, IsStale;
    if Works(s, e) {
      StaleExpires(s, e);
    }
    RecoveryKeeps(Bump(s, e.session), s.sessions[e.session].task, e.now);
  }

  lemma EngineSession(s: World, e: Event, k: SessionId)
    requires e.RunEngine? && k < |s.sessions|
    ensures SessionIs(s, e, k, Step(s, e)) && |Step(s, e).sessions| == |s.sessions|
  {
    assert Searches(s, e.session) <==> Works(s, e);
    if e.session < |s.sessions| {
      hide RunCommits, HandleNoMatch, Expires, HasOpen, OthersOpen, WonByOther, Searches, BumpStaysOpen;
      RunSessions(s, e, k);
      var task, run := s.sessions[e.session].task, RunCommits(s, e.session, e.now);
      NoMatchSession(run, task, e.session, e.now, k);
      NoMatchSession(Bump(run, e.session), task, e.session, e.now, k);
    }
  }

  lemma RecoveryKeeps(s: World, task: TaskId, now: int)
    ensures RecoverStale(s, task, now).sessions == s.sessions && RecoverStale(s, task, now).tasks == s.tasks
  {
  }

  predicate Opens(s: World, e: Event) {
    || ((e.Start? || e.Retry?) && e.task in s.tasks
        && s.tasks[e.task].status !in {TaskStatus.Assigned, TaskStatus.Completed, TaskStatus.Cancelled}
        && (e.Retry? ==> s.tasks[e.task].autoCount < 5))
    || Allowed(s, e)
  }

  lemma OpenedSession(s: World, e: Event, k: SessionId)
    requires (e.Start? || e.Retry? || e.RedispatchBy?) && k < |s.sessions|
    ensures SessionIs(s, e, k, Step(s, e))
    ensures |Step(s, e).sessions| == |s.sessions| + if Opens(s, e) then 1 else 0
  {
    hide HandleNoMatch, MaxSequence, HasOpen, OthersOpen, WonByOther;
  }

  lemma OtherSession(s: World, e: Event, k: SessionId)
    requires !e.Responds? && !e.RunEngine? && !e.Start? && !e.Retry? && !e.RedispatchBy? && k < |s.sessions|
    ensures SessionIs(s, e, k, Step(s, e))
    ensures |Step(s, e).sessions| == |s.sessions|
  {
    hide HandleNoMatch, Winners, ExpireStale, HasStale, HasOpen, OthersOpen, WonByOther;
    if e.NoMatchFor? {
      NoMatchSession(s, e.task, e.session, e.now, k);
    }
  }

  /**
   In every step a session is failed or exhausted by the report it gets, assigned with its task, and bumped by
   the engine; no other session changes.
   */
  lemma SessionTells(s: World, e: Event, k: SessionId)
    requires Inv(s) && k < |s.sessions|
    ensures SessionIs(s, e, k, Step(s, e))
  {
    if e.Responds? {
      RespondedSession(s, e, k);
    } else if e.RunEngine? {
      EngineSession(s, e, k);
    } else if e.Start? || e.Retry? || e.RedispatchBy? {
      OpenedSession(s, e, k);
    } else {
      OtherSession(s, e, k);
    }
    hide Step, SessionIs;
  }

  /** A start, a retry that is left or a redispatch that is allowed opens one running session for its task. */
  lemma OpeningTells(s: World, e: Event)
    requires Opens(s, e)
    ensures var s' := Step(s, e); var k := |s.sessions|;
      && |s'.sessions| == k + 1 && s'.sessions[k].task == e.task && s'.sessions[k].status == Running
      && s'.sessions[k].trigger == (if e.Start? then Initial else if e.Retry? then AutoRetry else Manual)
      && s'.sessions[k].lockVersion == 1
  {
    hide MaxSequence;
  }

  // ── Tasks and assignments ───────────────────────────────────────────────

  /** Seconds until the next automatic retry, by the number of those made. */
  const DELAYS: seq<int> := [120, 300, 600, 1200, 1800]

  predicate ReportsTask(s: World, e: Event, t: TaskId) {
    || (e.NoMatchFor? && e.task == t)
    || (e.RunEngine? && e.session < |s.sessions| && s.sessions[e.session].task == t && !(Works(s, e) && e.found))
    || (EndsSearch(s, e) && e.task == t)
  }

  /** A searching task is dispatched; what was counted is left to the caller. */
  function Dispatched(row: Task): Task {
    row.(dispatch := Dispatching, status := TaskStatus.Searching)
  }

  function TaskAfter(s: World, e: Event, t: TaskId): Task
    requires t in s.tasks
  {
    var row := s.tasks[t];
    if ReportsTask(s, e, t) then
      if row.autoCount < 5 then row.(dispatch := RetryScheduled, nextDispatchAt := Some(TimeOf(e) + DELAYS[row.autoCount]))
      else row.(dispatch := AutoExhausted, status := NoMatch)
    else match e
      case Start(task) => if t == task && Opens(s, e) then Dispatched(row) else row
      case Retry(task) =>
        if t != task || row.status in {TaskStatus.Assigned, TaskStatus.Completed, TaskStatus.Cancelled} then row
        else if row.autoCount < 5 then Dispatched(row).(autoCount := row.autoCount + 1)
        else row.(dispatch := AutoExhausted, status := NoMatch)
      case RedispatchBy(task, _, _) =>
        if t == task && Allowed(s, e) then Dispatched(row).(assignedTo := None, manualCount := row.manualCount + 1) else row
      case Claims(task, now) =>
        if t == task && row.dispatch == RetryScheduled && row.nextDispatchAt.Some? && row.nextDispatchAt.value <= now
        then row.(dispatch := Dispatching) else row
      case Reclaims(task, now) =>
        if t == task && row.dispatch == Dispatching then row.(dispatch := RetryScheduled, nextDispatchAt := Some(now)) else row
      case Responds(task, provider, _, _, _) =>
        if t == task && Wins(s, e) then row.(status := TaskStatus.Assigned, dispatch := Matched, assignedTo := Some(provider)) else row
      case _ => row
  }

  function TimeOf(e: Event): int {
    match e
    case NoMatchFor(_, _, now) => now
    case RunEngine(_, _, now) => now
    case Responds(_, _, _, now, _) => now
    case _ => 0
  }

  predicate TaskIs(s: World, e: Event, t: TaskId, after: World)
    requires t in s.tasks
  {
    t in after.tasks && after.tasks[t] == TaskAfter(s, e, t)
  }

  lemma NoMatchTask(s: World, task: TaskId, session: SessionId, now: int, t: TaskId)
    requires t in s.tasks
    ensures var s' := HandleNoMatch(s, task, session, now);
      t in s'.tasks && s'.tasks[t] ==
        if t != task then s.tasks[t]
        else if s.tasks[t].autoCount < 5
        then s.tasks[t].(dispatch := RetryScheduled, nextDispatchAt := Some(now + DELAYS[s.tasks[t].autoCount]))
        else s.tasks[t].(dispatch := AutoExhausted, status := NoMatch)
    ensures HandleNoMatch(s, task, session, now).assignments == s.assignments
  {
  }

  lemma RespondedTask(s: World, e: Event, t: TaskId)
    requires PingsOk(s) && e.Responds? && t in s.tasks
    ensures TaskIs(s, e, t, Step(s, e))
  {
    FindsOpen(s, e.task, e.provider);
    assert AcceptedByAnother(s.attempts, e.task, e.provider) <==> WonByOther(s, e.task, e.provider);
    hide Pings, AcceptedByAnother, WonByOther, HasOpen, PingsOk, LastToClose, CancelOthers, CloseSessions;
    if Refuses(s, e) {
      var i := LastPing(s.attempts, e.task, e.provider);
      var status := if e.answer.Declines? then Declined else Timeout;
      LastIsLast(s, e, i, status);
      var freed := s.(attempts := WithStatus(s.attempts, i, status), duty := Free(s.duty, s.attempts[i].provider));
      NoMatchTask(freed, s.attempts[i].task, s.attempts[i].session, e.now, t);
    }
    hide HandleNoMatch, EndsSearch;
  }

  lemma EngineTask(s: World, e: Event, t: TaskId)
    requires e.RunEngine? && t in s.tasks
    ensures TaskIs(s, e, t, Step(s, e)) && Step(s, e).assignments == s.assignments
  {
    assert Searches(s, e.session) <==> Works(s, e);
    EngineAssignments(s, e);
    if e.session < |s.sessions| {
      hide RunCommits, HandleNoMatch, HasOpen, OthersOpen, WonByOther, Searches, Works, BumpStaysOpen;
      var task, run := s.sessions[e.session].task, RunCommits(s, e.session, e.now);
      RunKeepsTasks(s, e.session, e.now);
      RunKeepsSessions(s, e.session, e.now);
      NoMatchTask(run, task, e.session, e.now, t);
      NoMatchTask(Bump(run, e.session), task, e.session, e.now, t);
    }
  }

  lemma OpenedTask(s: World, e: Event, t: TaskId)
    requires (e.Start? || e.Retry? || e.RedispatchBy?) && t in s.tasks
    ensures TaskIs(s, e, t, Step(s, e))
  {
    hide HandleNoMatch, MaxSequence, HasOpen, OthersOpen, WonByOther;
  }

  lemma OtherTask(s: World, e: Event, t: TaskId)
    requires !e.Responds? && !e.RunEngine? && !e.Start? && !e.Retry? && !e.RedispatchBy? && t in s.tasks
    ensures TaskIs(s, e, t, Step(s, e))
  {
    hide HandleNoMatch, Winners, ExpireStale, HasStale, HasOpen, OthersOpen, WonByOther;
    if e.NoMatchFor? {
      NoMatchTask(s, e.task, e.session, e.now, t);
    }
  }

  /** In every step a task's row changes as its own start, retry, redispatch, claim, acceptance or report says, and by nothing else. */
  lemma TaskTells(s: World, e: Event, t: TaskId)
    requires Inv(s) && t in s.tasks
    ensures TaskIs(s, e, t, Step(s, e))
  {
    if e.Responds? {
      RespondedTask(s, e, t);
    } else if e.RunEngine? {
      EngineTask(s, e, t);
    } else if e.Start? || e.Retry? || e.RedispatchBy? {
      OpenedTask(s, e, t);
    } else {
      OtherTask(s, e, t);
    }
    hide Step, TaskIs;
  }

  lemma RespondedAssignments(s: World, e: Event)
    requires PingsOk(s) && e.Responds?
    ensures Step(s, e).assignments ==
      if Wins(s, e) then s.assignments[e.task := Assignment(e.provider, AssignmentStatus.Assigned)] else s.assignments
  {
    FindsOpen(s, e.task, e.provider);
    assert AcceptedByAnother(s.attempts, e.task, e.provider) <==> WonByOther(s, e.task, e.provider);
    hide Pings, AcceptedByAnother, WonByOther, HasOpen, PingsOk, LastToClose, CancelOthers, CloseSessions, HandleNoMatch;
    if Refuses(s, e) {
      var i := LastPing(s.attempts, e.task, e.provider);
      var status := if e.answer.Declines? then Declined else Timeout;
      var freed := s.(attempts := WithStatus(s.attempts, i, status), duty := Free(s.duty, s.attempts[i].provider));
      NoMatchAssignments(freed, s.attempts[i].task, s.attempts[i].session, e.now);
    }
  }

  lemma OtherAssignments(s: World, e: Event)
    requires !e.Responds? && !e.RunEngine?
    ensures Step(s, e).assignments ==
      if Allowed(s, e) && s.tasks[e.task].status == TaskStatus.Assigned && e.task in s.assignments
      then s.assignments[e.task := s.assignments[e.task].(status := AssignmentStatus.Cancelled)]
      else s.assignments
  {
    hide HandleNoMatch, MaxSequence, Winners, ExpireStale, HasStale;
    if e.NoMatchFor? {
      NoMatchAssignments(s, e.task, e.session, e.now);
    }
  }

  /** A task is given to who wins it, and its assignment is cancelled by the redispatch that takes it away. */
  lemma AssignmentTells(s: World, e: Event)
    requires Inv(s)
    ensures Step(s, e).assignments ==
      if Wins(s, e) then s.assignments[e.task := Assignment(e.provider, AssignmentStatus.Assigned)]
      else if Allowed(s, e) && s.tasks[e.task].status == TaskStatus.Assigned && e.task in s.assignments
      then s.assignments[e.task := s.assignments[e.task].(status := AssignmentStatus.Cancelled)]
      else s.assignments
  {
    if e.Responds? {
      RespondedAssignments(s, e);
    } else if e.RunEngine? {
      EngineAssignments(s, e);
    } else {
      OtherAssignments(s, e);
    }
    hide Step;
  }

  lemma NoMatchAssignments(s: World, task: TaskId, session: SessionId, now: int)
    ensures HandleNoMatch(s, task, session, now).assignments == s.assignments
  {
    hide Policy.NextRetryDelay;
  }

  lemma EngineAssignments(s: World, e: Event)
    requires e.RunEngine?
    ensures Step(s, e).assignments == s.assignments
  {
    if e.session < |s.sessions| {
      var task, run := s.sessions[e.session].task, RunCommits(s, e.session, e.now);
      RunKeepsSessions(s, e.session, e.now);
      assert run.assignments == s.assignments;
      hide RunCommits, HandleNoMatch;
      NoMatchAssignments(run, task, e.session, e.now);
      NoMatchAssignments(Bump(run, e.session), task, e.session, e.now);
    }
  }

  // ── New pings ───────────────────────────────────────────────────────────

  lemma {:induction false} WinnersAre(batch: seq<ProviderId>, duty: map<ProviderId, Duty>, p: ProviderId)
    ensures p in Winners(batch, duty) <==> p in batch && p in duty && duty[p] == OnlineAvailable
    ensures |Winners(batch, duty)| <= |batch|
  {
    if |batch| > 0 {
      var front, last := batch[..|batch| - 1], batch[|batch| - 1];
      WinnersAre(front, duty, p);
      assert batch == front + [last];
    }
  }

  /**
   A batch pings exactly the available providers it names: each new row is an open ping of one of them, numbered
   from the start of the batch and good for its duration.
   */
  lemma NewPingsTell(s: World, e: Event)
    requires e.PingNext? && Enabled(s, e)
    ensures var s' := Step(s, e); var n := |s.attempts|;
      && n <= |s'.attempts|
      && (forall i | n <= i < |s'.attempts| ::
            && s'.attempts[i] == Attempt(e.session, s.sessions[e.session].task, s'.attempts[i].provider, e.start + (i - n), e.now + e.duration, Pending)
            && s'.attempts[i].provider in e.batch && s'.attempts[i].provider in s.duty
            && s.duty[s'.attempts[i].provider] == OnlineAvailable)
      && (forall p | p in e.batch && p in s.duty && s.duty[p] == OnlineAvailable ::
            exists i | n <= i < |s'.attempts| :: s'.attempts[i].provider == p)
  {
    var s', n, winners := Step(s, e), |s.attempts|, Winners(e.batch, s.duty);
    forall i | n <= i < |s'.attempts|
      ensures s'.attempts[i] == Attempt(e.session, s.sessions[e.session].task, winners[i - n], e.start + (i - n), e.now + e.duration, Pending)
      ensures winners[i - n] in e.batch && winners[i - n] in s.duty && s.duty[winners[i - n]] == OnlineAvailable
    {
      WinnersAre(e.batch, s.duty, winners[i - n]);
    }
    forall p | p in e.batch && p in s.duty && s.duty[p] == OnlineAvailable
      ensures exists i | n <= i < |s'.attempts| :: s'.attempts[i].provider == p
    {
      WinnersAre(e.batch, s.duty, p);
      var k :| 0 <= k < |winners| && winners[k] == p;
      assert s'.attempts[n + k].provider == p;
    }
    hide Winners, TakeDuty;
  }
}
