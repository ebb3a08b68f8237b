/** The dispatch service and the pinger as the code runs them, over shared tables. */
module DispatchServices {
  import opened Common
  import opened DispatchStore
  import Policy = DispatchPolicy

  /** The tables, as committed. */
  class Database {
    var tasks: map<TaskId, Task>
    var sessions: seq<Session>
    var attempts: seq<Attempt>
    var assignments: map<TaskId, Assignment>
    var duty: map<ProviderId, Duty>

    function Snapshot(): World
      reads this
    {
      World(tasks, sessions, attempts, assignments, duty)
    }
  }

  lemma AnotherOfOneMore(attempts: seq<Attempt>, a: Attempt, task: TaskId, provider: ProviderId)
    ensures AcceptedByAnother(attempts + [a], task, provider) <==>
      AcceptedByAnother(attempts, task, provider) || (a.task == task && a.status == Accepted && a.provider != provider)
    ensures AcceptedByOthers(attempts + [a], task, provider) == AcceptedByOthers(attempts, task, provider) +
      (if a.task == task && a.status == Accepted && a.provider != provider then 1 else 0)
  {
    assert (attempts + [a])[..|attempts|] == attempts && (attempts + [a])[|attempts|] == a;
    if AcceptedByAnother(attempts, task, provider) {
      var i :| 0 <= i < |attempts| && attempts[i].task == task && attempts[i].status == Accepted && attempts[i].provider != provider;
      assert (attempts + [a])[i] == attempts[i];
    }
  }

  class DispatchService {
    const db: Database

    constructor (db: Database)
      ensures this.db == db
    {
      this.db := db;
    }

    method NextSequence(task: TaskId) returns (next: nat)
      ensures next == MaxSequence(db.sessions, task) + 1
    {
      var max := 0;
      var i := 0;
      while i < |db.sessions|
        invariant 0 <= i <= |db.sessions|
        invariant max == MaxSequence(db.sessions[..i], task)
      {
        assert db.sessions[..i + 1][..i] == db.sessions[..i];
        if db.sessions[i].task == task && db.sessions[i].sequence > max {
          max := db.sessions[i].sequence;
        }
        i := i + 1;
      }
      assert db.sessions[..i] == db.sessions;
      next := max + 1;
    }

    method CreateSession(task: TaskId, trigger: Trigger) returns (session: SessionId)
      modifies db`sessions
      ensures session == |old(db.sessions)|
      ensures db.Snapshot() == OpenSession(old(db.Snapshot()), task, trigger)
    {
      var sequence := NextSequence(task);
      session := |db.sessions|;
      db.sessions := db.sessions + [Session(task, trigger, Running, sequence, 1)];
    }

    method StartInitialDispatch(task: TaskId) returns (session: Option<SessionId>)
      modifies db
      ensures db.Snapshot() == StartInitial(old(db.Snapshot()), task)
      ensures session == if |db.sessions| > |old(db.sessions)| then Some(|old(db.sessions)|) else None
    {
      if task !in db.tasks || !Dispatchable(db.tasks[task].status) {
        return None;
      }
      var row := db.tasks[task];
      row := row.(dispatch := Dispatching);
      row := row.(status := Searching);
      db.tasks := db.tasks[task := row];
      var id := CreateSession(task, Initial);
      return Some(id);
    }

    method AutoRetry(task: TaskId) returns (session: Option<SessionId>)
      modifies db
      ensures db.Snapshot() == AutoRetryTask(old(db.Snapshot()), task)
      ensures session == if |db.sessions| > |old(db.sessions)| then Some(|old(db.sessions)|) else None
    {
      if task !in db.tasks || !Dispatchable(db.tasks[task].status) {
        return None;
      }
      var row := db.tasks[task];
      if !Policy.CanAutoRetry(row.autoCount) {
        HandleAutoExhaustion(task, None);
        return None;
      }
      row := row.(autoCount := row.autoCount + 1);
      row := row.(dispatch := Dispatching);
      row := row.(status := Searching);
      db.tasks := db.tasks[task := row];
      var id := CreateSession(task, Trigger.AutoRetry);
      return Some(id);
    }

    method ManualRedispatch(task: TaskId, user: string, isAdmin: bool) returns (result: Outcome<RedispatchError>)
      modifies db
      ensures result == RedispatchCheck(old(db.Snapshot()), task, user, isAdmin)
      ensures db.Snapshot() == Redispatch(old(db.Snapshot()), task, user, isAdmin)
    {
      if task !in db.tasks {
        return Raised(TaskNotFound);
      }
      var row := db.tasks[task];
      if !isAdmin {
        if row.customer != Some(user) {
          return Raised(NotAuthorized);
        }
        if !Policy.CanManualRedispatch(row.manualCount) {
          return Raised(LimitReached);
        }
      } else if row.status == TaskStatus.Completed || row.status == TaskStatus.Cancelled {
        return Raised(Closed);
      }
      if row.status == TaskStatus.Assigned && task in db.assignments {
        ReleaseProvider(task);
      }
      row := row.(assignedTo := None);
      row := row.(manualCount := row.manualCount + 1);
      row := row.(dispatch := Dispatching);
      row := row.(status := Searching);
      db.tasks := db.tasks[task := row];
      var id := CreateSession(task, Manual);
      return Done;
    }

    /** Cancels the assignment; the provider becomes available whatever it was doing. */
    method ReleaseProvider(task: TaskId)
      requires task in db.tasks && db.tasks[task].status == TaskStatus.Assigned && task in db.assignments
      modifies db`assignments, db`duty
      ensures db.Snapshot() == Unassign(old(db.Snapshot()), task)
    {
      var assignment := db.assignments[task];
      db.assignments := db.assignments[task := assignment.(status := AssignmentStatus.Cancelled)];
      if assignment.provider in db.duty {
        db.duty := db.duty[assignment.provider := OnlineAvailable];
      }
    }

    method HandleNoMatch(task: TaskId, session: SessionId, now: int)
      modifies db`sessions, db`tasks
      ensures db.Snapshot() == DispatchStore.HandleNoMatch(old(db.Snapshot()), task, session, now)
    {
      if session < |db.sessions| {
        db.sessions := db.sessions[session := db.sessions[session].(status := SessionStatus.Failed)];
      }
      if task !in db.tasks {
        return;
      }
      var row := db.tasks[task];
      if Policy.CanAutoRetry(row.autoCount) {
        var delay := Policy.NextRetryDelay(row.autoCount);
        row := row.(dispatch := RetryScheduled);
        row := row.(nextDispatchAt := Some(now + delay));
        db.tasks := db.tasks[task := row];
      } else {
        HandleAutoExhaustion(task, if session < |db.sessions| then Some(session) else None);
      }
    }

    method HandleAutoExhaustion(task: TaskId, session: Option<SessionId>)
      requires task in db.tasks && (session.Some? ==> session.value < |db.sessions|)
      modifies db`sessions, db`tasks
      ensures db.Snapshot() ==
        var w := GiveUp(old(db.Snapshot()), task);
        if session.Some? then SetSessionStatus(w, session.value, SessionStatus.Exhausted) else w
    {
      var row := db.tasks[task];
      row := row.(dispatch := AutoExhausted);
      row := row.(status := NoMatch);
      db.tasks := db.tasks[task := row];
      if session.Some? {
        var closed := db.sessions[session.value].(status := SessionStatus.Exhausted);
        db.sessions := db.sessions[session.value := closed];
      }
    }

    /** The query for the provider's open pings of the task: how many, and the last of them. */
    method FindPings(task: TaskId, provider: ProviderId) returns (count: nat, found: nat)
      ensures count == Pings(db.attempts, task, provider)
      ensures count > 0 ==> found == LastPing(db.attempts, task, provider)
    {
      count, found := 0, 0;
      var i := 0;
      while i < |db.attempts|
        invariant 0 <= i <= |db.attempts|
        invariant count == Pings(db.attempts[..i], task, provider)
        invariant count > 0 ==> found == LastPing(db.attempts[..i], task, provider)
      {
        assert db.attempts[..i + 1][..i] == db.attempts[..i];
        if IsPing(db.attempts[i], task, provider) {
          count := count + 1;
          found := i;
        }
        i := i + 1;
      }
      assert db.attempts[..i] == db.attempts;
    }

    /** The query for acceptances of the task by somebody else. */
    method CountAcceptedByOthers(task: TaskId, provider: ProviderId) returns (count: nat)
      ensures count == AcceptedByOthers(db.attempts, task, provider)
      ensures count == 0 <==> !AcceptedByAnother(db.attempts, task, provider)
    {
      count := 0;
      for i := 0 to |db.attempts|
        invariant count == AcceptedByOthers(db.attempts[..i], task, provider)
        invariant count == 0 <==> !AcceptedByAnother(db.attempts[..i], task, provider)
      {
        var last := db.attempts[i];
        assert db.attempts[..i + 1] == db.attempts[..i] + [last];
        AnotherOfOneMore(db.attempts[..i], last, task, provider);
        if last.task == task && last.status == Accepted && last.provider != provider {
          count := count + 1;
        }
      }
      assert db.attempts[..|db.attempts|] == db.attempts;
    }

    /**
     ok is false when a query finds more rows than the code allows for, which it raises. flushed
     tells whether log entries are committed through the same session when the request ends.
     */
    method HandlePingResponse(task: TaskId, provider: ProviderId, answer: Answer, now: int, flushed: bool) returns (ok: bool)
      modifies db
      ensures ok == !RespondRaises(old(db.Snapshot()), task, provider, answer)
      ensures db.Snapshot() == Respond(old(db.Snapshot()), task, provider, answer, now, flushed)
    {
      var count, i := FindPings(task, provider);
      if count != 1 {
        return count == 0;
      }
      if answer.Accepts? {
        if task in db.tasks && db.tasks[task].status == TaskStatus.Assigned {
          return true;
        }
        var others := CountAcceptedByOthers(task, provider);
        if others > 0 {
          return others == 1;
        }
        ProcessAcceptance(i, flushed);
      } else {
        ProcessDeclineOrTimeout(i, if answer.Declines? then Declined else Timeout, now, flushed);
      }
      return true;
    }

    method ProcessAcceptance(i: nat, flushed: bool)
      requires i < |db.attempts|
      modifies db
      ensures db.Snapshot() == Accept(old(db.Snapshot()), i, flushed)
    {
      var task, provider := db.attempts[i].task, db.attempts[i].provider;
      db.attempts := db.attempts[i := db.attempts[i].(status := Accepted)];
      if task in db.tasks {
        var row := db.tasks[task];
        row := row.(status := TaskStatus.Assigned);
        row := row.(dispatch := Matched);
        row := row.(assignedTo := Some(provider));
        db.tasks := db.tasks[task := row];
      }
      if task in db.assignments {
        var assignment := db.assignments[task];
        assignment := assignment.(provider := provider);
        assignment := assignment.(status := AssignmentStatus.Assigned);
        db.assignments := db.assignments[task := assignment];
      } else {
        db.assignments := db.assignments[task := Assignment(provider, AssignmentStatus.Assigned)];
      }
      if provider in db.duty {
        db.duty := db.duty[provider := OnTask];
      }
      // The last two statements stay uncommitted until the customer is notified or the log is flushed.
      var sessions := CloseSessions(db.sessions, task);
      var attempts := CancelOthers(db.attempts, task, i);
      if (task in db.tasks && db.tasks[task].customer.Some?) || flushed {
        db.sessions, db.attempts := sessions, attempts;
      }
    }

    method ProcessDeclineOrTimeout(i: nat, status: AttemptStatus, now: int, flushed: bool)
      requires i < |db.attempts|
      modifies db
      ensures db.Snapshot() == Decline(old(db.Snapshot()), i, status, now, flushed)
    {
      var task, provider := db.attempts[i].task, db.attempts[i].provider;
      db.attempts := db.attempts[i := db.attempts[i].(status := status)];
      var duty := db.duty;
      if provider in duty && duty[provider] == OnDispatch {
        duty := duty[provider := OnlineAvailable];
      }
      if !AnyPending(db.attempts, task) {
        if task in db.tasks && db.tasks[task].status == Searching {
          db.duty := duty;
          HandleNoMatch(task, db.attempts[i].session, now);
          return;
        }
      }
      if flushed {
        db.duty := duty;
      }
    }
  }

  class CandidatePinger {
    const db: Database

    constructor (db: Database)
      ensures this.db == db
    {
      this.db := db;
    }

    method RecoverStaleAttempts(task: TaskId, now: int)
      modifies db`attempts, db`duty
      ensures db.Snapshot() == RecoverStale(old(db.Snapshot()), task, now)
      ensures forall i | 0 <= i < |db.attempts| && old(db.attempts)[i].task == task && old(db.attempts)[i].status == Pending
                         && old(db.attempts)[i].expiresAt <= now ::
        var p := db.attempts[i].provider;
        db.attempts[i].status == Timeout && (p in db.duty && old(db.duty)[p] == OnDispatch ==> db.duty[p] == OnlineAvailable)
    {
      ghost var before := db.attempts;
      var stale := set i | 0 <= i < |db.attempts| && IsStale(db.attempts[i], task, now) :: db.attempts[i].provider;
      db.attempts := ExpireStale(db.attempts, task, now);
      db.duty := map p | p in db.duty :: if p in stale && db.duty[p] == OnDispatch then OnlineAvailable else db.duty[p];
      assert forall p :: p in stale <==> HasStale(before, task, p, now);
    }

    /** One conditional UPDATE wins providers; each winner gets the next sequence number. */
    method PingCandidates(session: SessionId, task: TaskId, batch: seq<ProviderId>, start: nat, now: int, duration: int)
      returns (created: nat)
      modifies db`attempts, db`duty
      ensures db.Snapshot() == PingBatch(old(db.Snapshot()), session, task, batch, start, now, duration)
      ensures created == |db.attempts| - |old(db.attempts)|
    {
      ghost var before := db.duty;
      var winning := set p | p in batch && p in db.duty && db.duty[p] == OnlineAvailable;
      db.duty := map p | p in db.duty :: if p in winning then OnDispatch else db.duty[p];
      assert db.duty == TakeDuty(batch, before);
      var attempts: seq<Attempt> := [];
      var k := 0;
      while k < |batch|
        invariant 0 <= k <= |batch|
        invariant attempts == NewAttempts(Winners(batch[..k], before), session, task, start, now + duration)
      {
        assert batch[..k + 1][..k] == batch[..k];
        if batch[k] in winning {
          attempts := attempts + [Attempt(session, task, batch[k], start + |attempts|, now + duration, Pending)];
        }
        k := k + 1;
      }
      assert batch[..k] == batch;
      db.attempts := db.attempts + attempts;
      created := |attempts|;
    }

    /** A single candidate, which may lose the race. */
    method PingCandidate(session: SessionId, task: TaskId, provider: ProviderId, order: nat, now: int, duration: int)
      returns (won: bool)
      modifies db`attempts, db`duty
      ensures won == (provider in old(db.duty) && old(db.duty)[provider] == OnlineAvailable)
      ensures db.Snapshot() == PingBatch(old(db.Snapshot()), session, task, [provider], order, now, duration)
    {
      ghost var before := db.Snapshot();
      assert [provider][..0] == [];
      assert Winners([provider], db.duty) == Winners([], db.duty) +
        (if provider in db.duty && db.duty[provider] == OnlineAvailable then [provider] else []);
      if provider !in db.duty || db.duty[provider] != OnlineAvailable {
        assert db.duty == TakeDuty([provider], before.duty);
        return false;
      }
      db.duty := db.duty[provider := OnDispatch];
      assert db.duty == TakeDuty([provider], before.duty);
      db.attempts := db.attempts + [Attempt(session, task, provider, order, now + duration, Pending)];
      return true;
    }
  }
}
