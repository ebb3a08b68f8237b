/**
 What is still open when a task has been assigned. The updates that close it are the last statements
 of an acceptance, and are committed only if something after them commits.
 */
module DispatchQuiet {
  import opened Common
  import opened DispatchStore
  import opened DispatchSafety
  import Policy = DispatchPolicy

  /** No ping of the task is open and no session of it is running. */
  predicate Quiet(w: World, t: TaskId) {
    && (forall i | 0 <= i < |w.attempts| :: w.attempts[i].task == t ==> w.attempts[i].status != Pending)
    && (forall i | 0 <= i < |w.sessions| :: w.sessions[i].task == t ==> w.sessions[i].status != Running)
  }

  /** Apart from ping i the task has nothing open. */
  predicate NothingElseOpen(w: World, i: nat)
    requires i < |w.attempts|
  {
    && (forall k | 0 <= k < |w.attempts| && k != i :: w.attempts[k].task == w.attempts[i].task ==> w.attempts[k].status != Pending)
    && (forall k | 0 <= k < |w.sessions| :: w.sessions[k].task == w.attempts[i].task ==> w.sessions[k].status != Running)
  }

  /**
   After an acceptance nothing of the task is open exactly when the closing updates were committed,
   which a customer to notify is enough for, or there was nothing to close.
   */
  lemma QuietAfterAcceptance(w: World, i: nat, flushed: bool)
    requires IsPending(w, i)
    ensures Quiet(Accept(w, i, flushed), w.attempts[i].task) <==>
      TailCommits(w, w.attempts[i].task, flushed) || NothingElseOpen(w, i)
  {
    var w' := Accept(w, i, flushed);
    if !TailCommits(w, w.attempts[i].task, flushed) {
      assert forall k | 0 <= k < |w.attempts| && k != i :: w'.attempts[k] == w.attempts[k];
      assert w'.sessions == w.sessions;
    }
  }

  /** The provider of a ping that closes is released exactly when it is the last one, or the log is flushed. */
  lemma ReleasedAfterDecline(w: World, i: nat, status: AttemptStatus, now: int, flushed: bool)
    requires IsPending(w, i) && w.attempts[i].provider in w.duty && w.duty[w.attempts[i].provider] == OnDispatch
    ensures var w' := Decline(w, i, status, now, flushed); var p := w.attempts[i].provider;
      p in w'.duty && (w'.duty[p] == OnlineAvailable <==> flushed || LastToClose(w, i, status))
  {
    var freed := w.(attempts := WithStatus(w.attempts, i, status), duty := Free(w.duty, w.attempts[i].provider));
    assert HandleNoMatch(freed, w.attempts[i].task, w.attempts[i].session, now).duty == freed.duty;
    hide HandleNoMatch, LastToClose;
  }

  // ── While a task stays assigned ─────────────────────────────────────────

  /** Every open ping and running session of t was open before. */
  predicate OpensNothing(w: World, w': World, t: TaskId) {
    && (forall i | 0 <= i < |w'.attempts| && w'.attempts[i].task == t && w'.attempts[i].status == Pending ::
          i < |w.attempts| && w.attempts[i].task == t && w.attempts[i].status == Pending)
    && (forall i | 0 <= i < |w'.sessions| && w'.sessions[i].task == t && w'.sessions[i].status == Running ::
          i < |w.sessions| && w.sessions[i].task == t && w.sessions[i].status == Running)
  }

  lemma OpensNothingStaysQuiet(w: World, w': World, t: TaskId)
    requires Quiet(w, t) && OpensNothing(w, w', t)
    ensures Quiet(w', t)
  {
  }

  lemma NoMatchOpensNothing(w: World, task: TaskId, session: SessionId, now: int, t: TaskId)
    ensures OpensNothing(w, HandleNoMatch(w, task, session, now), t)
  {
    hide Policy.NextRetryDelay;
  }

  lemma Transitive(a: World, b: World, c: World, t: TaskId)
    requires OpensNothing(a, b, t) && OpensNothing(b, c, t)
    ensures OpensNothing(a, c, t)
  {
  }

  lemma DeclineOpensNothing(w: World, i: nat, status: AttemptStatus, now: int, flushed: bool, t: TaskId)
    requires i < |w.attempts| && status != Pending
    ensures OpensNothing(w, Decline(w, i, status, now, flushed), t)
  {
    var closed := w.(attempts := WithStatus(w.attempts, i, status));
    var freed := closed.(duty := Free(w.duty, w.attempts[i].provider));
    assert OpensNothing(w, closed, t) && OpensNothing(w, freed, t);
    NoMatchOpensNothing(freed, w.attempts[i].task, w.attempts[i].session, now, t);
    hide LastToClose, HandleNoMatch, OpensNothing, WithStatus;
    Transitive(w, freed, HandleNoMatch(freed, w.attempts[i].task, w.attempts[i].session, now), t);
  }

  lemma AcceptOpensNothing(w: World, i: nat, flushed: bool, t: TaskId)
    requires i < |w.attempts|
    ensures OpensNothing(w, Accept(w, i, flushed), t)
  {
  }

  lemma RespondOpensNothing(w: World, e: Event, t: TaskId)
    requires e.Responds?
    ensures OpensNothing(w, Step(w, e), t)
  {
    if Pings(w.attempts, e.task, e.provider) == 1 {
      var i := LastPing(w.attempts, e.task, e.provider);
      DeclineOpensNothing(w, i, if e.answer.Declines? then Declined else Timeout, e.now, e.flushed, t);
      AcceptOpensNothing(w, i, e.flushed, t);
    }
    hide AcceptedByAnother, Decline, Accept, Pings;
  }

  lemma CommitsOpenNothing(w: World, session: SessionId, now: int, t: TaskId)
    ensures OpensNothing(w, RunCommits(w, session, now), t)
    ensures session < |w.sessions| ==> OpensNothing(RunCommits(w, session, now), Bump(RunCommits(w, session, now), session), t)
  {
    hide AnyStale, HasStale;
  }

  lemma EngineOpensNothing(w: World, session: SessionId, found: bool, now: int, t: TaskId)
    ensures OpensNothing(w, RunJob(w, session, found, now), t)
  {
    if session < |w.sessions| {
      CommitsOpenNothing(w, session, now, t);
      var run, task := RunCommits(w, session, now), w.sessions[session].task;
      RunKeepsSessions(w, session, now);
      NoMatchOpensNothing(run, task, session, now, t);
      NoMatchOpensNothing(Bump(run, session), task, session, now, t);
      hide RunCommits, HandleNoMatch, OpensNothing, Bump, BumpStaysOpen;
      Transitive(run, Bump(run, session), HandleNoMatch(Bump(run, session), task, session, now), t);
      Transitive(w, run, HandleNoMatch(run, task, session, now), t);
      Transitive(w, run, HandleNoMatch(Bump(run, session), task, session, now), t);
    }
  }

  /** The engine opens nothing new for a task that stays assigned. */
  lemma AssignedOpensNothing(w: World, e: Event, t: TaskId)
    requires IsAssigned(w, t) && IsAssigned(Step(w, e), t)
    ensures OpensNothing(w, Step(w, e), t)
  {
    match e
    case Responds(_, _, _, _, _) => RespondOpensNothing(w, e, t);
    case NoMatchFor(task, session, now) => NoMatchOpensNothing(w, task, session, now, t);
    case RunEngine(session, found, now) => EngineOpensNothing(w, session, found, now, t);
    case _ =>
    hide HandleNoMatch, RunJob, Respond, MaxSequence, Winners, HasStale;
  }

  // ── Whole runs ──────────────────────────────────────────────────────────

  lemma NoMatchAssignsNobody(w: World, task: TaskId, session: SessionId, now: int, t: TaskId)
    requires IsAssigned(HandleNoMatch(w, task, session, now), t)
    ensures IsAssigned(w, t)
  {
    hide Policy.NextRetryDelay;
  }

  lemma EngineAssignsNobody(w: World, session: SessionId, found: bool, now: int, t: TaskId)
    requires IsAssigned(RunJob(w, session, found, now), t)
    ensures IsAssigned(w, t)
  {
    if session < |w.sessions| {
      RunKeepsTasks(w, session, now);
      RunKeepsSessions(w, session, now);
      var run, task := RunCommits(w, session, now), w.sessions[session].task;
      hide RunCommits, HandleNoMatch, BumpStaysOpen;
      if !(Searches(w, session) && found) {
        NoMatchAssignsNobody(if BumpStaysOpen(w, session, now) then Bump(run, session) else run, task, session, now, t);
      }
    }
  }

  /** Only an acceptance assigns a task. */
  lemma AssignedByAcceptance(w: World, e: Event, t: TaskId)
    requires !IsAssigned(w, t) && IsAssigned(Step(w, e), t)
    ensures e.Responds? && e.answer.Accepts? && e.task == t && Pings(w.attempts, t, e.provider) == 1
    ensures Step(w, e) == Accept(w, LastPing(w.attempts, t, e.provider), e.flushed)
  {
    match e
    case NoMatchFor(task, session, now) => NoMatchAssignsNobody(w, task, session, now, t);
    case RunEngine(session, found, now) => EngineAssignsNobody(w, session, found, now, t);
    case Responds(task, provider, answer, now, flushed) =>
      if Pings(w.attempts, task, provider) == 1 && !answer.Accepts? {
        DeclineAssignsNobody(w, LastPing(w.attempts, task, provider), if answer.Declines? then Declined else Timeout, now, flushed, t);
      }
    case _ =>
    hide HandleNoMatch, RunJob, Decline, MaxSequence, Winners, HasStale, Pings, AcceptedByAnother, CancelOthers, CloseSessions;
  }

  lemma DeclineAssignsNobody(w: World, i: nat, status: AttemptStatus, now: int, flushed: bool, t: TaskId)
    requires i < |w.attempts|
    ensures IsAssigned(Decline(w, i, status, now, flushed), t) ==> IsAssigned(w, t)
  {
    var freed := w.(attempts := WithStatus(w.attempts, i, status), duty := Free(w.duty, w.attempts[i].provider));
    if IsAssigned(HandleNoMatch(freed, w.attempts[i].task, w.attempts[i].session, now), t) {
      NoMatchAssignsNobody(freed, w.attempts[i].task, w.attempts[i].session, now, t);
    }
    hide HandleNoMatch, LastToClose;
  }

  /** The closing updates of the acceptance that last assigned the task were committed. */
  predicate TailCommitted(w: World, run: seq<Event>, t: TaskId) {
    |run| > 0 &&
    var s, e := After(w, run[..|run| - 1]), run[|run| - 1];
    if IsAssigned(s, t) then TailCommitted(w, run[..|run| - 1], t)
    else e.Responds? && TailCommits(s, t, e.flushed)
  }

  /** As long as it stays assigned, a task whose acceptance was committed to the end has nothing open. */
  lemma {:induction false} CommittedIsQuiet(w: World, run: seq<Event>, t: TaskId)
    requires Opening(w) && IsAssigned(After(w, run), t) && TailCommitted(w, run, t)
    ensures Quiet(After(w, run), t)
  {
    var s, e := After(w, run[..|run| - 1]), run[|run| - 1];
    if IsAssigned(s, t) {
      CommittedIsQuiet(w, run[..|run| - 1], t);
      AssignedOpensNothing(s, e, t);
      OpensNothingStaysQuiet(s, Step(s, e), t);
    } else {
      AssignedByAcceptance(s, e, t);
      QuietAfterAcceptance(s, LastPing(s.attempts, t, e.provider), e.flushed);
    }
    hide Step, Quiet, OpensNothing, Accept;
  }

  lemma {:induction false} CustomersStay(w: World, run: seq<Event>, t: TaskId)
    ensures t in w.tasks <==> t in After(w, run).tasks
    ensures t in w.tasks ==> After(w, run).tasks[t].customer == w.tasks[t].customer
  {
    if |run| > 0 {
      CustomersStay(w, run[..|run| - 1], t);
      StepKeepsCustomer(After(w, run[..|run| - 1]), run[|run| - 1], t);
      hide Step;
    }
  }

  lemma NoMatchKeepsCustomer(w: World, task: TaskId, session: SessionId, now: int, t: TaskId)
    ensures t in w.tasks <==> t in HandleNoMatch(w, task, session, now).tasks
    ensures t in w.tasks ==> HandleNoMatch(w, task, session, now).tasks[t].customer == w.tasks[t].customer
  {
    hide Policy.NextRetryDelay;
  }

  lemma EngineKeepsCustomer(w: World, session: SessionId, found: bool, now: int, t: TaskId)
    ensures t in w.tasks <==> t in RunJob(w, session, found, now).tasks
    ensures t in w.tasks ==> RunJob(w, session, found, now).tasks[t].customer == w.tasks[t].customer
  {
    if session < |w.sessions| {
      RunKeepsTasks(w, session, now);
      RunKeepsSessions(w, session, now);
      var run, task := RunCommits(w, session, now), w.sessions[session].task;
      NoMatchKeepsCustomer(run, task, session, now, t);
      NoMatchKeepsCustomer(Bump(run, session), task, session, now, t);
      hide RunCommits, HandleNoMatch;
    }
  }

  lemma RespondKeepsCustomer(w: World, e: Event, t: TaskId)
    requires e.Responds?
    ensures t in w.tasks <==> t in Step(w, e).tasks
    ensures t in w.tasks ==> Step(w, e).tasks[t].customer == w.tasks[t].customer
  {
    hide HandleNoMatch, LastToClose, Pings, AcceptedByAnother, CancelOthers, CloseSessions;
    if Pings(w.attempts, e.task, e.provider) == 1 {
      var i := LastPing(w.attempts, e.task, e.provider);
      var status := if e.answer.Declines? then Declined else Timeout;
      var freed := w.(attempts := WithStatus(w.attempts, i, status), duty := Free(w.duty, w.attempts[i].provider));
      NoMatchKeepsCustomer(freed, w.attempts[i].task, w.attempts[i].session, e.now, t);
    }
  }

  lemma StepKeepsCustomer(w: World, e: Event, t: TaskId)
    ensures t in w.tasks <==> t in Step(w, e).tasks
    ensures t in w.tasks ==> Step(w, e).tasks[t].customer == w.tasks[t].customer
  {
    hide HandleNoMatch, RunJob, Respond, MaxSequence, Winners, HasStale, Pings;
    match e
    case NoMatchFor(task, session, now) => NoMatchKeepsCustomer(w, task, session, now, t);
    case RunEngine(session, found, now) => EngineKeepsCustomer(w, session, found, now, t);
    case Responds(_, _, _, _, _) => RespondKeepsCustomer(w, e, t);
    case _ =>
  }

  /** In every run an assigned task that has a customer has no open ping and no running session. */
  lemma CustomerTasksAreQuiet(w: World, run: seq<Event>, t: TaskId)
    requires Opening(w) && IsAssigned(After(w, run), t) && After(w, run).tasks[t].customer.Some?
    ensures Quiet(After(w, run), t)
  {
    CustomersStay(w, run, t);
    CustomerCommits(w, run, t);
    CommittedIsQuiet(w, run, t);
  }

  lemma {:induction false} CustomerCommits(w: World, run: seq<Event>, t: TaskId)
    requires Opening(w) && IsAssigned(After(w, run), t) && t in w.tasks && w.tasks[t].customer.Some?
    ensures TailCommitted(w, run, t)
  {
    var s, e := After(w, run[..|run| - 1]), run[|run| - 1];
    CustomersStay(w, run[..|run| - 1], t);
    if IsAssigned(s, t) {
      CustomerCommits(w, run[..|run| - 1], t);
    } else {
      AssignedByAcceptance(s, e, t);
    }
    hide Step, Accept;
  }
}
