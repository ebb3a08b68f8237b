/** Who can still win a task after a redispatch: the query for earlier acceptances lets only the former winner in. */
module FormerWinner {
  import opened Common
  import opened DispatchStore
  import opened DispatchSafety
  import opened DispatchQuiet
  import Policy = DispatchPolicy

  // ── One acceptance ──────────────────────────────────────────────────────

  /** How many acceptances the task has had. */
  function Acceptances(attempts: seq<Attempt>, task: TaskId): nat {
    if |attempts| == 0 then 0 else
      Acceptances(attempts[..|attempts| - 1], task) +
      (if attempts[|attempts| - 1].task == task && attempts[|attempts| - 1].status == Accepted then 1 else 0)
  }

  predicate WonBy(attempts: seq<Attempt>, t: TaskId, p: ProviderId) {
    forall i | 0 <= i < |attempts| :: attempts[i].task == t && attempts[i].status == Accepted ==> attempts[i].provider == p
  }

  lemma {:induction false} OthersOf(attempts: seq<Attempt>, t: TaskId, p: ProviderId, q: ProviderId)
    requires WonBy(attempts, t, p)
    ensures AcceptedByOthers(attempts, t, q) == if q == p then 0 else Acceptances(attempts, t)
  {
    if |attempts| > 0 {
      OthersOf(attempts[..|attempts| - 1], t, p, q);
    }
  }

  lemma WinnerIsOne(s: World, t: TaskId, p: ProviderId)
    requires OneWinner(s) && HasAccepted(s, t, p)
    ensures WonBy(s.attempts, t, p)
  {
    var k :| 0 <= k < |s.attempts| && s.attempts[k].task == t && s.attempts[k].provider == p && s.attempts[k].status == Accepted;
    forall i | 0 <= i < |s.attempts| && s.attempts[i].task == t && s.attempts[i].status == Accepted
      ensures s.attempts[i].provider == p
    {
      WinnersAgree(s, i, k);
    }
  }

  lemma AnotherHasWon(s: World, t: TaskId, p: ProviderId, q: ProviderId)
    requires WonBy(s.attempts, t, p) && HasAccepted(s, t, p)
    ensures AcceptedByAnother(s.attempts, t, q) <==> q != p
  {
  }

  /**
   A task somebody has won is not assigned at present: an acceptance goes through exactly when it
   comes from the former winner and answers an open ping. Anybody else's is ignored after one
   acceptance of the task, and raises an error after two.
   */
  lemma OnlyFormerWinner(w: World, run: seq<Event>, t: TaskId, p: ProviderId, q: ProviderId, now: int, flushed: bool)
    requires Opening(w) && HasAccepted(After(w, run), t, p) && !IsAssigned(After(w, run), t)
    ensures var s := After(w, run);
      && (IsAssigned(Step(s, Responds(t, q, Accepts, now, flushed)), t) <==> q == p && Pings(s.attempts, t, q) == 1)
      && (RespondRaises(s, t, q, Accepts) <==> q != p && Pings(s.attempts, t, q) == 1 && Acceptances(s.attempts, t) > 1)
  {
    RunKeeps(w, run);
    ResponseQueryFindsOne(w, run, t, q);
    var s := After(w, run);
    hide After;
    WinnerIsOne(s, t, p);
    AnotherHasWon(s, t, p, q);
    OthersOf(s.attempts, t, p, q);
    hide AcceptedByAnother, AcceptedByOthers, Acceptances, PingsOk, AssignmentsOk, OneWinner, WonBy, Pings, CancelOthers, CloseSessions;
  }

  // ── Whole continuations ─────────────────────────────────────────────────

  /** The batch of a session of the task holds the provider. */
  predicate PingsAgain(s: World, e: Event, t: TaskId, p: ProviderId) {
    e.PingNext? && Enabled(s, e) && s.sessions[e.session].task == t && p in e.batch
  }

  predicate NotPinged(s: World, more: seq<Event>, t: TaskId, p: ProviderId) {
    |more| == 0 ||
    (NotPinged(s, more[..|more| - 1], t, p) && !PingsAgain(After(s, more[..|more| - 1]), more[|more| - 1], t, p))
  }

  predicate NoPing(attempts: seq<Attempt>, t: TaskId, p: ProviderId) {
    forall i | 0 <= i < |attempts| :: !IsPing(attempts[i], t, p)
  }

  lemma {:induction false} NoPingIsZero(attempts: seq<Attempt>, t: TaskId, p: ProviderId)
    ensures Pings(attempts, t, p) == 0 <==> NoPing(attempts, t, p)
  {
    if |attempts| > 0 {
      var front := attempts[..|attempts| - 1];
      NoPingIsZero(front, t, p);
      assert forall i | 0 <= i < |front| :: front[i] == attempts[i];
    }
  }

  /** Rows of the log of attempts change their status only, and only while it is pending. */
  predicate Ages(before: seq<Attempt>, after: seq<Attempt>) {
    && |before| <= |after|
    && forall i | 0 <= i < |before| ::
         after[i] == if before[i].status == Pending then before[i].(status := after[i].status) else before[i]
  }

  lemma AcceptAges(s: World, k: nat, flushed: bool)
    requires IsPending(s, k)
    ensures Ages(s.attempts, Accept(s, k, flushed).attempts) && |Accept(s, k, flushed).attempts| == |s.attempts|
  {
  }

  lemma DeclineAges(s: World, k: nat, status: AttemptStatus, now: int, flushed: bool)
    requires IsPending(s, k)
    ensures Ages(s.attempts, Decline(s, k, status, now, flushed).attempts)
    ensures |Decline(s, k, status, now, flushed).attempts| == |s.attempts|
  {
    var freed := s.(attempts := WithStatus(s.attempts, k, status), duty := Free(s.duty, s.attempts[k].provider));
    assert HandleNoMatch(freed, s.attempts[k].task, s.attempts[k].session, now).attempts == freed.attempts;
    hide HandleNoMatch, LastToClose;
  }

  lemma RespondAges(s: World, e: Event)
    requires e.Responds?
    ensures Ages(s.attempts, Step(s, e).attempts) && |Step(s, e).attempts| == |s.attempts|
  {
    hide Pings, AcceptedByAnother, Accept, Decline;
    if Pings(s.attempts, e.task, e.provider) == 1 {
      var k := LastPing(s.attempts, e.task, e.provider);
      AcceptAges(s, k, e.flushed);
      DeclineAges(s, k, if e.answer.Declines? then Declined else Timeout, e.now, e.flushed);
    }
  }

  lemma CommitsAge(s: World, session: SessionId, now: int)
    ensures Ages(s.attempts, RunCommits(s, session, now).attempts) && |RunCommits(s, session, now).attempts| == |s.attempts|
  {
    hide AnyStale, HasStale;
  }

  lemma EngineAges(s: World, e: Event)
    requires e.RunEngine?
    ensures Ages(s.attempts, Step(s, e).attempts) && |Step(s, e).attempts| == |s.attempts|
  {
    hide RunCommits, Ages, Policy.NextRetryDelay;
    CommitsAge(s, e.session, e.now);
    AgesItself(s.attempts);
  }

  lemma AgesItself(attempts: seq<Attempt>)
    ensures Ages(attempts, attempts)
  {
  }

  lemma StepAges(s: World, e: Event)
    ensures Ages(s.attempts, Step(s, e).attempts)
    ensures !e.PingNext? ==> |Step(s, e).attempts| == |s.attempts|
  {
    hide Respond, RunJob, MaxSequence, HasStale, Winners, Policy.NextRetryDelay;
    if e.Responds? {
      RespondAges(s, e);
    } else if e.RunEngine? {
      EngineAges(s, e);
    }
  }

  lemma {:induction false} WinnersAreInBatch(batch: seq<ProviderId>, duty: map<ProviderId, Duty>, p: ProviderId)
    requires p !in batch
    ensures p !in Winners(batch, duty)
  {
    if |batch| > 0 {
      WinnersAreInBatch(batch[..|batch| - 1], duty, p);
    }
  }

  lemma NewAttemptsAreOthers(s: World, e: Event, t: TaskId, p: ProviderId, i: nat)
    requires e.PingNext? && Enabled(s, e) && !PingsAgain(s, e, t, p)
    requires |s.attempts| <= i < |Step(s, e).attempts|
    ensures !IsPing(Step(s, e).attempts[i], t, p)
  {
    if s.sessions[e.session].task == t {
      WinnersAreInBatch(e.batch, s.duty, p);
    }
    hide Winners;
  }

  lemma NoPingStays(s: World, e: Event, t: TaskId, p: ProviderId)
    requires NoPing(s.attempts, t, p) && !PingsAgain(s, e, t, p)
    ensures NoPing(Step(s, e).attempts, t, p)
  {
    StepAges(s, e);
    var s' := Step(s, e);
    hide Do, PingsAgain;
    forall i | 0 <= i < |s'.attempts| ensures !IsPing(s'.attempts[i], t, p) {
      if i < |s.attempts| {
        assert !IsPing(s.attempts[i], t, p);
      } else {
        NewAttemptsAreOthers(s, e, t, p, i);
      }
    }
  }

  lemma AcceptedStays(s: World, e: Event, t: TaskId, p: ProviderId)
    requires HasAccepted(s, t, p)
    ensures HasAccepted(Step(s, e), t, p)
  {
    StepAges(s, e);
    hide Step;
    var k :| 0 <= k < |s.attempts| && s.attempts[k].task == t && s.attempts[k].provider == p && s.attempts[k].status == Accepted;
    assert Step(s, e).attempts[k] == s.attempts[k];
  }

  lemma UnassignedStep(w: World, run: seq<Event>, e: Event, t: TaskId, p: ProviderId)
    requires Opening(w) && HasAccepted(After(w, run), t, p) && !IsAssigned(After(w, run), t) && NoPing(After(w, run).attempts, t, p)
    ensures !IsAssigned(Step(After(w, run), e), t)
  {
    var s := After(w, run);
    NoPingIsZero(s.attempts, t, p);
    hide After, Step;
    if IsAssigned(Step(s, e), t) {
      AssignedByAcceptance(s, e, t);
      assert e == Responds(t, e.provider, Accepts, e.now, e.flushed);
      OnlyFormerWinner(w, run, t, p, e.provider, e.now, e.flushed);
    }
  }

  lemma AfterJoin(w: World, run: seq<Event>, more: seq<Event>)
    ensures After(w, run + more) == After(After(w, run), more)
  {
    if |more| == 0 {
      assert run + more == run;
    } else {
      assert (run + more)[..|run + more| - 1] == run + more[..|more| - 1];
      AfterJoin(w, run, more[..|more| - 1]);
    }
  }

  lemma {:induction false} StaysUnassigned(w: World, run: seq<Event>, more: seq<Event>, t: TaskId, p: ProviderId)
    requires Opening(w) && HasAccepted(After(w, run), t, p) && !IsAssigned(After(w, run), t) && NoPing(After(w, run).attempts, t, p)
    requires NotPinged(After(w, run), more, t, p)
    ensures var s := After(After(w, run), more); HasAccepted(s, t, p) && !IsAssigned(s, t) && NoPing(s.attempts, t, p)
  {
    if |more| > 0 {
      var front, e := more[..|more| - 1], more[|more| - 1];
      StaysUnassigned(w, run, front, t, p);
      AfterJoin(w, run, front);
      AcceptedStays(After(w, run + front), e, t, p);
      UnassignedStep(w, run + front, e, t, p);
      NoPingStays(After(w, run + front), e, t, p);
      hide Step, HasAccepted, NoPing, IsAssigned, PingsAgain, Opening;
    }
  }

  ghost predicate CanBeAssigned(s: World, t: TaskId, p: ProviderId) {
    exists more: seq<Event> :: NotPinged(s, more, t, p) && IsAssigned(After(s, more), t)
  }

  /**
   A redispatched task that somebody has won before can be assigned again, without a new ping of
   this former winner, exactly when he still has an open one. No other provider gets it any more.
   */
  lemma BackToFormerWinner(w: World, run: seq<Event>, t: TaskId, p: ProviderId)
    requires Opening(w) && HasAccepted(After(w, run), t, p) && !IsAssigned(After(w, run), t)
    ensures CanBeAssigned(After(w, run), t, p) <==> Pings(After(w, run).attempts, t, p) == 1
  {
    var s := After(w, run);
    ResponseQueryFindsOne(w, run, t, p);
    NoPingIsZero(s.attempts, t, p);
    if Pings(s.attempts, t, p) == 1 {
      OnlyFormerWinner(w, run, t, p, p, 0, true);
      OneStep(s, Responds(t, p, Accepts, 0, true), t, p);
    } else {
      forall more: seq<Event> | NotPinged(s, more, t, p) ensures !IsAssigned(After(s, more), t) {
        StaysUnassigned(w, run, more, t, p);
      }
    }
    hide After, Step, Pings, NoPing;
  }

  lemma OneStep(s: World, e: Event, t: TaskId, p: ProviderId)
    requires !e.PingNext?
    ensures After(s, [e]) == Step(s, e) && NotPinged(s, [e], t, p)
  {
    assert [e][..0] == [];
  }
}
