/** Who is on dispatch, and why: an open ping, or one that was closed without its release. */
module DutyHistory {
  import opened Common
  import opened DispatchStore
  import opened DispatchSafety
  import opened DispatchTables
  import opened FormerWinner

  predicate IsPinged(s: World, p: ProviderId) {
    exists i | 0 <= i < |s.attempts| :: s.attempts[i].provider == p && s.attempts[i].status == Pending
  }

  /** The step ends the provider's ping and his time on dispatch: he wins, his refusal is committed, or the ping expires. */
  predicate Frees(s: World, e: Event, p: ProviderId) {
    || (Wins(s, e) && e.provider == p)
    || (Refuses(s, e) && e.provider == p && (EndsSearch(s, e) || e.flushed))
    || PingExpires(s, e, p)
  }

  /** The step closes his ping and leaves him on dispatch. */
  predicate Strands(s: World, e: Event, p: ProviderId) {
    IsPinged(s, p) && !IsPinged(Step(s, e), p) && !Frees(s, e, p)
  }

  /** He was on dispatch before the run, or has been stranded in it. */
  predicate Stranded(w: World, run: seq<Event>, p: ProviderId) {
    if |run| == 0 then p in w.duty && w.duty[p] == OnDispatch
    else Stranded(w, run[..|run| - 1], p) || Strands(After(w, run[..|run| - 1]), run[|run| - 1], p)
  }

  predicate IsOn(s: World, p: ProviderId) {
    p in s.duty && s.duty[p] == OnDispatch
  }

  // ── One step ────────────────────────────────────────────────────────────

  lemma PingedIsOn(s: World, p: ProviderId)
    requires PingsOk(s) && IsPinged(s, p)
    ensures IsOn(s, p)
  {
  }

  /** The provider of an assigned task is not on dispatch. */
  lemma NotTakenFrom(s: World, e: Event, p: ProviderId)
    requires AssignmentsOk(s) && TakesFrom(s, e, p)
    ensures !IsOn(s, p)
  {
    assert IsAssigned(s, e.task) && AssignedTo(s, e.task, s.tasks[e.task].assignedTo.value);
  }

  lemma ClosedPing(s: World, e: Event, p: ProviderId)
    requires Inv(s) && IsPinged(s, p) && !IsPinged(Step(s, e), p) && p in s.duty
    ensures IsOn(Step(s, e), p) <==> !Frees(s, e, p)
  {
    assert PingsOk(s) && AssignmentsOk(s);
    PingedIsOn(s, p);
    DutyTells(s, e, p);
    if TakesFrom(s, e, p) {
      NotTakenFrom(s, e, p);
    }
    if e.PingNext? {
      var i :| 0 <= i < |s.attempts| && s.attempts[i].provider == p && s.attempts[i].status == Pending;
      PingTells(s, e, i);
    }
    hide Step, Wins, Refuses, EndsSearch, PingExpires, TakesFrom, Inv;
  }

  /** A ping that is open after the step was so before, or is a new one of an available provider. */
  lemma NewlyPinged(s: World, e: Event, p: ProviderId)
    requires Inv(s) && !IsPinged(s, p) && IsPinged(Step(s, e), p)
    ensures p in s.duty && s.duty[p] == OnlineAvailable
  {
    var s' := Step(s, e);
    var i :| 0 <= i < |s'.attempts| && s'.attempts[i].provider == p && s'.attempts[i].status == Pending;
    StepAges(s, e);
    if i < |s.attempts| {
      PingTells(s, e, i);
    } else if Enabled(s, e) {
      NewPingsTell(s, e);
    }
    hide Do, Inv, Ages;
  }

  lemma PingMakesPinged(s: World, e: Event, p: ProviderId)
    requires e.PingNext? && Enabled(s, e) && p in e.batch && p in s.duty && s.duty[p] == OnlineAvailable
    ensures IsPinged(Step(s, e), p)
  {
    NewPingsTell(s, e);
    var n, s' := |s.attempts|, Step(s, e);
    var i :| n <= i < |s'.attempts| && s'.attempts[i].provider == p;
    assert s'.attempts[i].status == Pending;
  }

  lemma UnpingedStays(s: World, e: Event, p: ProviderId)
    requires Inv(s) && !IsPinged(s, p) && !IsPinged(Step(s, e), p) && p in s.duty
    ensures IsOn(Step(s, e), p) <==> IsOn(s, p)
  {
    assert AssignmentsOk(s);
    DutyTells(s, e, p);
    if TakesFrom(s, e, p) {
      NotTakenFrom(s, e, p);
    }
    if e.PingNext? && Enabled(s, e) && p in e.batch && s.duty[p] == OnlineAvailable {
      PingMakesPinged(s, e, p);
    }
    hide Step, TakesFrom, Inv, EndsSearch;
  }

  // ── Whole runs ──────────────────────────────────────────────────────────

  /**
   In every run a provider is on dispatch exactly while he has an open ping or has been stranded: he was so
   before, or his last ping was declined, timed out or cancelled without a release that was committed.
   */
  lemma {:induction false} OnDispatchTells(w: World, run: seq<Event>, p: ProviderId)
    requires Opening(w) && p in w.duty
    ensures var s := After(w, run);
      && p in s.duty && (s.duty[p] == OnDispatch <==> IsPinged(s, p) || Stranded(w, run, p))
      && !(IsPinged(s, p) && Stranded(w, run, p))
  {
    if |run| > 0 {
      var front, e := run[..|run| - 1], run[|run| - 1];
      var s := After(w, front);
      OnDispatchTells(w, front, p);
      RunKeeps(w, front);
      RunKeeps(w, run);
      DutyTells(s, e, p);
      var s' := After(w, run);
      assert s' == Step(s, e) && PingsOk(s');
      hide After, Step, Inv, PingsOk, Frees, IsPinged;
      if IsPinged(s', p) {
        PingedIsOn(s', p);
        if !IsPinged(s, p) {
          NewlyPinged(s, e, p);
        }
      } else if IsPinged(s, p) {
        ClosedPing(s, e, p);
      } else {
        UnpingedStays(s, e, p);
      }
    }
  }

  lemma {:induction false} StrandedStays(w: World, run: seq<Event>, more: seq<Event>, p: ProviderId)
    requires Stranded(w, run, p)
    ensures Stranded(w, run + more, p)
  {
    if |more| == 0 {
      assert run + more == run;
    } else {
      StrandedStays(w, run, more[..|more| - 1], p);
      assert (run + more)[..|run + more| - 1] == run + more[..|more| - 1];
    }
    hide Strands, After;
  }

  /** Who is on dispatch without an open ping stays so, whatever is called. */
  lemma StrandedForGood(w: World, run: seq<Event>, more: seq<Event>, p: ProviderId)
    requires Opening(w) && p in w.duty && IsOn(After(w, run), p) && !IsPinged(After(w, run), p)
    ensures IsOn(After(w, run + more), p) && !IsPinged(After(w, run + more), p)
  {
    OnDispatchTells(w, run, p);
    StrandedStays(w, run, more, p);
    OnDispatchTells(w, run + more, p);
    hide After, Stranded;
  }

  /** When an acceptance closes the other pings, their providers are left on dispatch. */
  lemma LosersAreStranded(s: World, e: Event, i: nat)
    requires Inv(s) && ClosesRest(s, e) && i < |s.attempts|
    requires s.attempts[i].task == e.task && s.attempts[i].status == Pending && s.attempts[i].provider != e.provider
    ensures var s' := Step(s, e);
      i < |s'.attempts| && s'.attempts[i].status == AttemptStatus.Cancelled && IsOn(s', s.attempts[i].provider)
  {
    assert PingsOk(s);
    var p := s.attempts[i].provider;
    assert IsPinged(s, p);
    PingedIsOn(s, p);
    PingTells(s, e, i);
    DutyTells(s, e, p);
    hide Step, Inv, PingsOk;
  }
}
