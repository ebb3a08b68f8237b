/**
 Interleaved runs of the matching engine for one session row. The compare-and-set on lock_version
 takes the row lock; what it wrote is committed when stale pings are recovered or when the run ends
 without a match, and is rolled back when the run ends with one.
 */
module EngineRace {
  import opened Common

  type Runner = nat

  datatype Phase =
    | Arrived
    | Loaded(version: nat)      // the row was read while the session was running
    | Holding(version: nat)     // the compare-and-set went through; the row lock is held
    | Recovered(version: nat)   // stale pings were recovered, which committed and released the lock
    | Ended(version: nat, wentOn: bool, committed: bool)
    | Refused                   // the session was over, the compare-and-set failed, or the runner stopped before it

  /** version is the committed one; queued lists the runners that went on to enqueue batches. */
  datatype State = State(version: nat, running: bool, holder: Option<Runner>, runners: map<Runner, Phase>, queued: seq<Runner>)

  datatype Event =
    | Arrive(runner: Runner)
    | Load(runner: Runner)
    | CompareAndSet(runner: Runner)
    | Recover(runner: Runner)
    | Enqueue(runner: Runner)
    | NoMatch(runner: Runner)
    | Crash(runner: Runner)
    | SessionEnds                 // an acceptance or another report ends the session

  const START := State(1, true, None, map[], [])

  predicate In(s: State, r: Runner, phase: Phase) {
    r in s.runners && s.runners[r] == phase
  }

  predicate IsHolding(s: State, r: Runner) {
    r in s.runners && s.runners[r].Holding?
  }

  predicate IsRecovered(s: State, r: Runner) {
    r in s.runners && s.runners[r].Recovered?
  }

  /** Whoever writes the row waits for its lock. */
  predicate Enabled(s: State, e: Event) {
    match e
    case Arrive(r) => r !in s.runners
    case Load(r) => In(s, r, Arrived) && (s.running || s.holder == None)
    case CompareAndSet(r) => r in s.runners && s.runners[r].Loaded? && s.holder == None
    case Recover(r) => IsHolding(s, r)
    case Enqueue(r) => IsHolding(s, r) || IsRecovered(s, r)
    case NoMatch(r) => IsHolding(s, r) || (IsRecovered(s, r) && s.holder == None)
    case Crash(r) => r in s.runners && !s.runners[r].Ended? && !s.runners[r].Refused?
    case SessionEnds => s.holder == None
  }

  function Moved(s: State, r: Runner, phase: Phase): State {
    s.(runners := s.runners[r := phase])
  }

  function Do(s: State, e: Event): State
    requires Enabled(s, e)
  {
    match e
    case Arrive(r) => Moved(s, r, Arrived)
    case Load(r) => if s.running then Moved(s, r, Loaded(s.version)) else Moved(s, r, Refused)
    case CompareAndSet(r) =>
      if s.runners[r].version == s.version then Moved(s, r, Holding(s.version)).(holder := Some(r))
      else Moved(s, r, Refused).(running := false)
    case Recover(r) => Moved(s, r, Recovered(s.version)).(holder := None, version := s.version + 1)
    case Enqueue(r) =>
      if IsHolding(s, r) then Moved(s, r, Ended(s.version, true, false)).(holder := None, queued := s.queued + [r])
      else Moved(s, r, Ended(s.runners[r].version, true, true)).(queued := s.queued + [r])
    case NoMatch(r) =>
      if IsHolding(s, r) then Moved(s, r, Ended(s.version, false, true)).(holder := None, version := s.version + 1, running := false)
      else Moved(s, r, Ended(s.runners[r].version, false, true)).(running := false)
    case Crash(r) =>
      if IsHolding(s, r) then Moved(s, r, Ended(s.version, false, false)).(holder := None)
      else if IsRecovered(s, r) then Moved(s, r, Ended(s.runners[r].version, false, true))
      else Moved(s, r, Refused)
    case SessionEnds => s.(running := false)
  }

  function Step(s: State, e: Event): State {
    if Enabled(s, e) then Do(s, e) else s
  }

  function From(s: State, run: seq<Event>): State {
    if |run| == 0 then s else Step(From(s, run[..|run| - 1]), run[|run| - 1])
  }

  // ── The invariant ───────────────────────────────────────────────────────

  /** The run has committed the version it took. */
  predicate Committed(s: State, r: Runner) {
    r in s.runners && (s.runners[r].Recovered? || (s.runners[r].Ended? && s.runners[r].committed))
  }

  function VersionOf(phase: Phase): nat {
    match phase
    case Loaded(v) => v
    case Holding(v) => v
    case Recovered(v) => v
    case Ended(v, _, _) => v
    case _ => 0
  }

  predicate CommittedAt(s: State, v: nat) {
    exists r | r in s.runners :: Committed(s, r) && VersionOf(s.runners[r]) == v
  }

  /** Who is past the compare-and-set holds the lock at the current version. */
  predicate Locks(s: State) {
    && (forall r | r in s.runners :: IsHolding(s, r) <==> s.holder == Some(r))
    && (s.holder.Some? ==> s.holder.value in s.runners)
    && (forall r | r in s.runners && IsHolding(s, r) :: VersionOf(s.runners[r]) == s.version)
    && (forall r | r in s.runners :: VersionOf(s.runners[r]) <= s.version)
  }

  /** The versions below the current one are those that were committed, each by one run. */
  ghost predicate Versions(s: State) {
    && (forall r | r in s.runners && Committed(s, r) :: 1 <= VersionOf(s.runners[r]) < s.version)
    && (forall q, r | q in s.runners && r in s.runners && q != r && Committed(s, q) && Committed(s, r) ::
          VersionOf(s.runners[q]) != VersionOf(s.runners[r]))
    && (forall v: nat | 1 <= v < s.version :: CommittedAt(s, v))
    && 1 <= s.version
    && (forall r | r in s.runners && (s.runners[r].Loaded? || s.runners[r].Holding?) :: 1 <= VersionOf(s.runners[r]))
  }

  /** Runs that went on have ended so; of those with one version only the last can have committed. */
  predicate Queue(s: State) {
    && (forall i | 0 <= i < |s.queued| :: s.queued[i] in s.runners && s.runners[s.queued[i]].Ended? && s.runners[s.queued[i]].wentOn)
    && (forall i, j | 0 <= i < j < |s.queued| :: s.queued[i] != s.queued[j])
    && (forall i, j | 0 <= i < j < |s.queued| ::
          VersionOf(s.runners[s.queued[i]]) == VersionOf(s.runners[s.queued[j]]) ==> !Committed(s, s.queued[i]))
  }

  ghost predicate Inv(s: State) {
    Locks(s) && Versions(s) && Queue(s)
  }

  lemma LocksKeep(s: State, e: Event)
    requires Locks(s) && Enabled(s, e)
    ensures Locks(Do(s, e))
  {
  }

  /** A step that commits nothing: the same runs have committed the same versions. */
  lemma NothingCommitted(s: State, s': State)
    requires Versions(s) && s'.version == s.version
    requires forall r | r in s.runners :: r in s'.runners
    requires forall r | r in s'.runners ::
      && (Committed(s', r) <==> r in s.runners && Committed(s, r))
      && (Committed(s', r) ==> VersionOf(s'.runners[r]) == VersionOf(s.runners[r]))
      && (s'.runners[r].Loaded? || s'.runners[r].Holding? ==> 1 <= VersionOf(s'.runners[r]))
    ensures Versions(s')
  {
    forall v: nat | 1 <= v < s'.version ensures CommittedAt(s', v) {
      assert CommittedAt(s, v);
      var r :| r in s.runners && Committed(s, r) && VersionOf(s.runners[r]) == v;
      assert r in s'.runners && Committed(s', r);
    }
    hide Committed, VersionOf;
  }

  /** A step that commits the current version for its runner. */
  lemma OneCommitted(s: State, s': State, r: Runner)
    requires Versions(s) && s'.version == s.version + 1
    requires r in s.runners && !Committed(s, r) && s'.runners.Keys == s.runners.Keys
    requires Committed(s', r) && VersionOf(s'.runners[r]) == s.version
    requires forall q | q in s.runners && q != r :: s'.runners[q] == s.runners[q]
    ensures Versions(s')
  {
    forall q | q in s.runners && q != r ensures Committed(s', q) == Committed(s, q) {
    }
    forall v: nat | 1 <= v < s'.version ensures CommittedAt(s', v) {
      if v < s.version {
        assert CommittedAt(s, v);
        var q :| q in s.runners && Committed(s, q) && VersionOf(s.runners[q]) == v;
        assert q in s'.runners && Committed(s', q);
      } else {
        assert r in s'.runners;
      }
    }
    forall q | q in s'.runners && (s'.runners[q].Loaded? || s'.runners[q].Holding?) ensures 1 <= VersionOf(s'.runners[q]) {
      assert q != r;
    }
    hide Committed, VersionOf;
  }

  predicate TakesVersion(s: State, e: Event) {
    e.Recover? || (e.NoMatch? && IsHolding(s, e.runner))
  }

  lemma CommitKeepsVersions(s: State, e: Event)
    requires Locks(s) && Versions(s) && Enabled(s, e) && TakesVersion(s, e)
    ensures Versions(Do(s, e))
  {
    hide Versions;
    OneCommitted(s, Do(s, e), e.runner);
  }

  lemma OthersCommitNothing(s: State, e: Event, r: Runner)
    requires Enabled(s, e) && !TakesVersion(s, e) && r in Do(s, e).runners && Locks(s) && 1 <= s.version
    requires r in s.runners && (s.runners[r].Loaded? || s.runners[r].Holding?) ==> 1 <= VersionOf(s.runners[r])
    ensures var s' := Do(s, e);
      && (Committed(s', r) <==> r in s.runners && Committed(s, r))
      && (Committed(s', r) ==> VersionOf(s'.runners[r]) == VersionOf(s.runners[r]))
      && (s'.runners[r].Loaded? || s'.runners[r].Holding? ==> 1 <= VersionOf(s'.runners[r]))
  {
  }

  lemma OthersKeepVersions(s: State, e: Event)
    requires Locks(s) && Versions(s) && Enabled(s, e) && !TakesVersion(s, e)
    ensures Versions(Do(s, e))
  {
    var s' := Do(s, e);
    assert s'.version == s.version && forall r | r in s.runners :: r in s'.runners;
    hide Do, Enabled, Locks, Committed, VersionOf, TakesVersion;
    forall r | r in s'.runners
      ensures Committed(s', r) <==> r in s.runners && Committed(s, r)
      ensures Committed(s', r) ==> VersionOf(s'.runners[r]) == VersionOf(s.runners[r])
      ensures s'.runners[r].Loaded? || s'.runners[r].Holding? ==> 1 <= VersionOf(s'.runners[r])
    {
      OthersCommitNothing(s, e, r);
    }
    hide Versions;
    NothingCommitted(s, s');
  }

  lemma VersionsKeep(s: State, e: Event)
    requires Locks(s) && Versions(s) && Enabled(s, e)
    ensures Versions(Do(s, e))
  {
    hide Versions, Locks, Do, Enabled;
    if TakesVersion(s, e) {
      CommitKeepsVersions(s, e);
    } else {
      OthersKeepVersions(s, e);
    }
  }

  /** Ended runs do not move. */
  lemma QueuedStay(s: State, s': State, e: Event, q: Runner)
    requires Enabled(s, e) && s' == Do(s, e) && q in s.runners && s.runners[q].Ended?
    ensures q in s'.runners && s'.runners[q] == s.runners[q] && Committed(s', q) == Committed(s, q)
    ensures e.Enqueue? ==> q != e.runner
  {
  }

  /** Nobody with an older version holds the lock, and a recovered run committed its version alone. */
  lemma NotCommittedBefore(s: State, r: Runner, q: Runner)
    requires Locks(s) && Versions(s) && (IsHolding(s, r) || IsRecovered(s, r))
    requires q in s.runners && q != r && VersionOf(s.runners[q]) == VersionOf(s.runners[r])
    ensures !Committed(s, q)
  {
  }

  lemma EnqueuedIsLast(s: State, e: Event)
    requires Enabled(s, e) && e.Enqueue?
    ensures var s' := Do(s, e);
      && s'.queued == s.queued + [e.runner] && e.runner in s'.runners
      && s'.runners[e.runner].Ended? && s'.runners[e.runner].wentOn
    ensures Locks(s) ==> VersionOf(Do(s, e).runners[e.runner]) == VersionOf(s.runners[e.runner])
  {
  }

  lemma QueueKeeps(s: State, e: Event)
    requires Locks(s) && Versions(s) && Queue(s) && Enabled(s, e)
    ensures Queue(Do(s, e))
  {
    var s' := Do(s, e);
    forall i | 0 <= i < |s.queued|
      ensures s.queued[i] in s'.runners && s'.runners[s.queued[i]] == s.runners[s.queued[i]]
      ensures Committed(s', s.queued[i]) == Committed(s, s.queued[i])
      ensures e.Enqueue? ==> s.queued[i] != e.runner
    {
      QueuedStay(s, s', e, s.queued[i]);
    }
    if e.Enqueue? {
      EnqueuedIsLast(s, e);
      forall i | 0 <= i < |s.queued| && VersionOf(s.runners[s.queued[i]]) == VersionOf(s.runners[e.runner])
        ensures !Committed(s, s.queued[i])
      {
        NotCommittedBefore(s, e.runner, s.queued[i]);
      }
    } else {
      assert s'.queued == s.queued;
    }
    hide Do, Enabled, Locks, Versions, Committed, VersionOf;
  }

  lemma {:induction false} RunKeeps(run: seq<Event>)
    ensures Inv(From(START, run))
  {
    if |run| > 0 {
      var s, e := From(START, run[..|run| - 1]), run[|run| - 1];
      RunKeeps(run[..|run| - 1]);
      if Enabled(s, e) {
        LocksKeep(s, e);
        VersionsKeep(s, e);
        QueueKeeps(s, e);
      }
      hide Locks, Versions, Queue, Do;
    }
  }

  // ── The promises ────────────────────────────────────────────────────────

  /** Of the runs that went on with one version, all but the last were rolled back. */
  lemma OneCommitPerVersion(run: seq<Event>, i: nat, j: nat)
    requires i < j < |From(START, run).queued|
    ensures var s := From(START, run);
      && s.queued[i] in s.runners && s.queued[j] in s.runners && s.queued[i] != s.queued[j]
      && (VersionOf(s.runners[s.queued[i]]) == VersionOf(s.runners[s.queued[j]]) ==> !Committed(s, s.queued[i]))
  {
    RunKeeps(run);
    hide From, Versions, Locks;
  }

  /** A loaded run whose version is gone never goes on. */
  lemma {:induction false} StaysBehind(s: State, more: seq<Event>, r: Runner)
    requires r in s.runners && s.runners[r].Loaded? && s.runners[r].version < s.version
    requires forall i | 0 <= i < |s.queued| :: s.queued[i] != r
    ensures var t := From(s, more);
      && r in t.runners && s.version <= t.version
      && (t.runners[r] == s.runners[r] || t.runners[r] == Refused)
      && forall i | 0 <= i < |t.queued| :: t.queued[i] != r
  {
    if |more| > 0 {
      StaysBehind(s, more[..|more| - 1], r);
      OneBehind(s, From(s, more[..|more| - 1]), more[|more| - 1], r);
      hide Step;
    }
  }

  lemma OneBehind(s: State, t: State, e: Event, r: Runner)
    requires r in s.runners && s.runners[r].Loaded? && s.runners[r].version < s.version
    requires r in t.runners && s.version <= t.version && (t.runners[r] == s.runners[r] || t.runners[r] == Refused)
    requires forall i | 0 <= i < |t.queued| :: t.queued[i] != r
    ensures var t' := Step(t, e);
      && r in t'.runners && s.version <= t'.version
      && (t'.runners[r] == s.runners[r] || t'.runners[r] == Refused)
      && forall i | 0 <= i < |t'.queued| :: t'.queued[i] != r
  {
  }

  lemma FromSnoc(s: State, run: seq<Event>, e: Event)
    ensures From(s, run + [e]) == Step(From(s, run), e)
  {
    assert (run + [e])[..|run + [e]| - 1] == run;
  }

  ghost predicate CanGoOn(s: State, r: Runner) {
    exists more: seq<Event> :: r in From(s, more).queued
  }

  lemma GoesOn(s: State, r: Runner)
    requires In(s, r, Loaded(s.version)) && s.holder == None
    ensures CanGoOn(s, r)
  {
    FromSnoc(s, [], CompareAndSet(r));
    FromSnoc(s, [] + [CompareAndSet(r)], Enqueue(r));
    var t := From(s, [] + [CompareAndSet(r)] + [Enqueue(r)]);
    assert t.queued == s.queued + [r];
    assert t.queued[|s.queued|] == r;
    assert r in From(s, [] + [CompareAndSet(r)] + [Enqueue(r)]).queued;
  }

  /**
   When the lock is free, a run that has read a version can still go on exactly when no run that
   took this version has committed it.
   */
  lemma GoesOnUnlessCommitted(run: seq<Event>, r: Runner)
    requires var s := From(START, run); r in s.runners && s.runners[r].Loaded? && s.holder == None
    ensures CanGoOn(From(START, run), r) <==> !CommittedAt(From(START, run), From(START, run).runners[r].version)
  {
    RunKeeps(run);
    var s := From(START, run);
    var v := s.runners[r].version;
    assert CommittedAt(s, v) <==> v < s.version;
    if v < s.version {
      forall more: seq<Event> ensures r !in From(s, more).queued {
        StaysBehind(s, more, r);
      }
    } else {
      GoesOn(s, r);
    }
    hide From, Locks, Queue, CommittedAt;
  }

  /**
   Two runs have read the same version, nobody else has, and the first went on: the second can go
   on too exactly when the first has not committed, that is, recovered no stale ping.
   */
  lemma SecondGoesOn(run: seq<Event>, first: Runner, second: Runner)
    requires var s := From(START, run);
      && s.holder == None && first in s.queued && first in s.runners
      && second in s.runners && s.runners[second].Loaded?
      && VersionOf(s.runners[first]) == s.runners[second].version
      && forall q | q in s.runners && q != first && q != second :: VersionOf(s.runners[q]) != s.runners[second].version
    ensures CanGoOn(From(START, run), second) <==> !Committed(From(START, run), first)
  {
    GoesOnUnlessCommitted(run, second);
    hide From, CanGoOn;
  }

  const BOTH_LOADED: seq<Event> := [Arrive(1)] + [Load(1)] + [Arrive(2)] + [Load(2)]

  /** Two runs of one version that both enqueue every batch. */
  lemma BothEnqueue()
    ensures var s := From(START, BOTH_LOADED + [CompareAndSet(1)] + [Enqueue(1)] + [CompareAndSet(2)] + [Enqueue(2)]);
      s.queued == [1, 2] && s.runners == map[1 := Ended(1, true, false), 2 := Ended(1, true, false)] && s.version == 1
  {
    FromSnoc(START, [], Arrive(1));
    assert [] + [Arrive(1)] == [Arrive(1)];
    FromSnoc(START, [Arrive(1)], Load(1));
    FromSnoc(START, [Arrive(1)] + [Load(1)], Arrive(2));
    FromSnoc(START, [Arrive(1)] + [Load(1)] + [Arrive(2)], Load(2));
    FromSnoc(START, BOTH_LOADED, CompareAndSet(1));
    FromSnoc(START, BOTH_LOADED + [CompareAndSet(1)], Enqueue(1));
    FromSnoc(START, BOTH_LOADED + [CompareAndSet(1)] + [Enqueue(1)], CompareAndSet(2));
    FromSnoc(START, BOTH_LOADED + [CompareAndSet(1)] + [Enqueue(1)] + [CompareAndSet(2)], Enqueue(2));
    hide From;
    assert From(START, BOTH_LOADED).runners == map[1 := Loaded(1), 2 := Loaded(1)];
  }
}
