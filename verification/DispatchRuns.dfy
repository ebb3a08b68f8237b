/** Runs of the dispatch system that lead where one might not want to go, from any opening world. */
module DispatchRuns {
  import opened Common
  import opened DispatchStore
  import opened DispatchSafety
  import opened DispatchQuiet
  import opened FormerWinner
  import Policy = DispatchPolicy

  lemma AfterSnoc(w: World, run: seq<Event>, e: Event)
    ensures After(w, run + [e]) == Step(After(w, run), e)
  {
    assert (run + [e])[..|run + [e]| - 1] == run;
  }

  /** The task is started, and n times its session finds nobody and a retry opens the next one. */
  function Retries(t: TaskId, n: nat): seq<Event> {
    if n == 0 then [Start(t)] else Retries(t, n - 1) + [NoMatchFor(t, n - 1, 0)] + [Retry(t)]
  }

  /** A task that searches in its last session after n retries; nobody was pinged. */
  predicate InSearch(w: World, s: World, t: TaskId, n: nat) {
    && t in s.tasks && s.tasks[t].status == Searching && s.tasks[t].autoCount == n
    && |s.sessions| == n + 1 && s.sessions[n].task == t && s.sessions[n].status == Running
    && s.attempts == [] && s.duty == w.duty
    && t in w.tasks && s.tasks[t].customer == w.tasks[t].customer
  }

  lemma FirstSearch(w: World, t: TaskId)
    requires Opening(w) && t in w.tasks && Dispatchable(w.tasks[t].status)
    ensures InSearch(w, After(w, Retries(t, 0)), t, 0)
  {
    AfterSnoc(w, [], Start(t));
    assert [] + [Start(t)] == Retries(t, 0);
    assert After(w, []) == w;
    hide After, Retries, MaxSequence;
    assert After(w, Retries(t, 0)) == Step(w, Start(t));
  }

  lemma {:induction false} RetriesLead(w: World, t: TaskId, n: nat)
    requires Opening(w) && t in w.tasks && Dispatchable(w.tasks[t].status) && n <= Policy.AUTO_DISPATCH_MAX
    ensures InSearch(w, After(w, Retries(t, n)), t, n)
  {
    hide After, InSearch, Retries, Opening, Dispatchable;
    if n == 0 {
      FirstSearch(w, t);
    } else {
      RetriesLead(w, t, n - 1);
      NextSearch(w, t, n - 1);
    }
  }

  lemma NextSearch(w: World, t: TaskId, n: nat)
    requires n < Policy.AUTO_DISPATCH_MAX && InSearch(w, After(w, Retries(t, n)), t, n)
    ensures InSearch(w, After(w, Retries(t, n + 1)), t, n + 1)
  {
    hide After, Step, InSearch;
    assert Retries(t, n + 1) == Retries(t, n) + [NoMatchFor(t, n, 0)] + [Retry(t)];
    AfterSnoc(w, Retries(t, n), NoMatchFor(t, n, 0));
    AfterSnoc(w, Retries(t, n) + [NoMatchFor(t, n, 0)], Retry(t));
    OneRetry(w, After(w, Retries(t, n)), t, n);
  }

  lemma OneRetry(w: World, s: World, t: TaskId, n: nat)
    requires InSearch(w, s, t, n) && n < Policy.AUTO_DISPATCH_MAX
    ensures InSearch(w, Step(Step(s, NoMatchFor(t, n, 0)), Retry(t)), t, n + 1)
  {
    hide MaxSequence, Policy.NextRetryDelay;
  }

  function UpToAcceptance(t: TaskId, n: nat, batch: seq<ProviderId>, flushed: bool): seq<Event>
    requires |batch| > 0
  {
    Retries(t, n) + [PingNext(n, batch, 1, 0, 540)] + [Responds(t, batch[0], Accepts, 1, flushed)]
  }

  /** A batch of available providers is pinged and its first one accepts. */
  lemma FirstAccepts(w: World, t: TaskId, n: nat, batch: seq<ProviderId>, flushed: bool)
    requires Opening(w) && t in w.tasks && Dispatchable(w.tasks[t].status) && n <= Policy.AUTO_DISPATCH_MAX
    requires |batch| > 0 && !Duplicates(batch) && forall p | p in batch :: p in w.duty && w.duty[p] == OnlineAvailable
    ensures var s := After(w, UpToAcceptance(t, n, batch, flushed));
      && IsAssigned(s, t) && s.tasks[t].autoCount == n
      && |s.attempts| == |batch| && |s.sessions| == n + 1
      && (!TailCommits(w, t, flushed) ==>
            && s.sessions[n].task == t && s.sessions[n].status == Running
            && forall k | 0 < k < |batch| :: s.attempts[k].task == t && s.attempts[k].status == Pending)
  {
    RetriesLead(w, t, n);
    var s := After(w, Retries(t, n));
    AfterSnoc(w, Retries(t, n), PingNext(n, batch, 1, 0, 540));
    AfterSnoc(w, Retries(t, n) + [PingNext(n, batch, 1, 0, 540)], Responds(t, batch[0], Accepts, 1, flushed));
    hide After, Step, Retries;
    AllPinged(w, s, t, n, batch);
    FirstTakes(w, Step(s, PingNext(n, batch, 1, 0, 540)), t, n, batch, flushed);
  }

  /** The whole batch has open pings. */
  predicate Pinged(w: World, s: World, t: TaskId, n: nat, batch: seq<ProviderId>) {
    && t in s.tasks && s.tasks[t].status == Searching && s.tasks[t].autoCount == n
    && |s.sessions| == n + 1 && s.sessions[n].task == t && s.sessions[n].status == Running
    && s.attempts == NewAttempts(batch, n, t, 1, 540)
    && t in w.tasks && s.tasks[t].customer == w.tasks[t].customer
  }

  lemma AllPinged(w: World, s: World, t: TaskId, n: nat, batch: seq<ProviderId>)
    requires InSearch(w, s, t, n) && |batch| > 0 && !Duplicates(batch)
    requires forall p | p in batch :: p in w.duty && w.duty[p] == OnlineAvailable
    ensures Pinged(w, Step(s, PingNext(n, batch, 1, 0, 540)), t, n, batch)
  {
    AllWin(batch, s.duty);
    hide Winners, TakeDuty;
  }

  lemma FirstTakes(w: World, s: World, t: TaskId, n: nat, batch: seq<ProviderId>, flushed: bool)
    requires Pinged(w, s, t, n, batch) && |batch| > 0 && !Duplicates(batch)
    ensures var s' := Step(s, Responds(t, batch[0], Accepts, 1, flushed));
      && IsAssigned(s', t) && s'.tasks[t].autoCount == n
      && |s'.attempts| == |batch| && |s'.sessions| == n + 1
      && (!TailCommits(w, t, flushed) ==>
            && s'.sessions[n].task == t && s'.sessions[n].status == Running
            && forall k | 0 < k < |batch| :: s'.attempts[k].task == t && s'.attempts[k].status == Pending)
  {
    FirstIsFound(s.attempts, t, batch);
    assert !AcceptedByAnother(s.attempts, t, batch[0]);
    hide Pings, AcceptedByAnother, Duplicates;
  }

  lemma {:induction false} AllWin(batch: seq<ProviderId>, duty: map<ProviderId, Duty>)
    requires forall p | p in batch :: p in duty && duty[p] == OnlineAvailable
    ensures Winners(batch, duty) == batch
  {
    if |batch| > 0 {
      AllWin(batch[..|batch| - 1], duty);
      assert batch == batch[..|batch| - 1] + [batch[|batch| - 1]];
    }
  }

  lemma {:induction false} FirstIsFound(attempts: seq<Attempt>, t: TaskId, batch: seq<ProviderId>)
    requires |attempts| == |batch| > 0 && !Duplicates(batch)
    requires forall k | 0 <= k < |batch| ::
      attempts[k].task == t && attempts[k].provider == batch[k] && attempts[k].status == Pending
    ensures Pings(attempts, t, batch[0]) == 1 && LastPing(attempts, t, batch[0]) == 0
  {
    var n := |batch| - 1;
    if n > 0 {
      assert forall i, j | 0 <= i < j < n :: batch[i] != batch[j];
      FirstIsFound(attempts[..n], t, batch[..n]);
      assert batch[0] != batch[n];
    } else {
      assert attempts[..0] == [];
    }
  }

  /** From any opening world: five retries in vain, an acceptance, and a late report takes the task away again. */
  lemma LateReportUnassigns(w: World, t: TaskId, p: ProviderId, session: SessionId, flushed: bool, now: int)
    requires Opening(w) && t in w.tasks && Dispatchable(w.tasks[t].status) && p in w.duty && w.duty[p] == OnlineAvailable
    ensures var run := UpToAcceptance(t, Policy.AUTO_DISPATCH_MAX, [p], flushed);
      && IsAssigned(After(w, run), t)
      && !IsAssigned(After(w, run + [NoMatchFor(t, session, now)]), t)
  {
    var run := UpToAcceptance(t, Policy.AUTO_DISPATCH_MAX, [p], flushed);
    FirstAccepts(w, t, Policy.AUTO_DISPATCH_MAX, [p], flushed);
    AfterSnoc(w, run, NoMatchFor(t, session, now));
    NoMatchEffect(After(w, run), t, session, now, t);
    hide After, HandleNoMatch;
  }

  /** A task without a customer, and no log entries to flush: its session runs on and the other ping stays open. */
  lemma LeftOpen(w: World, t: TaskId, p: ProviderId, q: ProviderId)
    requires Opening(w) && t in w.tasks && Dispatchable(w.tasks[t].status) && w.tasks[t].customer == None
    requires p != q && {p, q} <= w.duty.Keys && w.duty[p] == OnlineAvailable && w.duty[q] == OnlineAvailable
    ensures var s := After(w, UpToAcceptance(t, 0, [p, q], false));
      && IsAssigned(s, t) && !Quiet(s, t) && |s.sessions| == 1
      && IsPending(s, 1) && s.attempts[1].task == t && s.sessions[0].task == t && s.sessions[0].status == Running
  {
    assert !Duplicates([p, q]);
    FirstAccepts(w, t, 0, [p, q], false);
    hide After;
  }

  // ── Redispatch ──────────────────────────────────────────────────────────

  /** Again and again the same provider is pinged and accepts, and an administrator redispatches the task. */
  function Rounds(t: TaskId, p: ProviderId, k: nat): seq<Event> {
    if k == 0 then [Start(t)]
    else Rounds(t, p, k - 1) + [PingNext(k - 1, [p], 1, 0, 540)] + [Responds(t, p, Accepts, 1, true)] + [RedispatchBy(t, "", true)]
  }

  /** The task searches in its newest session; its k attempts are acceptances of p, who is available again. */
  predicate InRound(w: World, s: World, t: TaskId, p: ProviderId, k: nat) {
    && t in s.tasks && s.tasks[t].status == Searching
    && |s.sessions| == k + 1 && s.sessions[k].task == t && s.sessions[k].status == Running
    && |s.attempts| == k
    && (forall i | 0 <= i < k :: s.attempts[i].task == t && s.attempts[i].provider == p && s.attempts[i].status == Accepted)
    && s.duty.Keys == w.duty.Keys && (forall q | q in w.duty :: s.duty[q] == w.duty[q])
  }

  lemma OneMorePing(attempts: seq<Attempt>, a: Attempt)
    requires a.status == Pending && forall i | 0 <= i < |attempts| :: attempts[i].status != Pending
    ensures Pings(attempts + [a], a.task, a.provider) == 1 && LastPing(attempts + [a], a.task, a.provider) == |attempts|
  {
    assert (attempts + [a])[..|attempts|] == attempts;
    NoPingIsZero(attempts, a.task, a.provider);
  }

  lemma OnePing(s: World, session: SessionId, q: ProviderId)
    requires session < |s.sessions| && s.sessions[session].status == Running
    requires s.sessions[session].task in s.tasks && s.tasks[s.sessions[session].task].status == Searching
    requires q in s.duty && s.duty[q] == OnlineAvailable
    requires forall i | 0 <= i < |s.attempts| :: s.attempts[i].status != Pending
    ensures var s' := Step(s, PingNext(session, [q], 1, 0, 540)); var t := s.sessions[session].task;
      && s' == s.(attempts := s.attempts + [Attempt(session, t, q, 1, 540, Pending)], duty := s.duty[q := OnDispatch])
      && Pings(s'.attempts, t, q) == 1 && LastPing(s'.attempts, t, q) == |s.attempts|
  {
    hide Pings, LastPing, Winners;
    AllWin([q], s.duty);
    var t := s.sessions[session].task;
    OneMorePing(s.attempts, Attempt(session, t, q, 1, 540, Pending));
    assert NewAttempts([q], session, t, 1, 540) == [Attempt(session, t, q, 1, 540, Pending)];
    assert TakeDuty([q], s.duty) == s.duty[q := OnDispatch];
  }

  lemma FirstRound(w: World, t: TaskId, p: ProviderId)
    requires Opening(w) && t in w.tasks && Dispatchable(w.tasks[t].status)
    ensures InRound(w, After(w, Rounds(t, p, 0)), t, p, 0)
  {
    FirstSearch(w, t);
    assert Rounds(t, p, 0) == Retries(t, 0);
    hide After, Retries, Rounds;
  }

  /** The one open ping is accepted. */
  lemma PingAccepted(s: World, t: TaskId, p: ProviderId, k: nat)
    requires t in s.tasks && s.tasks[t].status == Searching && p in s.duty && |s.attempts| == k + 1
    requires Pings(s.attempts, t, p) == 1 && LastPing(s.attempts, t, p) == k
    requires forall i | 0 <= i < k :: s.attempts[i].task == t && s.attempts[i].provider == p && s.attempts[i].status == Accepted
    ensures var s' := Step(s, Responds(t, p, Accepts, 1, true));
      && IsAssigned(s', t) && t in s'.assignments && s'.assignments[t].provider == p && s'.duty == s.duty[p := OnTask]
      && |s'.sessions| == |s.sessions| && |s'.attempts| == k + 1
      && forall i | 0 <= i <= k :: s'.attempts[i].task == t && s'.attempts[i].provider == p && s'.attempts[i].status == Accepted
  {
    assert !AcceptedByAnother(s.attempts, t, p);
    hide AcceptedByAnother, Pings;
    assert Step(s, Responds(t, p, Accepts, 1, true)) == Accept(s, k, true);
    assert forall i | 0 <= i < k :: s.attempts[i].status == Accepted;
    hide CloseSessions;
  }

  lemma RoundAccepts(w: World, s: World, t: TaskId, p: ProviderId, k: nat)
    requires InRound(w, s, t, p, k) && p in w.duty && w.duty[p] == OnlineAvailable
    ensures InRound(w, Step(Step(Step(s, PingNext(k, [p], 1, 0, 540)), Responds(t, p, Accepts, 1, true)), RedispatchBy(t, "", true)), t, p, k + 1)
  {
    OnePing(s, k, p);
    var s1 := Step(s, PingNext(k, [p], 1, 0, 540));
    assert forall i | 0 <= i < k :: s1.attempts[i] == s.attempts[i];
    PingAccepted(s1, t, p, k);
    hide Pings, Winners, Respond, MaxSequence, TakeDuty;
  }

  lemma {:induction false} RoundsLead(w: World, t: TaskId, p: ProviderId, k: nat)
    requires Opening(w) && t in w.tasks && Dispatchable(w.tasks[t].status) && p in w.duty && w.duty[p] == OnlineAvailable
    ensures InRound(w, After(w, Rounds(t, p, k)), t, p, k)
  {
    hide After, InRound, Rounds, Opening, Dispatchable;
    if k == 0 {
      FirstRound(w, t, p);
    } else {
      RoundsLead(w, t, p, k - 1);
      NextRound(w, t, p, k - 1);
    }
  }

  lemma NextRound(w: World, t: TaskId, p: ProviderId, k: nat)
    requires InRound(w, After(w, Rounds(t, p, k)), t, p, k) && p in w.duty && w.duty[p] == OnlineAvailable
    ensures InRound(w, After(w, Rounds(t, p, k + 1)), t, p, k + 1)
  {
    hide After, Step, InRound;
    var run := Rounds(t, p, k);
    assert Rounds(t, p, k + 1) == run + [PingNext(k, [p], 1, 0, 540)] + [Responds(t, p, Accepts, 1, true)] + [RedispatchBy(t, "", true)];
    hide Rounds;
    AfterSnoc(w, run, PingNext(k, [p], 1, 0, 540));
    AfterSnoc(w, run + [PingNext(k, [p], 1, 0, 540)], Responds(t, p, Accepts, 1, true));
    AfterSnoc(w, run + [PingNext(k, [p], 1, 0, 540)] + [Responds(t, p, Accepts, 1, true)], RedispatchBy(t, "", true));
    RoundAccepts(w, After(w, run), t, p, k);
  }

  lemma {:induction false} AllAccepted(attempts: seq<Attempt>, t: TaskId)
    requires forall i | 0 <= i < |attempts| :: attempts[i].task == t && attempts[i].status == Accepted
    ensures Acceptances(attempts, t) == |attempts|
  {
    if |attempts| > 0 {
      AllAccepted(attempts[..|attempts| - 1], t);
    }
  }

  /**
   After k redispatches of a task that p had accepted, another provider is pinged and accepts: he
   does not get the task, and from the second redispatch on his acceptance raises an error.
   */
  lemma RedispatchInVain(w: World, t: TaskId, p: ProviderId, q: ProviderId, k: nat)
    requires Opening(w) && t in w.tasks && Dispatchable(w.tasks[t].status) && p != q && k > 0
    requires p in w.duty && w.duty[p] == OnlineAvailable && q in w.duty && w.duty[q] == OnlineAvailable
    ensures var run := Rounds(t, p, k) + [PingNext(k, [q], 1, 0, 540)];
      && Pings(After(w, run).attempts, t, q) == 1 && !IsAssigned(After(w, run), t)
      && !IsAssigned(After(w, run + [Responds(t, q, Accepts, 1, true)]), t)
      && (RespondRaises(After(w, run), t, q, Accepts) <==> k > 1)
  {
    var run := Rounds(t, p, k) + [PingNext(k, [q], 1, 0, 540)];
    RoundsLead(w, t, p, k);
    AfterSnoc(w, Rounds(t, p, k), PingNext(k, [q], 1, 0, 540));
    AfterSnoc(w, run, Responds(t, q, Accepts, 1, true));
    var before, s := After(w, Rounds(t, p, k)), After(w, run);
    hide After, Rounds;
    OnePing(before, k, q);
    assert s.attempts[0] == before.attempts[0];
    assert HasAccepted(s, t, p);
    AllAccepted(before.attempts, t);
    assert s.attempts[..k] == before.attempts;
    assert Acceptances(s.attempts, t) == k;
    OnlyFormerWinner(w, run, t, p, q, 1, true);
    hide Step, RespondRaises, Pings;
  }
}
