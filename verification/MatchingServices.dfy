/** The matching engine as the code runs it: one step of claiming a session, ranking and queueing. */
module MatchingServices {
  import opened Common
  import opened DispatchStore
  import opened DispatchServices
  import opened Matching
  import Policy = DispatchPolicy

  method ScoreCandidates(candidates: seq<Candidate>, radius: real) returns (scored: seq<Scored>)
    ensures scored == Ranking(Rated(candidates, radius))
    ensures Descending(scored) && StablyPermuted(Rated(candidates, radius), scored)
  {
    scored := [];
    var i := 0;
    while i < |candidates|
      invariant 0 <= i <= |candidates|
      invariant scored == Rated(candidates[..i], radius)
    {
      assert candidates[..i + 1][..i] == candidates[..i];
      if candidates[i].provider != "" {
        scored := scored + [Rate(candidates[i], radius)];
      }
      i := i + 1;
    }
    assert candidates[..i] == candidates;
    RankingSorts(scored);
    scored := Ranking(scored);
  }

  /** One job a batch; the numbers of a batch start after those of the batches before it. */
  method EnqueueBatches(ranked: seq<Scored>, size: nat, duration: int) returns (jobs: seq<BatchJob>)
    requires size >= 1
    ensures Enqueued(Ids(ranked), size, duration, jobs)
  {
    var ids := Ids(ranked);
    var batches := Slices(ids, size);
    jobs := [];
    var seqStart := 1;
    var index := 0;
    while index < |batches|
      invariant 0 <= index <= |batches| && |jobs| == index
      invariant seqStart == 1 + Min(Offset(index, size), |ids|)
      invariant forall k: nat | k < |jobs| :: Offset(k, size) < |ids| && jobs[k] == BatchJob(
        ids[Offset(k, size)..Min(Offset(k, size) + size, |ids|)], k, k == |batches| - 1, 1 + Offset(k, size), Delay(k, duration))
    {
      SliceAt(ids, size, index);
      jobs := jobs + [BatchJob(batches[index], index, index == |batches| - 1, seqStart, index * duration)];
      seqStart := seqStart + |batches[index]|;
      NextOffset(index, size);
      index := index + 1;
    }
    SliceAt(ids, size, |batches|);
  }

  datatype Reason = SessionNotFound | SessionNotActive(status: SessionStatus) | LockingConflict | TaskNotFound | NoCandidates

  datatype MatchingResult = Matched(candidates: nat) | NotMatched(reason: Reason)

  function Radius(searchRadius: Option<real>): real {
    Known(searchRadius, 10.0)
  }

  /**
   One engine with its database session. `pending` tells that the session holds an uncommitted
   update of the version; the tables of db are what is committed.
   */
  class MatchingEngine {
    const db: Database
    const pinger: CandidatePinger
    const sessionId: SessionId
    var pending: bool

    constructor (db: Database, pinger: CandidatePinger, sessionId: SessionId)
      requires pinger.db == db
      ensures this.db == db && this.pinger == pinger && this.sessionId == sessionId && !pending
    {
      this.db, this.pinger, this.sessionId, pending := db, pinger, sessionId, false;
    }

    /** UPDATE ... WHERE lock_version is the one that was read. */
    method TakeVersion(expected: nat) returns (taken: bool)
      requires !pending
      modifies this`pending
      ensures taken <==> sessionId < |db.sessions| && db.sessions[sessionId].lockVersion == expected
      ensures pending == taken
    {
      taken := sessionId < |db.sessions| && db.sessions[sessionId].lockVersion == expected;
      pending := taken;
    }

    method Commit()
      requires pending ==> sessionId < |db.sessions|
      modifies this`pending, db`sessions
      ensures !pending && db.Snapshot() == if old(pending) then Bump(old(db.Snapshot()), sessionId) else old(db.Snapshot())
    {
      if pending {
        var row := db.sessions[sessionId];
        db.sessions := db.sessions[sessionId := row.(lockVersion := row.lockVersion + 1)];
      }
      pending := false;
    }

    /**
     One run, not interrupted. The candidates are what the search finds after stale pings were
     recovered; the radius and the batch size are those of the session row.
     */
    method Run(fetched: seq<Candidate>, searchRadius: Option<real>, batchSize: Option<int>, duration: int, now: int)
      returns (result: MatchingResult, jobs: seq<BatchJob>)
      requires pinger.db == db && !pending
      modifies this`pending, db
      ensures db.Snapshot() == RunCommits(old(db.Snapshot()), sessionId, now)
      ensures pending == BumpStaysOpen(old(db.Snapshot()), sessionId, now)
      ensures result == Verdict(old(db.Snapshot()), sessionId, fetched, searchRadius)
      ensures Enqueued(
        if result.Matched? then Ids(Ranking(Rated(fetched, Radius(searchRadius)))) else [],
        Matching.BatchSize(batchSize), duration, jobs)
    {
      jobs := [];
      if sessionId >= |db.sessions| {
        return NotMatched(SessionNotFound), jobs;
      }
      var row := db.sessions[sessionId];
      if row.status != Running {
        return NotMatched(SessionNotActive(row.status)), jobs;
      }
      var taken := TakeVersion(row.lockVersion);
      if !taken {
        return NotMatched(LockingConflict), jobs;
      }
      if row.task !in db.tasks {
        return NotMatched(Reason.TaskNotFound), jobs;
      }
      if AnyStale(db.attempts, row.task, now) {
        Commit();
        pinger.RecoverStaleAttempts(row.task, now);
      }
      var ranked := ScoreCandidates(fetched, Radius(searchRadius));
      if |ranked| == 0 {
        return NotMatched(NoCandidates), jobs;
      }
      jobs := EnqueueBatches(ranked, Matching.BatchSize(batchSize), duration);
      result := MatchingResult.Matched(|ranked|);
    }
  }

  /** The Celery job: without a match the no-match report commits what is open, otherwise closing the session rolls it back. */
  method ExecuteMatchingEngine(engine: MatchingEngine, service: DispatchService, fetched: seq<Candidate>,
                               searchRadius: Option<real>, batchSize: Option<int>, duration: int, now: int)
    returns (matched: bool, jobs: seq<BatchJob>)
    requires engine.pinger.db == engine.db == service.db && !engine.pending
    modifies engine`pending, engine.db
    ensures engine.db.Snapshot() ==
      RunJob(old(engine.db.Snapshot()), engine.sessionId, Finds(fetched, searchRadius), now)
    ensures matched == (Searches(old(engine.db.Snapshot()), engine.sessionId) && Finds(fetched, searchRadius))
    ensures !engine.pending
  {
    hide RunCommits, DispatchStore.HandleNoMatch, BumpStaysOpen;
    ghost var before := engine.db.Snapshot();
    RunKeepsRows(before, engine.sessionId, now);
    var result;
    result, jobs := engine.Run(fetched, searchRadius, batchSize, duration, now);
    matched := result.Matched?;
    if matched {
      engine.pending := false;
    } else if engine.sessionId < |engine.db.sessions| {
      var task := engine.db.sessions[engine.sessionId].task;
      engine.Commit();
      service.HandleNoMatch(task, engine.sessionId, now);
    } else {
      engine.pending := false;
    }
  }

  lemma RunKeepsRows(w: World, session: SessionId, now: int)
    ensures |RunCommits(w, session, now).sessions| == |w.sessions|
    ensures session < |w.sessions| ==> RunCommits(w, session, now).sessions[session].task == w.sessions[session].task
    ensures BumpStaysOpen(w, session, now) ==> session < |w.sessions|
    ensures Searches(w, session) ==> session < |w.sessions|
    ensures session >= |w.sessions| ==> RunCommits(w, session, now) == w
  {
    hide AnyStale, HasStale, ExpireStale;
  }

  predicate Finds(fetched: seq<Candidate>, searchRadius: Option<real>) {
    |Ranking(Rated(fetched, Radius(searchRadius)))| > 0
  }

  /** What one uninterrupted run reports. */
  function Verdict(w: World, session: SessionId, fetched: seq<Candidate>, searchRadius: Option<real>): MatchingResult {
    if session >= |w.sessions| then NotMatched(SessionNotFound)
    else if w.sessions[session].status != Running then NotMatched(SessionNotActive(w.sessions[session].status))
    else if w.sessions[session].task !in w.tasks then NotMatched(Reason.TaskNotFound)
    else if Finds(fetched, searchRadius) then MatchingResult.Matched(|Ranking(Rated(fetched, Radius(searchRadius)))|)
    else NotMatched(NoCandidates)
  }

  /** Every candidate with an id is among the ranked, within the session's radius or one of 10 km, and nobody else is. */
  lemma RankedTells(fetched: seq<Candidate>, searchRadius: Option<real>)
    ensures var ranked, radius := Ranking(Rated(fetched, Radius(searchRadius))), if searchRadius.Some? then searchRadius.value else 10.0;
      && |ranked| == Named(fetched, |fetched|)
      && forall i | 0 <= i < |fetched| && fetched[i].provider != "" :: exists k | 0 <= k < |ranked| :: IsRated(fetched[i], radius, ranked[k])
  {
    var rated := Rated(fetched, Radius(searchRadius));
    RatedInOrder(fetched, Radius(searchRadius));
    RankingSorts(rated);
    hide Ranking, Rated, IsRated;
    assert |Ranking(rated)| == |multiset(Ranking(rated))| == |multiset(rated)| == |rated|;
    forall i | 0 <= i < |fetched| && fetched[i].provider != ""
      ensures exists k | 0 <= k < |Ranking(rated)| :: IsRated(fetched[i], Radius(searchRadius), Ranking(rated)[k])
    {
      var entry := rated[Named(fetched, i)];
      assert entry in multiset(Ranking(rated));
      var k :| 0 <= k < |Ranking(rated)| && Ranking(rated)[k] == entry;
    }
  }

  /** A run matches exactly when its session runs for a task that exists and somebody has an id; otherwise it says what is missing. */
  lemma VerdictTells(w: World, session: SessionId, fetched: seq<Candidate>, searchRadius: Option<real>)
    ensures var verdict := Verdict(w, session, fetched, searchRadius);
      var active := session < |w.sessions| && w.sessions[session].status == Running;
      var named := exists i | 0 <= i < |fetched| :: fetched[i].provider != "";
      && (verdict.Matched? <==> active && w.sessions[session].task in w.tasks && named)
      && (verdict.Matched? ==> verdict.candidates == Named(fetched, |fetched|))
      && (verdict == NotMatched(NoCandidates) <==> active && w.sessions[session].task in w.tasks && !named)
      && (verdict == NotMatched(Reason.TaskNotFound) <==> active && w.sessions[session].task !in w.tasks)
      && (verdict == NotMatched(SessionNotFound) <==> session >= |w.sessions|)
      && (session < |w.sessions| && !active ==> verdict == NotMatched(SessionNotActive(w.sessions[session].status)))
  {
    RankedTells(fetched, searchRadius);
    NamedExists(fetched, |fetched|);
    hide Ranking, Rated, IsRated, Named;
  }

  lemma {:induction false} NamedExists(fetched: seq<Candidate>, n: nat)
    requires n <= |fetched|
    ensures Named(fetched, n) > 0 <==> exists i | 0 <= i < n :: fetched[i].provider != ""
  {
    if n > 0 {
      NamedExists(fetched, n - 1);
    }
  }
}
