/**
 Whether every attempt, and every call to the provider, leaves an audit record: each is logged,
 under way, or lost with its worker.
 */
module TransferAudit {
  import opened Common
  import opened TransferRow
  import opened TransferProtocol
  import opened TransferSafety
  import opened TransferProgress
  import opened TransferLog

  /** The records of a transfer. */
  function Logged(attempts: seq<Attempt>, id: TransferId): nat {
    if |attempts| == 0 then 0 else
      Logged(attempts[..|attempts| - 1], id) + (if attempts[|attempts| - 1].transferId == id then 1 else 0)
  }

  /** The workers that have claimed a transfer and not yet recorded the attempt. */
  function Crew(workers: map<nat, Worker>, id: TransferId): set<nat> {
    set w | w in workers && workers[w].copy.id == id
  }

  predicate Loses(s: State, e: Event, id: TransferId) {
    e.Die? && Enabled(s, e) && s.workers[e.worker].copy.id == id
  }

  /** How many workers of the transfer died in the run. */
  function Deaths(run: seq<Event>, id: TransferId): nat {
    if |run| == 0 then 0 else
      Deaths(run[..|run| - 1], id) + (if Loses(After(run[..|run| - 1]), run[|run| - 1], id) then 1 else 0)
  }

  lemma LoggedOne(attempts: seq<Attempt>, a: Attempt, id: TransferId)
    ensures Logged(attempts + [a], id) == Logged(attempts, id) + (if a.transferId == id then 1 else 0)
  {
    assert (attempts + [a])[..|attempts|] == attempts;
  }

  lemma CrewWithout(workers: map<nat, Worker>, w: nat, id: TransferId)
    requires w in workers
    ensures |Crew(Without(workers, w), id)| + (if workers[w].copy.id == id then 1 else 0) == |Crew(workers, id)|
  {
    assert Crew(Without(workers, w), id) == Crew(workers, id) - {w};
    assert w in Crew(workers, id) <==> workers[w].copy.id == id;
    hide Crew, Without;
  }

  lemma CrewWith(workers: map<nat, Worker>, w: nat, worker: Worker, id: TransferId)
    requires w !in workers
    ensures |Crew(workers[w := worker], id)| == |Crew(workers, id)| + (if worker.copy.id == id then 1 else 0)
  {
    if worker.copy.id == id {
      assert Crew(workers[w := worker], id) == Crew(workers, id) + {w};
    } else {
      assert Crew(workers[w := worker], id) == Crew(workers, id);
    }
  }

  lemma StartStep(s: State, e: Event, id: TransferId)
    requires RowsOk(s) && e.Start? && Enabled(s, e)
    ensures |Crew(Do(s, e).workers, id)| == |Crew(s.workers, id)| + (if e.id == id then 1 else 0) && Do(s, e).attempts == s.attempts
  {
    assert s.transfers[e.id].id == e.id;
    CrewWith(s.workers, e.worker, Do(s, e).workers[e.worker], id);
    hide Crew, RowsOk;
  }

  lemma RecordOrDieStep(s: State, e: Event, id: TransferId)
    requires (e.Record? || e.Die?) && Enabled(s, e)
    ensures var s' := Do(s, e); var mine := if s.workers[e.worker].copy.id == id then 1 else 0;
      && |Crew(s'.workers, id)| + mine == |Crew(s.workers, id)|
      && Logged(s'.attempts, id) == Logged(s.attempts, id) + (if e.Record? then mine else 0)
  {
    CrewWithout(s.workers, e.worker, id);
    if e.Record? {
      var copy := s.workers[e.worker].copy;
      LoggedOne(s.attempts, Attempt(copy.id, copy.attemptCount, s.workers[e.worker].phase.reply), id);
    }
    hide Crew, Logged;
  }

  lemma NobodyLeaves(s: State, e: Event)
    requires !e.Start? && !e.Record? && !e.Die?
    ensures Step(s, e).workers.Keys == s.workers.Keys
  {
    hide KeyOf, Paid, Held, MarkedRow, ReconciledRow, Complete, Fail, NewTransfer, AfterCall;
  }

  lemma OtherStep(s: State, e: Event, id: TransferId)
    requires Inv(s) && !e.Start? && !e.Record? && !e.Die?
    ensures Crew(Step(s, e).workers, id) == Crew(s.workers, id) && Step(s, e).attempts == s.attempts
  {
    NobodyLeaves(s, e);
    if e.Mark? {
      MarkKeepsClaims(s, e);
    } else {
      OthersKeepClaims(s, e);
    }
    hide Inv, Step;
  }

  /** Every attempt is accounted for: it is in the log, in the hands of a worker, or was lost with one. */
  lemma {:induction false} AttemptsAccountedFor(run: seq<Event>, id: TransferId)
    ensures AttemptCount(After(run), id) == Logged(After(run).attempts, id) + |Crew(After(run).workers, id)| + Deaths(run, id)
  {
    if |run| > 0 {
      var s, e := After(run[..|run| - 1]), run[|run| - 1];
      AttemptsAccountedFor(run[..|run| - 1], id);
      RunKeeps(run[..|run| - 1]);
      AfterLast(run);
      AttemptsGrow(s, e, id);
      if e.Start? || e.Record? || e.Die? {
        if Enabled(s, e) {
          if e.Start? {
            StartStep(s, e, id);
          } else {
            RecordOrDieStep(s, e, id);
          }
        }
      } else {
        OtherStep(s, e, id);
      }
      hide Inv, After, Do, Crew, Logged, AttemptCount, Enabled;
    }
  }

  // ── Calls ───────────────────────────────────────────────────────────────

  /** An attempt without an account ends before the provider is called. */
  predicate CalledFor(a: Attempt, id: TransferId) {
    a.transferId == id && !a.reply.NoAccount?
  }

  function LoggedCalls(attempts: seq<Attempt>, id: TransferId): nat {
    if |attempts| == 0 then 0 else
      LoggedCalls(attempts[..|attempts| - 1], id) + (if CalledFor(attempts[|attempts| - 1], id) then 1 else 0)
  }

  /** The worker has called the provider for the transfer and not yet recorded it. */
  predicate HasCalled(w: Worker, id: TransferId) {
    w.copy.id == id && !w.phase.Claimed? && !w.phase.reply.NoAccount?
  }

  function Callers(workers: map<nat, Worker>, id: TransferId): set<nat> {
    set w | w in workers && HasCalled(workers[w], id)
  }

  predicate LosesCall(s: State, e: Event, id: TransferId) {
    e.Die? && Enabled(s, e) && HasCalled(s.workers[e.worker], id)
  }

  /** How many workers died in the run between their call and its record. */
  function LostCalls(run: seq<Event>, id: TransferId): nat {
    if |run| == 0 then 0 else
      LostCalls(run[..|run| - 1], id) + (if LosesCall(After(run[..|run| - 1]), run[|run| - 1], id) then 1 else 0)
  }

  lemma CallerJoins(s: State, e: Event, id: TransferId)
    requires e.CallProvider? && Enabled(s, e)
    ensures var mine := if CallsFor(s, e, id) then 1 else 0;
      && |Callers(Do(s, e).workers, id)| == |Callers(s.workers, id)| + mine && Do(s, e).attempts == s.attempts
  {
    var worker := s.workers[e.worker].(phase := Replied(e.reply));
    assert Do(s, e).workers == s.workers[e.worker := worker] && Do(s, e).attempts == s.attempts;
    assert HasCalled(worker, id) <==> CallsFor(s, e, id);
    assert !HasCalled(s.workers[e.worker], id);
    CallersWith(s.workers, e.worker, worker, id);
    hide Do, HasCalled, CallsFor;
  }

  lemma CallersWith(workers: map<nat, Worker>, w: nat, worker: Worker, id: TransferId)
    requires w in workers && !HasCalled(workers[w], id)
    ensures |Callers(workers[w := worker], id)| == |Callers(workers, id)| + (if HasCalled(worker, id) then 1 else 0)
  {
    hide HasCalled;
    if HasCalled(worker, id) {
      assert Callers(workers[w := worker], id) == Callers(workers, id) + {w};
    } else {
      assert Callers(workers[w := worker], id) == Callers(workers, id);
    }
  }

  lemma CallersWithout(workers: map<nat, Worker>, w: nat, id: TransferId)
    requires w in workers
    ensures |Callers(Without(workers, w), id)| + (if HasCalled(workers[w], id) then 1 else 0) == |Callers(workers, id)|
  {
    assert Callers(Without(workers, w), id) == Callers(workers, id) - {w};
    assert w in Callers(workers, id) <==> HasCalled(workers[w], id);
    hide Callers, Without, HasCalled;
  }

  lemma CallerLeaves(s: State, e: Event, id: TransferId)
    requires (e.Record? || e.Die?) && Enabled(s, e)
    ensures var s' := Do(s, e); var mine := if HasCalled(s.workers[e.worker], id) then 1 else 0;
      && |Callers(s'.workers, id)| + mine == |Callers(s.workers, id)|
      && LoggedCalls(s'.attempts, id) == LoggedCalls(s.attempts, id) + (if e.Record? then mine else 0)
  {
    CallersWithout(s.workers, e.worker, id);
    if e.Record? {
      var copy := s.workers[e.worker].copy;
      var a := Attempt(copy.id, copy.attemptCount, s.workers[e.worker].phase.reply);
      assert (s.attempts + [a])[..|s.attempts|] == s.attempts;
      assert CalledFor(a, id) == HasCalled(s.workers[e.worker], id);
    }
    hide Callers, HasCalled, CalledFor;
  }

  lemma MarkKeepsCallers(s: State, e: Event, id: TransferId)
    requires Inv(s) && e.Mark?
    ensures Callers(Step(s, e).workers, id) == Callers(s.workers, id) && Step(s, e).attempts == s.attempts
  {
    hide RowsOk, WorkersOk, OrderOk, PaidOk, LogOk, NumbersDistinct, Do, MarkedRow, IsJitter;
    if Enabled(s, e) {
      MarkMoves(s, e.worker, e.jitter);
      hide Step;
      var s' := Step(s, e);
      assert HasCalled(s'.workers[e.worker], id) == HasCalled(s.workers[e.worker], id);
      assert forall w | w in s.workers :: w in s'.workers && HasCalled(s'.workers[w], id) == HasCalled(s.workers[w], id);
      hide HasCalled;
    }
  }

  lemma OthersKeepCallers(s: State, e: Event, id: TransferId)
    requires !e.CallProvider? && !e.Record? && !e.Die? && !e.Mark?
    ensures Callers(Step(s, e).workers, id) == Callers(s.workers, id) && Step(s, e).attempts == s.attempts
  {
    hide KeyOf, Paid, Held, ReconciledRow, Complete, Fail, NewTransfer, AfterCall, Claim, HasPayout;
  }

  lemma CallStep(s: State, e: Event, id: TransferId)
    requires Inv(s)
    ensures var s' := Step(s, e);
      LoggedCalls(s'.attempts, id) + |Callers(s'.workers, id)| + (if LosesCall(s, e, id) then 1 else 0)
      == LoggedCalls(s.attempts, id) + |Callers(s.workers, id)| + (if CallsFor(s, e, id) then 1 else 0)
  {
    hide Inv, Callers, LoggedCalls, HasCalled, Do, Enabled;
    if e.CallProvider? || e.Record? || e.Die? {
      if Enabled(s, e) {
        if e.CallProvider? {
          CallerJoins(s, e, id);
        } else {
          CallerLeaves(s, e, id);
        }
      }
    } else if e.Mark? {
      MarkKeepsCallers(s, e, id);
    } else {
      OthersKeepCallers(s, e, id);
    }
  }

  /** Every call is accounted for: it is in the log, in the hands of its worker, or was lost with it. */
  lemma {:induction false} CallsAccountedFor(run: seq<Event>, id: TransferId)
    ensures Calls(run, id) == LoggedCalls(After(run).attempts, id) + |Callers(After(run).workers, id)| + LostCalls(run, id)
  {
    if |run| > 0 {
      CallsAccountedFor(run[..|run| - 1], id);
      RunKeeps(run[..|run| - 1]);
      AfterLast(run);
      CallStep(After(run[..|run| - 1]), run[|run| - 1], id);
      hide Inv, After, Step, Callers, LoggedCalls, LosesCall, CallsFor;
    }
  }

  /**
   Once nobody owes the record of a call for the transfer, every call is in the log exactly when no
   worker of the transfer died between its call and its record.
   */
  lemma EveryCallIsLogged(run: seq<Event>, id: TransferId)
    requires Callers(After(run).workers, id) == {}
    ensures LoggedCalls(After(run).attempts, id) == Calls(run, id) <==> LostCalls(run, id) == 0
  {
    CallsAccountedFor(run, id);
  }

  const CALLED: seq<Event> := [Create("t", "p", "k", "u", 1), Event.Start(1, "t"), CallProvider(1, true, Succeeded("x"))]

  /** A call that paid, and no record of it: the worker died in between. */
  lemma CallWithoutRecord()
    ensures var run := CALLED + [Die(1)];
      Calls(run, "t") == 1 && |After(run).paid| == 1 && After(run).attempts == []
  {
    var s1 := Step(START, CALLED[0]);
    var s2 := Step(s1, CALLED[1]);
    var s3 := Step(s2, CALLED[2]);
    AfterSnoc([], CALLED[0]);
    assert [] + [CALLED[0]] == CALLED[..1];
    AfterSnoc(CALLED[..1], CALLED[1]);
    assert CALLED[..1] + [CALLED[1]] == CALLED[..2];
    AfterSnoc(CALLED[..2], CALLED[2]);
    assert CALLED[..2] + [CALLED[2]] == CALLED[..3] == CALLED;
    AfterSnoc(CALLED, Die(1));
    assert s2.workers.Keys == {1} && s2.workers[1].phase.Claimed? && s2.paid == [];
    assert !Paid([], KeyOf("t"));
    assert |s3.paid| == 1 && s3.attempts == [] && 1 in s3.workers;
    CallCounted(s2);
    hide After, Step, KeyOf;
  }

  lemma CallCounted(s: State)
    requires After(CALLED[..2]) == s && 1 in s.workers && s.workers[1].phase.Claimed? && s.workers[1].copy.id == "t"
    ensures Calls(CALLED + [Die(1)], "t") == 1
  {
    var run := CALLED + [Die(1)];
    assert run[..3] == CALLED && CALLED[..3][..2] == CALLED[..2] && CALLED[..2][..1] == CALLED[..1] && CALLED[..1][..0] == [];
    assert Calls(CALLED[..1], "t") == 0;
    assert Calls(CALLED[..2], "t") == 0;
    assert CallsFor(s, CALLED[2], "t");
    assert CALLED[..3] == CALLED;
    assert Calls(CALLED, "t") == 1;
    hide After, Enabled;
  }
}
