/**
 The order of the audit log. A worker numbers its record from its own copy of the row and writes
 it after the mark has released the row, so a later attempt can be logged first.
 */
module TransferLog {
  import opened Common
  import opened TransferRow
  import opened TransferProtocol
  import opened TransferSafety
  import opened TransferProgress

  /** Attempts of each transfer are logged in increasing order of their numbers. */
  predicate Ordered(attempts: seq<Attempt>) {
    forall i, j | 0 <= i < j < |attempts| ::
      attempts[i].transferId == attempts[j].transferId ==> attempts[i].number < attempts[j].number
  }

  /** In every run each attempt is logged at most once, with a number the row has reached. */
  lemma LogNumbersUnique(run: seq<Event>, i: nat, j: nat)
    requires i < |After(run).attempts| && j < |After(run).attempts| && i != j
    ensures var s := After(run); var a := s.attempts[i];
      && a.transferId in s.transfers && 1 <= a.number <= s.transfers[a.transferId].attemptCount
      && (a.transferId == s.attempts[j].transferId ==> a.number != s.attempts[j].number)
  {
    RunKeeps(run);
  }

  // ── Runs whose jobs wait for the record ─────────────────────────────────

  /** Some worker has marked the transfer and still owes its record. */
  predicate OwesRecord(s: State, id: TransferId) {
    exists w | w in s.workers :: s.workers[w].phase.Marked? && s.workers[w].copy.id == id
  }

  /** A job claims a transfer while an earlier worker still owes its record. */
  predicate Hasty(s: State, e: Event) {
    e.Start? && Enabled(s, e) && OwesRecord(s, e.id)
  }

  /** No claim of more is hasty when it follows run. */
  predicate Waits(run: seq<Event>, more: seq<Event>) {
    |more| == 0 ||
    (Waits(run, more[..|more| - 1]) && !Hasty(After(run + more[..|more| - 1]), more[|more| - 1]))
  }

  predicate Patient(run: seq<Event>) {
    Waits([], run)
  }

  lemma WaitsJoin(run: seq<Event>, more: seq<Event>)
    requires Patient(run) && Waits(run, more)
    ensures Patient(run + more)
  {
    if |more| > 0 {
      WaitsJoin(run, more[..|more| - 1]);
      assert (run + more)[..|run + more| - 1] == run + more[..|more| - 1];
      assert [] + (run + more[..|more| - 1]) == run + more[..|more| - 1];
      hide Hasty, After;
    } else {
      assert run + more == run;
    }
  }

  /** One worker per transfer, ahead of everything logged for it. */
  predicate OneAtATime(s: State) {
    && Ordered(s.attempts)
    && (forall v, w | v in s.workers && w in s.workers && v != w :: s.workers[v].copy.id != s.workers[w].copy.id)
    && (forall i, w | 0 <= i < |s.attempts| && w in s.workers ::
          s.attempts[i].transferId == s.workers[w].copy.id ==> s.attempts[i].number < s.workers[w].copy.attemptCount)
  }

  lemma StartIsAlone(s: State, e: Event, w: nat)
    requires Inv(s) && Enabled(s, e) && e.Start? && !OwesRecord(s, e.id) && w in s.workers
    ensures s.workers[w].copy.id != e.id
  {
    assert WorkerOk(s, s.workers[w]);
  }

  lemma OneAtATimeStart(s: State, e: Event)
    requires Inv(s) && OneAtATime(s) && Enabled(s, e) && e.Start? && !OwesRecord(s, e.id)
    ensures OneAtATime(Do(s, e))
  {
    forall w | w in s.workers ensures s.workers[w].copy.id != e.id {
      StartIsAlone(s, e, w);
    }
    assert s.transfers[e.id].id == e.id;
    assert LogOk(s);
    hide Inv, RowOk, KeyOf;
  }

  /** Workers come and go, and finish phases, without changing what they claimed. */
  lemma OneAtATimeKeeps(s: State, s': State)
    requires OneAtATime(s) && s'.attempts == s.attempts
    requires forall w | w in s'.workers ::
      && w in s.workers && s'.workers[w].copy.id == s.workers[w].copy.id
      && s'.workers[w].copy.attemptCount == s.workers[w].copy.attemptCount
    ensures OneAtATime(s')
  {
  }

  lemma OneAtATimeRecord(s: State, e: Event)
    requires OneAtATime(s) && Enabled(s, e) && e.Record?
    ensures OneAtATime(Do(s, e))
  {
  }

  /** Neither the log nor what a worker claimed changes. */
  predicate SameClaims(s: State, s': State) {
    && s'.attempts == s.attempts
    && forall w | w in s'.workers ::
         && w in s.workers && s'.workers[w].copy.id == s.workers[w].copy.id
         && s'.workers[w].copy.attemptCount == s.workers[w].copy.attemptCount
  }

  lemma MarkKeepsClaims(s: State, e: Event)
    requires Inv(s) && e.Mark?
    ensures SameClaims(s, Step(s, e))
  {
    if Enabled(s, e) {
      MarkMoves(s, e.worker, e.jitter);
      hide Inv, Step;
    }
  }

  lemma OthersKeepClaims(s: State, e: Event)
    requires !e.Start? && !e.Record? && !e.Mark?
    ensures SameClaims(s, Step(s, e))
  {
    hide KeyOf, Paid, Held, ReconciledRow, Complete, Fail, NewTransfer, AfterCall;
  }

  lemma OneAtATimeStep(s: State, e: Event)
    requires Inv(s) && OneAtATime(s) && !Hasty(s, e)
    ensures OneAtATime(Step(s, e))
  {
    hide Inv, OneAtATime, Do, Enabled;
    if Step(s, e) != s {
      if e.Start? {
        OneAtATimeStart(s, e);
      } else if e.Record? {
        OneAtATimeRecord(s, e);
      } else {
        if e.Mark? {
          MarkKeepsClaims(s, e);
        } else {
          OthersKeepClaims(s, e);
        }
        OneAtATimeKeeps(s, Step(s, e));
      }
    }
  }

  /** When jobs wait for the record of the attempt before, every log stays in order. */
  lemma {:induction false} PatientRunsAreOrdered(run: seq<Event>)
    requires Patient(run)
    ensures OneAtATime(After(run))
  {
    if |run| > 0 {
      assert [] + run[..|run| - 1] == run[..|run| - 1];
      PatientRunsAreOrdered(run[..|run| - 1]);
      RunKeeps(run[..|run| - 1]);
      AfterLast(run);
      OneAtATimeStep(After(run[..|run| - 1]), run[|run| - 1]);
    }
  }

  // ── A hasty claim can break the order ───────────────────────────────────

  /** v owes the record of an earlier attempt than the one w has claimed. */
  predicate Ahead(s: State, id: TransferId, v: nat, w: nat) {
    && v != w && v in s.workers && s.workers[v].phase.Marked? && s.workers[v].copy.id == id
    && w in s.workers && s.workers[w].copy.id == id && s.workers[v].copy.attemptCount < s.workers[w].copy.attemptCount
  }

  lemma RowIsNamed(s: State, id: TransferId)
    requires RowsOk(s) && id in s.transfers
    ensures s.transfers[id].id == id
  {
  }

  lemma HastyStart(run: seq<Event>, w: nat, id: TransferId, v: nat)
    requires Enabled(After(run), Start(w, id))
    requires v in After(run).workers && After(run).workers[v].phase.Marked? && After(run).workers[v].copy.id == id
    ensures var s := After(run + [Start(w, id)]); Ahead(s, id, v, w) && s.workers[w].phase.Claimed?
  {
    hide After, KeyOf, RowsOk, OrderOk, PaidOk, LogOk, NumbersDistinct;
    RunKeeps(run);
    AfterSnoc(run, Start(w, id));
    var s := After(run);
    assert WorkerOk(s, s.workers[v]);
    RowIsNamed(s, id);
    hide WorkersOk, Paid;
  }

  lemma HastyCall(run: seq<Event>, w: nat, id: TransferId, v: nat)
    requires Ahead(After(run), id, v, w) && After(run).workers[w].phase.Claimed?
    ensures var s := After(run + [CallProvider(w, false, TemporaryError(None))]);
      Ahead(s, id, v, w) && s.workers[w].phase == Replied(TemporaryError(None))
  {
    AfterSnoc(run, CallProvider(w, false, TemporaryError(None)));
    hide After, AfterCall;
  }

  lemma NoJitter(attempt: nat)
    ensures IsJitter(attempt, 0.0)
  {
    assert Backoff(attempt) >= 0.0;
  }

  lemma HastyMarkStep(s: State, w: nat, id: TransferId, v: nat)
    requires Inv(s) && Ahead(s, id, v, w) && s.workers[w].phase.Replied?
    ensures var s' := Step(s, Mark(w, 0.0)); Ahead(s', id, v, w) && s'.workers[w].phase.Marked?
  {
    NoJitter(s.workers[w].copy.attemptCount);
    hide IsJitter, MarkedRow, RowsOk, WorkersOk, OrderOk, PaidOk, LogOk, NumbersDistinct, Step, Do;
    MarkMoves(s, w, 0.0);
  }

  lemma HastyMark(run: seq<Event>, w: nat, id: TransferId, v: nat)
    requires Ahead(After(run), id, v, w) && After(run).workers[w].phase.Replied?
    ensures var s := After(run + [Mark(w, 0.0)]); Ahead(s, id, v, w) && s.workers[w].phase.Marked?
  {
    hide After, Inv, Step;
    RunKeeps(run);
    AfterSnoc(run, Mark(w, 0.0));
    HastyMarkStep(After(run), w, id, v);
    hide Ahead;
  }

  lemma HastyRecords(run: seq<Event>, w: nat, id: TransferId, v: nat)
    requires Ahead(After(run), id, v, w) && After(run).workers[w].phase.Marked?
    ensures !Ordered(After(run + [Record(w)] + [Record(v)]).attempts)
  {
    AfterSnoc(run, Record(w));
    AfterSnoc(run + [Record(w)], Record(v));
    hide After;
    var s := After(run);
    var s1 := Step(s, Record(w));
    var s2 := Step(s1, Record(v));
    assert v in s1.workers && s1.workers[v] == s.workers[v];
    assert s2.attempts == s.attempts + [Attempt(id, s.workers[w].copy.attemptCount, s.workers[w].phase.reply)]
      + [Attempt(id, s.workers[v].copy.attemptCount, s.workers[v].phase.reply)];
    var i := |s.attempts|;
    assert s2.attempts[i].number > s2.attempts[i + 1].number;
  }

  function Overtaking(w: nat, v: nat): seq<Event> {
    [CallProvider(w, false, TemporaryError(None))] + [Mark(w, 0.0)] + [Record(w)] + [Record(v)]
  }

  lemma NoneStarts(w: nat, v: nat)
    ensures forall i | 0 <= i < |Overtaking(w, v)| :: !Overtaking(w, v)[i].Start?
  {
  }

  lemma OvertakingJoins(run: seq<Event>, w: nat, v: nat)
    ensures run + Overtaking(w, v) == run + [CallProvider(w, false, TemporaryError(None))] + [Mark(w, 0.0)] + [Record(w)] + [Record(v)]
  {
  }

  lemma {:induction false} NoClaimWaits(run: seq<Event>, more: seq<Event>)
    requires forall i | 0 <= i < |more| :: !more[i].Start?
    ensures Waits(run, more)
  {
    if |more| > 0 {
      NoClaimWaits(run, more[..|more| - 1]);
      assert !more[|more| - 1].Start?;
    }
  }

  /** After a hasty claim the new worker can overtake the old one. */
  lemma HastyBreaksOrder(run: seq<Event>, w: nat, id: TransferId)
    requires Hasty(After(run), Start(w, id))
    ensures CanBreakOrder(run + [Start(w, id)])
  {
    var s := After(run);
    hide After, Ordered, Ahead, Enabled, Waits, Overtaking;
    var v :| v in s.workers && s.workers[v].phase.Marked? && s.workers[v].copy.id == id;
    var run0 := run + [Start(w, id)];
    var run1 := run0 + [CallProvider(w, false, TemporaryError(None))];
    HastyStart(run, w, id, v);
    HastyCall(run0, w, id, v);
    HastyMark(run1, w, id, v);
    HastyRecords(run1 + [Mark(w, 0.0)], w, id, v);
    OvertakingJoins(run0, w, v);
    NoneStarts(w, v);
    NoClaimWaits(run0, Overtaking(w, v));
  }

  /** Some continuation without another hasty claim logs out of order. */
  ghost predicate CanBreakOrder(run: seq<Event>) {
    exists more: seq<Event> :: Waits(run, more) && !Ordered(After(run + more).attempts)
  }

  /**
   While every claim so far has waited, a further claim opens the way to a log out of order exactly
   when some worker still owes a record of that transfer.
   */
  lemma HastyClaimsBreakOrder(run: seq<Event>, w: nat, id: TransferId)
    requires Patient(run) && Enabled(After(run), Start(w, id))
    ensures CanBreakOrder(run + [Start(w, id)]) <==> OwesRecord(After(run), id)
  {
    if OwesRecord(After(run), id) {
      HastyBreaksOrder(run, w, id);
    } else {
      assert [Start(w, id)][..0] == [] && run + [] == run;
      assert Waits(run, [Start(w, id)]);
      WaitsJoin(run, [Start(w, id)]);
      forall more: seq<Event> | Waits(run + [Start(w, id)], more)
        ensures Ordered(After(run + [Start(w, id)] + more).attempts)
      {
        WaitsJoin(run + [Start(w, id)], more);
        PatientRunsAreOrdered(run + [Start(w, id)] + more);
      }
    }
    hide After, Ordered, OwesRecord;
  }

  // ── A run that is overtaken ─────────────────────────────────────────────

  /** Attempt 1 is marked Retrying; its record is still to be written. */
  const FIRST_MARK: seq<Event> :=
    [Create("t", "p", "k", "u", 1), Start(1, "t"), CallProvider(1, false, TemporaryError(None)), Mark(1, 0.0)]

  /** A duplicate job runs attempt 2 to the end, and only then is attempt 1 recorded. */
  const OVERTAKEN: seq<Event> :=
    FIRST_MARK + [Start(2, "t")] + [CallProvider(2, false, TemporaryError(None))] + [Mark(2, 0.0)]
    + [Record(2)] + [Record(1)]

  lemma FirstCallState()
    ensures var s := After(FIRST_MARK[..3]);
      && s.workers.Keys == {1} && s.workers[1].phase == Replied(TemporaryError(None)) && s.workers[1].copy.id == "t"
      && s.workers[1].copy.status == Processing && s.workers[1].copy.attemptCount == 1
      && s.workers[1].copy.maxAttempts == DEFAULT_MAX_ATTEMPTS
  {
    var s1 := Step(START, FIRST_MARK[0]);
    var s2 := Step(s1, FIRST_MARK[1]);
    AfterSnoc([], FIRST_MARK[0]);
    assert [] + [FIRST_MARK[0]] == FIRST_MARK[..1];
    AfterSnoc(FIRST_MARK[..1], FIRST_MARK[1]);
    assert FIRST_MARK[..1] + [FIRST_MARK[1]] == FIRST_MARK[..2];
    AfterSnoc(FIRST_MARK[..2], FIRST_MARK[2]);
    assert FIRST_MARK[..2] + [FIRST_MARK[2]] == FIRST_MARK[..3];
    assert s2.workers.Keys == {1} && s2.workers[1].phase.Claimed?;
  }

  lemma FirstMarkState()
    ensures var s := After(FIRST_MARK);
      && 1 in s.workers && s.workers[1].phase.Marked? && s.workers[1].copy.id == "t"
      && 2 !in s.workers && "t" in s.transfers && s.transfers["t"].status == Retrying
  {
    FirstCallState();
    AfterSnoc(FIRST_MARK[..3], FIRST_MARK[3]);
    assert FIRST_MARK[..3] + [FIRST_MARK[3]] == FIRST_MARK;
    hide After;
    assert IsJitter(1, 0.0);
  }

  /** The log of this run holds attempt 2 before attempt 1. */
  lemma OvertakenRun()
    ensures !Ordered(After(OVERTAKEN).attempts)
  {
    var run := FIRST_MARK + [Start(2, "t")];
    FirstMarkState();
    HastyStart(FIRST_MARK, 2, "t", 1);
    HastyCall(run, 2, "t", 1);
    HastyMark(run + [CallProvider(2, false, TemporaryError(None))], 2, "t", 1);
    HastyRecords(run + [CallProvider(2, false, TemporaryError(None))] + [Mark(2, 0.0)], 2, "t", 1);
    hide After, Ordered, Ahead;
  }
}
