/**
 What a row of the transfers table, a worker and the audit log say, told by the events of the run
 alone: who completed the transfer and under which id, why it failed, when it is due again.
 */
module TransferHistory {
  import opened Common
  import opened TransferRow
  import opened TransferProtocol
  import opened TransferSafety
  import opened TransferProgress

  /** The news an event brings about a transfer. */
  datatype News =
    | Taken
    | Settled(providerId: string)
    | Refused(code: Option<string>)
    | Postponed(code: Option<string>, wait: Time)

  /** Seconds before the next attempt, without jitter, after the attempt of this number. */
  const WAITS: seq<real> := [30.0, 60.0, 120.0, 240.0, 480.0, 960.0, 1920.0, 3840.0, 7200.0]

  function WaitAfter(attempts: nat): real {
    if attempts == 0 then 15.0 else if attempts <= |WAITS| then WAITS[attempts - 1] else 7200.0
  }

  /** A failure that may pass: the attempt at the limit is the last. */
  function TryLater(code: Option<string>, attempts: nat, limit: nat, jitter: real): News {
    if attempts >= limit then Refused(if code == None then Some("MAX_ATTEMPTS_EXCEEDED") else code)
    else Postponed(code, WaitAfter(attempts) + jitter)
  }

  function NewsOfReply(reply: Reply, attempts: nat, limit: nat, jitter: real): News {
    match reply
    case Succeeded(providerId) => Settled(providerId)
    case TemporaryError(code) => TryLater(code, attempts, limit, jitter)
    case PermanentError(code) => Refused(code)
    case NoAccount => Refused(Some("NO_PAYMENT_ACCOUNT"))
  }

  /** An unreachable provider brings no news. */
  function NewsOfLookup(lookup: Lookup, attempts: nat, limit: nat, jitter: real): Option<News> {
    match lookup
    case FoundSuccess(providerId) => Some(Settled(providerId))
    case FoundFailed => Some(Refused(Some("RECONCILED_FAILED")))
    case Unknown => Some(TryLater(Some("RECONCILED_UNKNOWN"), attempts, limit, jitter))
    case Unreachable => None
  }

  /** attempts is the number of claims so far, of ten, and reply what the marking worker was told. */
  function NewsFor(s: State, e: Event, id: TransferId, attempts: nat): Option<News> {
    if !Enabled(s, e) then None else
      match e
      case Start(_, t) => if t == id then Some(Taken) else None
      case Mark(w, jitter) =>
        if s.workers[w].copy.id == id then Some(NewsOfReply(s.workers[w].phase.reply, attempts, 10, jitter)) else None
      case Reconcile(t, lookup, jitter) => if t == id then NewsOfLookup(lookup, attempts, 10, jitter) else None
      case WebhookSuccess(t, reference) => if t == id then Some(Settled(reference)) else None
      case WebhookFailed(t) => if t == id then Some(Refused(Some("WEBHOOK_FAILED"))) else None
      case _ => None
  }

  // ── Histories ───────────────────────────────────────────────────────────

  function Claims(run: seq<Event>, id: TransferId): nat {
    if |run| == 0 then 0 else
      var front, e := run[..|run| - 1], run[|run| - 1];
      Claims(front, id) + (if e.Start? && e.id == id && Enabled(After(front), e) then 1 else 0)
  }

  datatype Told = Told(news: News, at: Time)

  /** The latest news, and when it came. */
  function LastTold(run: seq<Event>, id: TransferId): Option<Told> {
    if |run| == 0 then None else
      var front := run[..|run| - 1];
      match NewsFor(After(front), run[|run| - 1], id, Claims(front, id))
      case Some(news) => Some(Told(news, After(front).now))
      case None => LastTold(front, id)
  }

  /** When the transfer was claimed last. */
  function LastClaimed(run: seq<Event>, id: TransferId): Option<Time> {
    if |run| == 0 then None else
      var front, e := run[..|run| - 1], run[|run| - 1];
      if e.Start? && e.id == id && Enabled(After(front), e) then Some(After(front).now) else LastClaimed(front, id)
  }

  /** The event that created the transfer. */
  function CreatedBy(run: seq<Event>, id: TransferId): Option<Event> {
    if |run| == 0 then None else
      var front, e := run[..|run| - 1], run[|run| - 1];
      if e.Create? && e.id == id && Enabled(After(front), e) then Some(e) else CreatedBy(front, id)
  }

  /** Status, outcome and dates of the row are those of the latest news. */
  predicate Tells(row: Transfer, told: Option<Told>) {
    match told
    case None => row.status == Pending && row.providerTransferId == None && row.failureCode == None && row.nextRetryAt == None
    case Some(Told(news, at)) =>
      && row.updatedAt == at
      && match news
         case Taken => row.status == Processing
         case Settled(providerId) =>
           row.status == Completed && row.providerTransferId == Some(providerId) && row.completedAt == Some(at) && row.nextRetryAt == None
         case Refused(code) =>
           row.status == Failed && row.failureCode == code && row.failedAt == Some(at) && row.nextRetryAt == None
         case Postponed(code, wait) =>
           row.status == Retrying && row.failureCode == code && row.nextRetryAt == Some(at + wait)
  }

  /** The row is the one that was asked for. */
  predicate IsAsCreated(row: Transfer, e: Event) {
    e.Create? && row.id == e.id && row.payoutId == e.payoutId && row.taskId == e.taskId && row.userId == e.userId
    && row.amount == e.amount && row.maxAttempts == 10 && row.idempotencyKey == "transfer:" + e.id
  }

  // ── One step ────────────────────────────────────────────────────────────

  lemma WaitIs(attempts: nat)
    ensures Backoff(attempts) == WaitAfter(attempts)
  {
    assert PowerOfTwo(0) == 1.0 && PowerOfTwo(1) == 2.0 && PowerOfTwo(2) == 4.0 && PowerOfTwo(3) == 8.0;
    assert PowerOfTwo(4) == 16.0 && PowerOfTwo(5) == 32.0 && PowerOfTwo(6) == 64.0;
    assert PowerOfTwo(7) == 128.0 && PowerOfTwo(8) == 256.0;
    if attempts > 9 {
      PowerOfTwoGrows(8, attempts - 1);
    }
  }

  lemma RetryTells(row: Transfer, code: Option<string>, jitter: real, now: Time)
    requires row.status == Processing
    ensures Tells(Retry(row, code, RetryDelay(row.attemptCount, jitter), now),
                  Some(Told(TryLater(code, row.attemptCount, row.maxAttempts, jitter), now)))
  {
    hide Backoff, WaitAfter;
    WaitIs(row.attemptCount);
  }

  lemma MarkedRowTells(row: Transfer, reply: Reply, jitter: real, now: Time)
    requires row.status == Processing
    ensures Tells(MarkedRow(row, reply, jitter, now), Some(Told(NewsOfReply(reply, row.attemptCount, row.maxAttempts, jitter), now)))
    ensures MarkedRow(row, reply, jitter, now).lastAttemptAt == row.lastAttemptAt
  {
    if reply.TemporaryError? {
      RetryTells(row, reply.code, jitter, now);
    }
    hide RetryDelay, TryLater;
  }

  lemma ReconciledRowTells(row: Transfer, lookup: Lookup, jitter: real, now: Time)
    requires row.status == Processing && !lookup.Unreachable?
    ensures Tells(ReconciledRow(row, lookup, jitter, now),
                  Some(Told(NewsOfLookup(lookup, row.attemptCount, row.maxAttempts, jitter).value, now)))
    ensures ReconciledRow(row, lookup, jitter, now).lastAttemptAt == row.lastAttemptAt
  {
    if lookup.Unknown? {
      RetryTells(row, Some("RECONCILED_UNKNOWN"), jitter, now);
    }
    hide RetryDelay, TryLater;
  }

  lemma MarkTells(s: State, e: Event, id: TransferId)
    requires Inv(s) && id in s.transfers && s.transfers[id].maxAttempts == 10 && e.Mark? && Enabled(s, e)
    ensures id in Step(s, e).transfers
    ensures s.workers[e.worker].copy.id == id ==>
      Tells(Step(s, e).transfers[id], Some(Told(NewsOfReply(s.workers[e.worker].phase.reply, s.transfers[id].attemptCount, 10, e.jitter), s.now)))
    ensures s.workers[e.worker].copy.id != id ==> Step(s, e).transfers[id] == s.transfers[id]
    ensures Step(s, e).transfers[id].lastAttemptAt == s.transfers[id].lastAttemptAt
  {
    MarkedRowChanges(s, e.worker, e.jitter);
    assert s.workers[e.worker].copy.id == id ==> RowOk(s.transfers[id]);
    hide RowsOk, OrderOk, PaidOk, WorkersOk, LogOk, NumbersDistinct, Do, Step, MarkedRow, IsJitter, OneChange, NewsOfReply, Tells;
    MarkMoves(s, e.worker, e.jitter);
    if s.workers[e.worker].copy.id == id {
      MarkedRowTells(s.transfers[id], s.workers[e.worker].phase.reply, e.jitter, s.now);
    }
  }

  lemma LookupTells(s: State, e: Event, id: TransferId)
    requires RowsOk(s) && id in s.transfers && s.transfers[id].maxAttempts == 10 && e.Reconcile?
    ensures match NewsFor(s, e, id, s.transfers[id].attemptCount)
      case Some(news) => id in Step(s, e).transfers && Tells(Step(s, e).transfers[id], Some(Told(news, s.now)))
      case None => id in Step(s, e).transfers && Step(s, e).transfers[id] == s.transfers[id]
    ensures id in Step(s, e).transfers && Step(s, e).transfers[id].lastAttemptAt == s.transfers[id].lastAttemptAt
  {
    assert RowOk(s.transfers[id]);
    hide RowsOk, RowOk, ReconciledRow, Paid, Held, NewsOfLookup, Tells;
    if Enabled(s, e) && e.id == id {
      assert s.transfers[id].status == Processing;
      if e.lookup.Unreachable? {
        UnreachableTells(s.transfers[id], e.lookup, e.jitter, s.now);
      } else {
        ReconciledRowTells(s.transfers[id], e.lookup, e.jitter, s.now);
        LookupIsNews(e.lookup, s.transfers[id].attemptCount, e.jitter);
      }
    }
  }

  lemma UnreachableTells(row: Transfer, lookup: Lookup, jitter: real, now: Time)
    requires row.status == Processing && lookup.Unreachable?
    ensures ReconciledRow(row, lookup, jitter, now) == row && NewsOfLookup(lookup, row.attemptCount, 10, jitter) == None
  {
  }

  lemma LookupIsNews(lookup: Lookup, attempts: nat, jitter: real)
    requires !lookup.Unreachable?
    ensures NewsOfLookup(lookup, attempts, 10, jitter).Some?
  {
  }

  lemma OutsideTells(s: State, e: Event, id: TransferId)
    requires RowsOk(s) && id in s.transfers && s.transfers[id].maxAttempts == 10 && !e.Mark?
    ensures match NewsFor(s, e, id, s.transfers[id].attemptCount)
      case Some(news) => Tells(Step(s, e).transfers[id], Some(Told(news, s.now)))
      case None => id in Step(s, e).transfers && Step(s, e).transfers[id] == s.transfers[id]
    ensures Step(s, e).transfers[id].lastAttemptAt ==
      if e.Start? && e.id == id && Enabled(s, e) then Some(s.now) else s.transfers[id].lastAttemptAt
  {
    assert RowOk(s.transfers[id]);
    if e.Reconcile? {
      LookupTells(s, e, id);
      hide Step, NewsFor, Tells;
    } else {
      hide RowsOk, ReconciledRow, Paid, Held, KeyOf, HasPayout, NewsOfLookup, AfterCall;
    }
  }

  // ── Whole runs ──────────────────────────────────────────────────────────

  lemma NoNewsFrom(s: State, e: Event, id: TransferId, attempts: nat)
    requires WorkersOk(s) && id !in s.transfers
    ensures NewsFor(s, e, id, attempts) == None
  {
    if e.Mark? && Enabled(s, e) {
      assert WorkerOk(s, s.workers[e.worker]);
    }
    hide Paid, Held, IsJitter;
  }

  lemma {:induction false} NoNewsBefore(run: seq<Event>, id: TransferId)
    requires id !in After(run).transfers
    ensures LastTold(run, id) == None && Claims(run, id) == 0 && CreatedBy(run, id) == None && LastClaimed(run, id) == None
  {
    if |run| > 0 {
      var front, e := run[..|run| - 1], run[|run| - 1];
      RunKeeps(front);
      if id in After(front).transfers {
        StepEvolves(After(front), e, id);
      }
      NoNewsBefore(front, id);
      NoNewsFrom(After(front), e, id, 0);
      if e.Create? && Enabled(After(front), e) {
        CreatedIsThere(After(front), e);
      }
      hide After, Inv, NewsFor;
    }
  }

  lemma CreatedIsThere(s: State, e: Event)
    requires e.Create? && Enabled(s, e)
    ensures e.id in Step(s, e).transfers
  {
    hide KeyOf, HasPayout;
  }

  /** Everything a row says is what the events of the run have said. */
  ghost predicate RowIsHistory(run: seq<Event>, id: TransferId) {
    id in After(run).transfers ==>
      var row := After(run).transfers[id];
      && Tells(row, LastTold(run, id)) && row.attemptCount == Claims(run, id) && row.lastAttemptAt == LastClaimed(run, id)
      && CreatedBy(run, id).Some? && IsAsCreated(row, CreatedBy(run, id).value)
  }

  lemma NewRowTells(e: Event, now: Time)
    requires e.Create?
    ensures var row := NewTransfer(e.id, e.payoutId, e.taskId, e.userId, e.amount, now);
      Tells(row, None) && IsAsCreated(row, e) && row.attemptCount == 0 && row.lastAttemptAt == None
  {
  }

  /** The history of a transfer begins with its creation. */
  lemma HistoryBegins(run: seq<Event>, id: TransferId)
    requires |run| > 0 && run[|run| - 1].Create? && run[|run| - 1].id == id && Enabled(After(run[..|run| - 1]), run[|run| - 1])
    requires id !in After(run[..|run| - 1]).transfers
    ensures LastTold(run, id) == None && Claims(run, id) == 0 && LastClaimed(run, id) == None
    ensures CreatedBy(run, id) == Some(run[|run| - 1])
  {
    NoNewsBefore(run[..|run| - 1], id);
    hide After, Enabled;
  }

  lemma FreshTells(run: seq<Event>, id: TransferId)
    requires |run| > 0 && id !in After(run[..|run| - 1]).transfers && id in After(run).transfers
    ensures RowIsHistory(run, id)
  {
    hide After, Inv, Step, NewsFor, Enabled, Tells, IsAsCreated, LastTold, Claims, LastClaimed, CreatedBy, NewTransfer;
    var front, e := run[..|run| - 1], run[|run| - 1];
    RunKeeps(front);
    AfterLast(run);
    NewRowIsFresh(After(front), e, id);
    if !Enabled(After(front), e) {
      DisabledStep(After(front), e);
    } else {
      HistoryBegins(run, id);
      NewRowTells(e, After(front).now);
    }
  }

  lemma OneMoreTells(run: seq<Event>, id: TransferId)
    requires |run| > 0 && RowIsHistory(run[..|run| - 1], id) && id in After(run[..|run| - 1]).transfers
    ensures RowIsHistory(run, id)
  {
    var front, e := run[..|run| - 1], run[|run| - 1];
    var s := After(front);
    RunKeeps(front);
    AfterLast(run);
    StepEvolves(s, e, id);
    AttemptsGrow(s, e, id);
    hide After, Inv, Step, Tells, NewsOfReply, NewsOfLookup;
    InvRows(s);
    if e.Mark? && Enabled(s, e) {
      MarkTells(s, e, id);
    } else if !e.Mark? {
      OutsideTells(s, e, id);
    } else {
      DisabledStays(s, e, id);
      DisabledStep(s, e);
    }
    hide Enabled;
  }

  lemma DisabledStep(s: State, e: Event)
    requires !Enabled(s, e)
    ensures Step(s, e) == s
  {
  }

  lemma InvRows(s: State)
    requires Inv(s)
    ensures RowsOk(s)
  {
  }

  /**
   In every run a row's status, outcome, code and dates are those of the latest news of it, its attempts
   the claims so far, and payout, task, user, amount and key those of its creation.
   */
  lemma {:induction false} RowTells(run: seq<Event>, id: TransferId)
    ensures RowIsHistory(run, id)
  {
    if |run| > 0 {
      var front := run[..|run| - 1];
      RowTells(front, id);
      if id in After(front).transfers {
        OneMoreTells(run, id);
      } else if id in After(run).transfers {
        FreshTells(run, id);
      }
    }
    hide After, LastTold, Claims, LastClaimed, CreatedBy;
  }

  /** Once a transfer is COMPLETED it keeps, over every continuation, the id it was completed under. */
  lemma {:induction false} ProviderIdStays(run: seq<Event>, more: seq<Event>, id: TransferId, providerId: string)
    requires LastTold(run, id).Some? && LastTold(run, id).value.news == Settled(providerId) && id in After(run).transfers
    ensures var s := After(run + more);
      id in s.transfers && s.transfers[id].status == Completed && s.transfers[id].providerTransferId == Some(providerId)
  {
    if |more| == 0 {
      assert run + more == run;
      RowTells(run, id);
    } else {
      var front, e := more[..|more| - 1], more[|more| - 1];
      ProviderIdStays(run, front, id, providerId);
      assert run + more == (run + front) + [e];
      SettledForGood(run + front, e, id);
      hide After, LastTold;
    }
  }

  // ── Workers and the audit log ───────────────────────────────────────────

  /** The attempt a worker is at: its transfer, its number among the claims, and what it was told. */
  datatype Job = Job(id: TransferId, number: nat, heard: Option<Reply>)

  function JobOf(run: seq<Event>, w: nat): Option<Job> {
    if |run| == 0 then None else
      var front, e := run[..|run| - 1], run[|run| - 1];
      var before := JobOf(front, w);
      if !Enabled(After(front), e) then before else
        match e
        case Start(v, id) => if v == w then Some(Job(id, Claims(run, id), None)) else before
        case FindNoAccount(v) => if v == w && before.Some? then Some(before.value.(heard := Some(NoAccount))) else before
        case CallProvider(v, _, reply) => if v == w && before.Some? then Some(before.value.(heard := Some(reply))) else before
        case _ => before
  }

  predicate IsAt(worker: Worker, task: Option<Job>) {
    task.Some? && worker.copy.id == task.value.id && worker.copy.attemptCount == task.value.number
    && match worker.phase
       case Claimed => task.value.heard == None
       case Replied(reply) => task.value.heard == Some(reply)
       case Marked(reply) => task.value.heard == Some(reply)
  }

  lemma StartIsAt(run: seq<Event>, w: nat, id: TransferId)
    requires |run| > 0 && run[|run| - 1] == Start(w, id) && Enabled(After(run[..|run| - 1]), Start(w, id))
    ensures w in After(run).workers && IsAt(After(run).workers[w], JobOf(run, w))
    ensures forall v | v in After(run).workers && v != w ::
      v in After(run[..|run| - 1]).workers && After(run).workers[v] == After(run[..|run| - 1]).workers[v]
  {
    var front := run[..|run| - 1];
    RowTells(front, id);
    RunKeeps(front);
    assert RowOk(After(front).transfers[id]) && After(front).transfers[id].id == id;
    AfterLast(run);
    hide After, Tells, LastTold, CreatedBy, Inv, RowOk, KeyOf;
  }

  lemma MarkIsAt(s: State, e: Event, w: nat, task: Option<Job>)
    requires Inv(s) && e.Mark? && Enabled(s, e) && w in s.workers && IsAt(s.workers[w], task)
    ensures w in Step(s, e).workers && IsAt(Step(s, e).workers[w], task)
  {
    hide RowsOk, OrderOk, PaidOk, WorkersOk, LogOk, NumbersDistinct, Do, Step, MarkedRow, IsJitter;
    MarkMoves(s, e.worker, e.jitter);
  }

  lemma MarkAddsNobody(s: State, e: Event)
    requires Inv(s) && e.Mark? && Enabled(s, e)
    ensures Step(s, e).workers.Keys == s.workers.Keys && Step(s, e).attempts == s.attempts
  {
    hide RowsOk, OrderOk, PaidOk, WorkersOk, LogOk, NumbersDistinct, Do, Step, MarkedRow, IsJitter;
    MarkMoves(s, e.worker, e.jitter);
  }

  /** Neither starts nor marks: a worker is where it was, or has just heard. */
  lemma OtherIsAt(s: State, e: Event, w: nat)
    requires !e.Start? && !e.Mark? && w in Step(s, e).workers
    ensures w in s.workers && Step(s, e).workers[w].copy == s.workers[w].copy
    ensures Step(s, e).workers[w].phase ==
      if Enabled(s, e) && e.FindNoAccount? && e.worker == w then Replied(NoAccount)
      else if Enabled(s, e) && e.CallProvider? && e.worker == w then Replied(e.reply)
      else s.workers[w].phase
  {
    hide KeyOf, Paid, Held, ReconciledRow, Complete, Fail, NewTransfer, AfterCall, HasPayout;
  }

  lemma {:induction false} WorkerIsAt(run: seq<Event>, w: nat)
    ensures w in After(run).workers ==> IsAt(After(run).workers[w], JobOf(run, w))
  {
    if |run| > 0 && w in After(run).workers {
      var front, e := run[..|run| - 1], run[|run| - 1];
      var s := After(front);
      WorkerIsAt(front, w);
      RunKeeps(front);
      AfterLast(run);
      if !Enabled(s, e) {
        DisabledStep(s, e);
      } else if e.Start? {
        StartIsAt(run, e.worker, e.id);
      } else if e.Mark? {
        MarkAddsNobody(s, e);
        MarkIsAt(s, e, w, JobOf(front, w));
      } else {
        OtherIsAt(s, e, w);
      }
      hide After, Step, Inv, Claims, Enabled;
    }
  }

  /** A record holds the transfer, the number of the claim and the answer that its worker was given. */
  lemma RecordTells(run: seq<Event>, w: nat)
    requires Enabled(After(run), Record(w))
    ensures JobOf(run, w).Some? && JobOf(run, w).value.heard.Some?
    ensures var task := JobOf(run, w).value;
      After(run + [Record(w)]).attempts == After(run).attempts + [Attempt(task.id, task.number, task.heard.value)]
  {
    WorkerIsAt(run, w);
    AfterSnoc(run, Record(w));
    hide After, JobOf;
  }

  lemma OnlyRecordsLog(run: seq<Event>, e: Event)
    requires !e.Record?
    ensures After(run + [e]).attempts == After(run).attempts
  {
    RunKeeps(run);
    AfterSnoc(run, e);
    var s := After(run);
    hide After, Inv;
    if e.Mark? {
      if Enabled(s, e) {
        MarkAddsNobody(s, e);
      }
    } else {
      OthersLogNothing(s, e);
    }
  }

  lemma OthersLogNothing(s: State, e: Event)
    requires !e.Record? && !e.Mark?
    ensures Step(s, e).attempts == s.attempts
  {
    hide KeyOf, Paid, Held, ReconciledRow, Complete, Fail, NewTransfer, AfterCall, HasPayout;
  }
}
