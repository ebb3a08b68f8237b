/** The background jobs that drive transfers: one attempt with its re-enqueue, and the two scans. */
module TransferTasks {
  import opened Common
  import opened TransferRow
  import opened TransferProtocol
  import opened PaymentStore
  import opened PaymentServices
  import TransferRefinement
  import TransferSafety
  import opened TransferHistory

  /** The recovery scan: waiting for an attempt, and not for a later time. */
  predicate Recoverable(row: Transfer, now: Time) {
    Claimable(row) && (row.nextRetryAt.Some? ==> row.nextRetryAt.value <= now)
  }

  /** The reconciliation scan: taken by a worker that must be dead by now. */
  predicate Abandoned(row: Transfer, now: Time) {
    row.status == Processing && row.updatedAt < now - STALE_AFTER
  }

  predicate Distinct(scan: seq<TransferId>) {
    forall i, j | 0 <= i < j < |scan| :: scan[i] != scan[j]
  }

  /** Seconds until the next attempt, cut to a whole number; None when the attempt needs no successor. */
  function Countdown(transfers: map<TransferId, Transfer>, id: TransferId, now: Time): Option<int> {
    if id in transfers && transfers[id].status == Retrying && transfers[id].nextRetryAt.Some? then
      var left := transfers[id].nextRetryAt.value - now;
      Some(if left > 0.0 then left.Floor else 0)
    else None
  }

  /** A job may start early, by less than a second, and never late. */
  lemma CountdownCutsLessThanASecond(transfers: map<TransferId, Transfer>, id: TransferId, now: Time)
    requires Countdown(transfers, id, now).Some? && transfers[id].nextRetryAt.value >= now
    ensures var start := now + Countdown(transfers, id, now).value as real;
      start <= transfers[id].nextRetryAt.value < start + 1.0
  {
  }

  /** Reconciles the scanned rows one after the other. */
  function ReconcileAll(s: Store, scan: seq<TransferId>, lookups: seq<Lookup>, jitters: seq<real>, now: Time): Store
    requires |scan| == |lookups| == |jitters|
  {
    if |scan| == 0 then s else
      var n := |scan| - 1;
      PaymentStore.ReconcileTransfer(ReconcileAll(s, scan[..n], lookups[..n], jitters[..n], now), scan[n], lookups[n], jitters[n], now)
  }

  class TransferJobs {
    const db: Database
    const service: TransferService

    constructor (db: Database, service: TransferService)
      requires service.db == db
      ensures this.db == db && this.service == service
    {
      this.db, this.service := db, service;
    }

    /** One attempt; a transfer left RETRYING enqueues itself again. */
    method ProcessTransferTask(id: TransferId, reply: Reply, jitter: real, now: Time, later: Time)
      returns (countdown: Option<int>)
      requires service.db == db && (id in db.transfers ==> db.transfers[id].id == id)
      modifies db
      ensures var s := PaymentStore.ProcessTransfer(old(db.Snapshot()), id, reply, jitter, now);
        && countdown == Countdown(s.transfers, id, later)
        && db.Snapshot() == s.(jobs := s.jobs + (if countdown.Some? then [id] else []))
    {
      countdown := None;
      ghost var s := PaymentStore.ProcessTransfer(db.Snapshot(), id, reply, jitter, now);
      var found := service.ProcessTransfer(id, reply, jitter, now);
      if found && id in db.transfers && db.transfers[id].status == Retrying && db.transfers[id].nextRetryAt.Some? {
        var left := db.transfers[id].nextRetryAt.value - later;
        countdown := Some(if left > 0.0 then left.Floor else 0);
        db.jobs := db.jobs + [id];
      } else if !found {
        assert s == old(db.Snapshot());
      }
      hide PaymentStore.ProcessTransfer;
    }

    /** Enqueues a job for every row the recovery query returned. */
    method RecoverStuckTransfers(scan: seq<TransferId>) returns (enqueued: nat)
      modifies db`jobs
      ensures db.jobs == old(db.jobs) + scan && enqueued == |scan|
    {
      enqueued := 0;
      while enqueued < |scan|
        invariant 0 <= enqueued <= |scan|
        invariant db.jobs == old(db.jobs) + scan[..enqueued]
      {
        assert scan[..enqueued + 1] == scan[..enqueued] + [scan[enqueued]];
        db.jobs := db.jobs + [scan[enqueued]];
        enqueued := enqueued + 1;
      }
      assert scan[..enqueued] == scan;
    }

    /** Reconciles every row the query returned, with what the provider says about each. */
    method ReconcileProcessingTransfers(scan: seq<TransferId>, lookups: seq<Lookup>, jitters: seq<real>, now: Time)
      returns (reconciled: nat)
      requires service.db == db && |scan| == |lookups| == |jitters|
      modifies db
      ensures db.Snapshot() == ReconcileAll(old(db.Snapshot()), scan, lookups, jitters, now) && reconciled == |scan|
    {
      reconciled := 0;
      while reconciled < |scan|
        invariant 0 <= reconciled <= |scan|
        invariant db.Snapshot() ==
          ReconcileAll(old(db.Snapshot()), scan[..reconciled], lookups[..reconciled], jitters[..reconciled], now)
      {
        var k := reconciled;
        assert scan[..k + 1][..k] == scan[..k] && lookups[..k + 1][..k] == lookups[..k] && jitters[..k + 1][..k] == jitters[..k];
        hide PaymentStore.ReconcileTransfer;
        var found := service.ReconcileTransfer(scan[k], lookups[k], jitters[k], now);
        reconciled := k + 1;
      }
      assert scan[..reconciled] == scan && lookups[..reconciled] == lookups && jitters[..reconciled] == jitters;
    }
  }

  // ── What a reconciliation scan does ─────────────────────────────────────

  predicate RowsNamed(transfers: map<TransferId, Transfer>) {
    forall t | t in transfers :: transfers[t].id == t
  }

  /** What becomes of a row on its own. */
  function Reconciled(row: Transfer, lookup: Lookup, jitter: real, now: Time): Transfer {
    if row.status == Processing then ReconciledRow(row, lookup, jitter, now) else row
  }

  lemma ReconcileTouchesOne(s: Store, id: TransferId, lookup: Lookup, jitter: real, now: Time)
    requires RowsNamed(s.transfers) && id in s.transfers
    ensures var s' := PaymentStore.ReconcileTransfer(s, id, lookup, jitter, now);
      && s'.transfers == s.transfers[id := Reconciled(s.transfers[id], lookup, jitter, now)]
      && RowsNamed(s'.transfers)
  {
    var row := s.transfers[id];
    if row.status == Processing {
      var providerId := if lookup.FoundSuccess? then Some(lookup.providerId) else None;
      var code := if lookup.FoundFailed? then Some("RECONCILED_FAILED") else Some("RECONCILED_UNKNOWN");
      TransferRefinement.StoredMarks(s, row, providerId, code, RetryDelay(row.attemptCount, jitter), now);
    }
    hide StoreCompleted, StoreFailed, StoreRetry, Complete, Fail, Retry, RetryDelay;
  }

  /** The scanned rows are reconciled, every other one is as before. */
  predicate EachReconciled(before: map<TransferId, Transfer>, after: map<TransferId, Transfer>,
                           scan: seq<TransferId>, lookups: seq<Lookup>, jitters: seq<real>, now: Time)
    requires |scan| == |lookups| == |jitters|
  {
    && after.Keys == before.Keys
    && (forall t | t in before && t !in scan :: after[t] == before[t])
    && (forall i | 0 <= i < |scan| ::
          scan[i] in before && after[scan[i]] == Reconciled(before[scan[i]], lookups[i], jitters[i], now))
  }

  lemma OneMoreReconciled(before: map<TransferId, Transfer>, after: map<TransferId, Transfer>,
                          scan: seq<TransferId>, lookups: seq<Lookup>, jitters: seq<real>, now: Time)
    requires |scan| == |lookups| == |jitters| > 0 && Distinct(scan) && scan[|scan| - 1] in before
    requires var n := |scan| - 1; EachReconciled(before, after, scan[..n], lookups[..n], jitters[..n], now)
    ensures var n := |scan| - 1;
      EachReconciled(before, after[scan[n] := Reconciled(before[scan[n]], lookups[n], jitters[n], now)], scan, lookups, jitters, now)
  {
    hide Reconciled;
    var n := |scan| - 1;
    assert scan == scan[..n] + [scan[n]];
    forall i | 0 <= i < n ensures scan[i] != scan[n] && scan[..n][i] == scan[i] {
    }
  }

  /** Rows are reconciled independently: each scanned one by what was said about it, and no other changes. */
  lemma {:induction false} ScanReconcilesEachRow(s: Store, scan: seq<TransferId>, lookups: seq<Lookup>, jitters: seq<real>, now: Time)
    requires |scan| == |lookups| == |jitters| && Distinct(scan)
    requires RowsNamed(s.transfers) && forall i | 0 <= i < |scan| :: scan[i] in s.transfers
    ensures var s' := ReconcileAll(s, scan, lookups, jitters, now);
      RowsNamed(s'.transfers) && EachReconciled(s.transfers, s'.transfers, scan, lookups, jitters, now)
  {
    if |scan| > 0 {
      var n := |scan| - 1;
      ScanReconcilesEachRow(s, scan[..n], lookups[..n], jitters[..n], now);
      var before := ReconcileAll(s, scan[..n], lookups[..n], jitters[..n], now);
      assert before.transfers[scan[n]] == s.transfers[scan[n]] && scan[n] in before.transfers;
      ReconcileTouchesOne(before, scan[n], lookups[n], jitters[n], now);
      OneMoreReconciled(s.transfers, before.transfers, scan, lookups, jitters, now);
      hide PaymentStore.ReconcileTransfer, Reconciled, EachReconciled, RowsNamed;
    }
  }

  /** From that time on, exactly one of the two scans finds the row. */
  ghost predicate FoundAfter(row: Transfer, since: Time) {
    forall now: Time :: now > since ==> Recoverable(row, now) != Abandoned(row, now)
  }

  /**
   No transfer is forgotten: from some time on, an unfinished one is found by exactly one of the two
   scans, whatever crashed before; a finished one is found by neither, ever.
   */
  lemma NoTransferIsForgotten(run: seq<Event>, id: TransferId)
    requires id in After(run).transfers
    ensures var row := After(run).transfers[id];
      if row.status == TransferStatus.Completed || row.status == TransferStatus.Failed
      then forall now: Time :: !Recoverable(row, now) && !Abandoned(row, now)
      else exists since: Time :: FoundAfter(row, since)
  {
    TransferSafety.CounterInvariant(run, id);
    var row := After(run).transfers[id];
    if row.status != TransferStatus.Completed && row.status != TransferStatus.Failed {
      var since := if row.status == Processing then row.updatedAt + STALE_AFTER
                   else if row.nextRetryAt.Some? then row.nextRetryAt.value else 0.0;
      assert FoundAfter(row, since);
    }
  }

  /** What a scan finds it may act on: an abandoned row is held by nobody, and the state machine lets the scan on. */
  lemma ScansMayAct(run: seq<Event>, id: TransferId, worker: nat, jitter: real)
    requires id in After(run).transfers && worker !in After(run).workers
    requires IsJitter(After(run).transfers[id].attemptCount, jitter)
    ensures var s := After(run);
      && (Recoverable(s.transfers[id], s.now) ==> Enabled(s, Event.Start(worker, id)))
      && (Abandoned(s.transfers[id], s.now) ==> !Held(s, id) && Enabled(s, Event.Reconcile(id, Unknown, jitter)))
  {
    TransferSafety.RunKeeps(run);
    if Abandoned(After(run).transfers[id], After(run).now) {
      TransferSafety.StaleRowsAreNotHeld(After(run), id);
    }
    hide TransferSafety.RowsOk, TransferSafety.OrderOk, TransferSafety.PaidOk, TransferSafety.LogOk, IsJitter, Held, After;
  }

  predicate IsLongTaken(told: Option<Told>, now: Time) {
    told.Some? && told.value.news == Taken && told.value.at < now - 600.0
  }

  /**
   In every run the recovery scan finds a transfer exactly when it is new or its wait is over, and the
   reconciliation scan exactly when it was claimed more than ten minutes ago and nothing was heard since.
   */
  lemma ScansTell(run: seq<Event>, id: TransferId, now: Time)
    requires id in After(run).transfers
    ensures var row := After(run).transfers[id];
      && (Recoverable(row, now) <==> match LastTold(run, id)
            case None => true
            case Some(Told(news, at)) => news.Postponed? && at + news.wait <= now)
      && (Abandoned(row, now) <==> IsLongTaken(LastTold(run, id), now))
  {
    RowTells(run, id);
    hide After, LastTold, CreatedBy, IsAsCreated;
  }
}
