/** Bounds, totals and ordering over whole runs of the transfer protocol. */
module TransferProgress {
  import opened Common
  import opened TransferRow
  import opened TransferProtocol
  import opened TransferSafety

  lemma AfterLast(run: seq<Event>)
    requires |run| > 0
    ensures After(run) == Step(After(run[..|run| - 1]), run[|run| - 1])
  {
  }

  lemma AfterSnoc(run: seq<Event>, e: Event)
    ensures After(run + [e]) == Step(After(run), e)
  {
    assert (run + [e])[..|run + [e]| - 1] == run;
  }

  /** A row that was not there before the step is the fresh row of a Create. */
  lemma NewRowIsFresh(s: State, e: Event, id: TransferId)
    requires Inv(s) && id !in s.transfers && id in Step(s, e).transfers
    ensures e.Create? && e.id == id
    ensures Step(s, e).transfers[id] == NewTransfer(id, e.payoutId, e.taskId, e.userId, e.amount, s.now)
  {
    if e.Mark? && Enabled(s, e) {
      MarkedRowChanges(s, e.worker, e.jitter);
    }
    hide KeyOf, RowOk, Held, Paid, Inv, MarkedRow, ReconciledRow;
  }

  // ── Changes of state ────────────────────────────────────────────────────

  /** How often the status of a transfer changed during the run. */
  function Changes(run: seq<Event>, id: TransferId): nat {
    if |run| == 0 then 0 else
      var before := After(run[..|run| - 1]).transfers;
      var after := After(run).transfers;
      Changes(run[..|run| - 1], id) +
      (if id in before && id in after && before[id].status != after[id].status then 1 else 0)
  }

  /** The version of a row is exactly the number of changes of state it went through. */
  lemma {:induction false} VersionCountsChanges(run: seq<Event>, id: TransferId)
    ensures Changes(run, id) == if id in After(run).transfers then After(run).transfers[id].version else 0
  {
    if |run| > 0 {
      var prefix, e := run[..|run| - 1], run[|run| - 1];
      VersionCountsChanges(prefix, id);
      RunKeeps(prefix);
      AfterLast(run);
      if id in After(prefix).transfers {
        StepEvolves(After(prefix), e, id);
      } else if id in After(run).transfers {
        NewRowIsFresh(After(prefix), e, id);
      }
    }
  }

  lemma {:induction false} MaxAttemptsIsDefault(run: seq<Event>, id: TransferId)
    requires id in After(run).transfers
    ensures After(run).transfers[id].maxAttempts == DEFAULT_MAX_ATTEMPTS
  {
    if |run| > 0 {
      var prefix, e := run[..|run| - 1], run[|run| - 1];
      RunKeeps(prefix);
      AfterLast(run);
      if id in After(prefix).transfers {
        MaxAttemptsIsDefault(prefix, id);
        StepEvolves(After(prefix), e, id);
      } else {
        NewRowIsFresh(After(prefix), e, id);
      }
    }
  }

  // ── Calls to the provider ───────────────────────────────────────────────

  /** Some worker has claimed this transfer and has not called the provider yet. */
  predicate AboutToCall(s: State, id: TransferId) {
    exists w | w in s.workers :: s.workers[w].phase.Claimed? && s.workers[w].copy.id == id
  }

  predicate CallsFor(s: State, e: Event, id: TransferId) {
    e.CallProvider? && Enabled(s, e) && s.workers[e.worker].copy.id == id
  }

  function Calls(run: seq<Event>, id: TransferId): nat {
    if |run| == 0 then 0 else
      Calls(run[..|run| - 1], id) +
      (if CallsFor(After(run[..|run| - 1]), run[|run| - 1], id) then 1 else 0)
  }

  function AttemptCount(s: State, id: TransferId): nat {
    if id in s.transfers then s.transfers[id].attemptCount else 0
  }

  /** What a row was charged for but has not used: one call, while a worker is about to make it. */
  function Reserved(s: State, id: TransferId): nat {
    if AboutToCall(s, id) then 1 else 0
  }

  lemma CallerIsUnique(s: State, v: nat, w: nat)
    requires Inv(s) && v in s.workers && w in s.workers
    requires Holding(s.workers[v]) && Holding(s.workers[w]) && s.workers[v].copy.id == s.workers[w].copy.id
    ensures v == w
  {
    HolderIsUnique(s, v, w);
  }

  /** A transfer somebody is about to call for is not claimable. */
  lemma ReservedNotClaimable(s: State, id: TransferId)
    requires Inv(s) && AboutToCall(s, id)
    ensures id in s.transfers && !Claimable(s.transfers[id])
  {
    var w :| w in s.workers && s.workers[w].phase.Claimed? && s.workers[w].copy.id == id;
    assert WorkerOk(s, s.workers[w]);
  }

  lemma MarkKeepsAttempts(s: State, e: Event, id: TransferId)
    requires RowsOk(s) && WorkersOk(s) && e.Mark?
    ensures AttemptCount(Step(s, e), id) == AttemptCount(s, id)
  {
    if Step(s, e) != s {
      MarkedRowChanges(s, e.worker, e.jitter);
      hide RowsOk, WorkersOk, OneChange, MarkedRow, KeyOf, Paid;
    }
  }

  lemma OthersKeepAttempts(s: State, e: Event, id: TransferId)
    requires !e.Mark? && !e.Create?
    ensures AttemptCount(Step(s, e), id) ==
      AttemptCount(s, id) + (if e.Start? && e.id == id && Enabled(s, e) then 1 else 0)
  {
    hide KeyOf, RowOk, Held, Paid, AfterCall;
  }

  lemma AttemptsGrow(s: State, e: Event, id: TransferId)
    requires Inv(s)
    ensures AttemptCount(Step(s, e), id) ==
      AttemptCount(s, id) + (if e.Start? && e.id == id && Enabled(s, e) then 1 else 0)
  {
    if e.Mark? {
      MarkKeepsAttempts(s, e, id);
    } else if !e.Create? {
      OthersKeepAttempts(s, e, id);
    }
    hide RowsOk, WorkersOk, KeyOf, HasPayout;
  }

  /** A worker about to call was that before, or has just claimed. */
  lemma ClaimedBefore(s: State, e: Event, w: nat)
    requires w in Step(s, e).workers && Step(s, e).workers[w].phase.Claimed?
    ensures (w in s.workers && s.workers[w] == Step(s, e).workers[w])
         || (e.Start? && e.worker == w && Enabled(s, e) && Step(s, e).workers[w].copy.id == s.transfers[e.id].id)
  {
    hide KeyOf, Held, Paid, MarkedRow, ReconciledRow, AfterCall, Complete, Fail, NewTransfer;
  }

  /** Only a claim makes a worker about to call. */
  lemma ReservedShrinks(s: State, e: Event, id: TransferId)
    requires Inv(s) && AboutToCall(Step(s, e), id) && !(e.Start? && e.id == id)
    ensures AboutToCall(s, id)
  {
    var w :| w in Step(s, e).workers && Step(s, e).workers[w].phase.Claimed? && Step(s, e).workers[w].copy.id == id;
    ClaimedBefore(s, e, w);
    hide Step, RowOk, KeyOf, OrderOk, PaidOk, WorkersOk, NumbersDistinct, LogOk;
  }

  lemma CallUsesReserve(s: State, e: Event, id: TransferId)
    requires Inv(s) && CallsFor(s, e, id)
    ensures AboutToCall(s, id) && !AboutToCall(Step(s, e), id)
  {
    var s' := Step(s, e);
    forall w | w in s'.workers && s'.workers[w].copy.id == id ensures !s'.workers[w].phase.Claimed? {
      if w != e.worker && s.workers[w].phase.Claimed? {
        CallerIsUnique(s, w, e.worker);
      }
    }
  }

  lemma CallBudgetStep(s: State, e: Event, id: TransferId, calls: nat)
    requires Inv(s) && calls + Reserved(s, id) <= AttemptCount(s, id)
    ensures (calls + if CallsFor(s, e, id) then 1 else 0) + Reserved(Step(s, e), id) <= AttemptCount(Step(s, e), id)
  {
    hide Inv, Step, Enabled;
    AttemptsGrow(s, e, id);
    if CallsFor(s, e, id) {
      CallUsesReserve(s, e, id);
    } else if e.Start? && e.id == id {
      StartReserves(s, e);
    } else if AboutToCall(Step(s, e), id) {
      ReservedShrinks(s, e, id);
    }
  }

  lemma StartReserves(s: State, e: Event)
    requires Inv(s) && e.Start?
    ensures Enabled(s, e) ==> !AboutToCall(s, e.id)
    ensures !Enabled(s, e) ==> Step(s, e) == s
  {
    if AboutToCall(s, e.id) {
      ReservedNotClaimable(s, e.id);
    }
  }

  lemma {:induction false} CallBudget(run: seq<Event>, id: TransferId)
    ensures Calls(run, id) + Reserved(After(run), id) <= AttemptCount(After(run), id)
  {
    if |run| > 0 {
      var prefix, e := run[..|run| - 1], run[|run| - 1];
      CallBudget(prefix, id);
      RunKeeps(prefix);
      AfterLast(run);
      CallBudgetStep(After(prefix), e, id, Calls(prefix, id));
    }
  }

  /** Whatever jobs are enqueued, a transfer changes state at most 20 times and is sent at most 10 times. */
  lemma TransferIsBounded(run: seq<Event>, id: TransferId)
    ensures Changes(run, id) <= 2 * DEFAULT_MAX_ATTEMPTS
    ensures Calls(run, id) <= DEFAULT_MAX_ATTEMPTS
  {
    RunKeeps(run);
    VersionCountsChanges(run, id);
    CallBudget(run, id);
    if id in After(run).transfers {
      MaxAttemptsIsDefault(run, id);
      assert RowOk(After(run).transfers[id]);
    }
  }

  // ── Retry delays ────────────────────────────────────────────────────────

  predicate Schedules(s: State, e: Event, id: TransferId) {
    && id in s.transfers && id in Step(s, e).transfers
    && s.transfers[id].status != Retrying && Step(s, e).transfers[id].status == Retrying
    && Step(s, e).transfers[id].nextRetryAt.Some?
  }

  /** The waits a run asked for before further attempts of this transfer. */
  function Waits(run: seq<Event>, id: TransferId): real {
    if |run| == 0 then 0.0 else
      var s := After(run[..|run| - 1]);
      Waits(run[..|run| - 1], id) +
      (if Schedules(s, run[|run| - 1], id)
       then Step(s, run[|run| - 1]).transfers[id].nextRetryAt.value - s.now else 0.0)
  }

  /** How many attempts of the row may have scheduled a retry. */
  function Rescheduled(row: Transfer): nat {
    if row.status == Retrying || row.attemptCount == 0 then row.attemptCount else row.attemptCount - 1
  }

  function WaitCap(s: State, id: TransferId): real {
    if id in s.transfers then BackoffSum(Rescheduled(s.transfers[id])) * 1.2 else 0.0
  }

  lemma MarkSchedules(s: State, e: Event, id: TransferId)
    requires RowsOk(s) && WorkersOk(s) && e.Mark? && Schedules(s, e, id)
    ensures s.transfers[id].status == Processing && IsJitter(s.transfers[id].attemptCount, e.jitter)
    ensures Step(s, e).transfers[id].nextRetryAt.value == s.now + RetryDelay(s.transfers[id].attemptCount, e.jitter)
  {
    MarkedRowChanges(s, e.worker, e.jitter);
    hide RowsOk, WorkersOk, OneChange, KeyOf, Paid, Backoff;
  }

  lemma ReconcileSchedules(s: State, e: Event, id: TransferId)
    requires !e.Mark? && Schedules(s, e, id)
    ensures e.Reconcile? && s.transfers[id].status == Processing && IsJitter(s.transfers[id].attemptCount, e.jitter)
    ensures Step(s, e).transfers[id].nextRetryAt.value == s.now + RetryDelay(s.transfers[id].attemptCount, e.jitter)
  {
    hide KeyOf, Paid, Held, Backoff;
  }

  lemma ScheduledWait(s: State, e: Event, id: TransferId)
    requires Inv(s) && Schedules(s, e, id)
    ensures s.transfers[id].status == Processing && s.transfers[id].attemptCount >= 1
    ensures Step(s, e).transfers[id].attemptCount == s.transfers[id].attemptCount
    ensures Step(s, e).transfers[id].nextRetryAt.value - s.now <= Backoff(s.transfers[id].attemptCount) * 1.2
  {
    assert RowOk(s.transfers[id]);
    AttemptsGrow(s, e, id);
    hide Step, Enabled, RowsOk, WorkersOk, Backoff, IsJitter, RetryDelay;
    if e.Mark? {
      MarkSchedules(s, e, id);
    } else {
      ReconcileSchedules(s, e, id);
    }
    var n := s.transfers[id].attemptCount;
    BackoffSchedule(n, n, e.jitter);
  }

  /** No wait is asked for, and the cap does not fall. */
  lemma QuietStep(s: State, e: Event, id: TransferId)
    requires Inv(s) && id in s.transfers && !Schedules(s, e, id)
    ensures WaitCap(s, id) <= WaitCap(Step(s, e), id)
  {
    assert RowOk(s.transfers[id]);
    StepEvolves(s, e, id);
    AttemptsGrow(s, e, id);
    hide Inv, Step, BackoffSum;
    BackoffSumGrows(Rescheduled(s.transfers[id]), Rescheduled(Step(s, e).transfers[id]));
  }

  lemma SchedulingStep(s: State, e: Event, id: TransferId)
    requires Inv(s) && Schedules(s, e, id)
    ensures WaitCap(s, id) + (Step(s, e).transfers[id].nextRetryAt.value - s.now) <= WaitCap(Step(s, e), id)
  {
    hide Inv, Step, Backoff;
    ScheduledWait(s, e, id);
    CapGrowsBy(s.transfers[id], Step(s, e).transfers[id]);
  }

  lemma CapGrowsBy(row: Transfer, row': Transfer)
    requires row.status == Processing && row'.status == Retrying && row'.attemptCount == row.attemptCount >= 1
    ensures BackoffSum(Rescheduled(row')) * 1.2 == BackoffSum(Rescheduled(row)) * 1.2 + Backoff(row.attemptCount) * 1.2
  {
    hide Backoff;
  }

  lemma WaitCapStep(s: State, e: Event, id: TransferId, waits: real)
    requires Inv(s) && waits <= WaitCap(s, id)
    ensures waits + (if Schedules(s, e, id) then Step(s, e).transfers[id].nextRetryAt.value - s.now else 0.0)
            <= WaitCap(Step(s, e), id)
  {
    if id in s.transfers {
      hide Inv, Step, WaitCap;
      if Schedules(s, e, id) {
        SchedulingStep(s, e, id);
      } else {
        QuietStep(s, e, id);
      }
    } else if id in Step(s, e).transfers {
      NewRowIsFresh(s, e, id);
      hide Inv, Step, KeyOf;
    }
  }

  lemma {:induction false} WaitsAreCapped(run: seq<Event>, id: TransferId)
    ensures Waits(run, id) <= WaitCap(After(run), id)
  {
    if |run| > 0 {
      var prefix, e := run[..|run| - 1], run[|run| - 1];
      WaitsAreCapped(prefix, id);
      RunKeeps(prefix);
      AfterLast(run);
      WaitCapStep(After(prefix), e, id, Waits(prefix, id));
    }
  }

  /** All the retry delays of a transfer, jitter included, come to at most 17820 seconds. */
  lemma TotalWaitBounded(run: seq<Event>, id: TransferId)
    ensures Waits(run, id) <= 17820.0
  {
    WaitsAreCapped(run, id);
    RunKeeps(run);
    if id in After(run).transfers {
      var row := After(run).transfers[id];
      MaxAttemptsIsDefault(run, id);
      assert RowOk(row);
      BackoffSumGrows(Rescheduled(row), DEFAULT_MAX_ATTEMPTS - 1);
      DefaultBackoffSum();
    }
  }

  // ── Money ───────────────────────────────────────────────────────────────

  function TotalPaid(paid: seq<Payment>): int {
    if |paid| == 0 then 0 else TotalPaid(paid[..|paid| - 1]) + paid[|paid| - 1].amount
  }

  /** The amounts of the listed transfers whose key the provider has paid. */
  function PaidAmounts(order: seq<TransferId>, transfers: map<TransferId, Transfer>, paid: seq<Payment>): int
    requires forall i | 0 <= i < |order| :: order[i] in transfers
  {
    if |order| == 0 then 0 else
      var last := transfers[order[|order| - 1]];
      PaidAmounts(order[..|order| - 1], transfers, paid) +
      (if Paid(paid, last.idempotencyKey) then last.amount else 0)
  }

  /** The total depends on keys and amounts only. */
  lemma {:induction false} PaidAmountsSame(order: seq<TransferId>, a: map<TransferId, Transfer>, b: map<TransferId, Transfer>,
                        p: seq<Payment>, q: seq<Payment>)
    requires forall i | 0 <= i < |order| ::
      && order[i] in a && order[i] in b && a[order[i]].amount == b[order[i]].amount
      && a[order[i]].idempotencyKey == b[order[i]].idempotencyKey
      && (Paid(p, a[order[i]].idempotencyKey) <==> Paid(q, b[order[i]].idempotencyKey))
    ensures PaidAmounts(order, a, p) == PaidAmounts(order, b, q)
  {
    hide Paid;
    if |order| > 0 {
      PaidAmountsSame(order[..|order| - 1], a, b, p, q);
    }
  }

  lemma PaidAfterOne(paid: seq<Payment>, p: Payment, key: string)
    ensures Paid(paid + [p], key) <==> Paid(paid, key) || p.key == key
  {
    if Paid(paid, key) {
      var i :| 0 <= i < |paid| && paid[i].key == key;
      assert (paid + [p])[i].key == key;
    }
    assert (paid + [p])[|paid|] == p;
  }

  /** One more payment, for one listed transfer, adds that transfer's amount. */
  lemma {:induction false} PaidAmountsAdd(order: seq<TransferId>, transfers: map<TransferId, Transfer>, paid: seq<Payment>, id: TransferId)
    requires forall i | 0 <= i < |order| :: order[i] in transfers
    requires forall i, j | 0 <= i < j < |order| :: order[i] != order[j]
    requires forall t | t in transfers :: transfers[t].idempotencyKey == KeyOf(t)
    requires id in transfers && !Paid(paid, KeyOf(id))
    ensures var p := Payment(KeyOf(id), transfers[id].payoutId, transfers[id].amount);
      PaidAmounts(order, transfers, paid + [p]) ==
      PaidAmounts(order, transfers, paid) + (if id in order then transfers[id].amount else 0)
  {
    if |order| > 0 {
      var last := order[|order| - 1];
      var p := Payment(KeyOf(id), transfers[id].payoutId, transfers[id].amount);
      PaidAmountsAdd(order[..|order| - 1], transfers, paid, id);
      PaidAfterOne(paid, p, KeyOf(last));
      KeyInvertible(last);
      KeyInvertible(id);
      hide KeyOf, IdOf, Paid;
      assert order == order[..|order| - 1] + [last];
    }
  }

  predicate Balanced(s: State)
    requires OrderOk(s)
  {
    TotalPaid(s.paid) == PaidAmounts(s.order, s.transfers, s.paid)
  }

  lemma TotalsAfterCall(order: seq<TransferId>, transfers: map<TransferId, Transfer>, paid: seq<Payment>, id: TransferId, pays: bool)
    requires forall i | 0 <= i < |order| :: order[i] in transfers
    requires forall i, j | 0 <= i < j < |order| :: order[i] != order[j]
    requires forall t | t in transfers :: transfers[t].idempotencyKey == KeyOf(t)
    requires id in transfers && id in order
    requires TotalPaid(paid) == PaidAmounts(order, transfers, paid)
    ensures var paid' := AfterCall(paid, transfers[id], pays);
      TotalPaid(paid') == PaidAmounts(order, transfers, paid')
  {
    hide KeyOf, Paid;
    if pays && !Paid(paid, KeyOf(id)) {
      PaidAmountsAdd(order, transfers, paid, id);
    }
  }

  lemma BalancedByCall(s: State, e: Event)
    requires Inv(s) && Balanced(s) && Enabled(s, e) && e.CallProvider? && Inv(Do(s, e))
    ensures Balanced(Do(s, e))
  {
    HolderHasRow(s, e.worker);
    hide IdOf, KeyOf, RowOk, LogOk, PaidOk, NumbersDistinct, WorkersOk, Paid, AfterCall, TotalPaid, PaidAmounts;
    TotalsAfterCall(s.order, s.transfers, s.paid, s.workers[e.worker].copy.id, e.pays);
  }

  lemma HolderHasRow(s: State, w: nat)
    requires WorkersOk(s) && w in s.workers && Holding(s.workers[w])
    ensures s.workers[w].copy.id in s.transfers && s.workers[w].copy == s.transfers[s.workers[w].copy.id]
  {
    assert WorkerOk(s, s.workers[w]);
  }

  /** Nothing was paid under a key before its transfer exists. */
  lemma NewKeyUnpaid(s: State, id: TransferId)
    requires PaidOk(s) && id !in s.transfers
    ensures !Paid(s.paid, KeyOf(id))
  {
    KeyInvertible(id);
    forall i | 0 <= i < |s.paid| ensures s.paid[i].key != KeyOf(id) {
      assert Backed(s.transfers, s.paid[i]);
    }
    hide KeyOf, IdOf;
  }

  lemma PaidAmountsNew(order: seq<TransferId>, transfers: map<TransferId, Transfer>, paid: seq<Payment>, id: TransferId, row: Transfer)
    requires forall i | 0 <= i < |order| :: order[i] in transfers && order[i] != id
    requires !Paid(paid, row.idempotencyKey)
    ensures PaidAmounts(order + [id], transfers[id := row], paid) == PaidAmounts(order, transfers, paid)
  {
    hide Paid;
    PaidAmountsSame(order, transfers, transfers[id := row], paid, paid);
    assert (order + [id])[..|order|] == order;
  }

  lemma BalancedByCreate(s: State, e: Event)
    requires Inv(s) && Balanced(s) && Enabled(s, e) && e.Create? && Inv(Do(s, e))
    ensures Balanced(Do(s, e))
  {
    NewKeyUnpaid(s, e.id);
    hide KeyOf, RowsOk, LogOk, PaidOk, NumbersDistinct, WorkersOk, Paid, TotalPaid, PaidAmounts, HasPayout;
    PaidAmountsNew(s.order, s.transfers, s.paid, e.id, Do(s, e).transfers[e.id]);
  }

  lemma IntentsStay(s: State, e: Event)
    requires Inv(s)
    ensures forall t | t in s.transfers :: t in Step(s, e).transfers && SameIntent(s.transfers[t], Step(s, e).transfers[t])
  {
    forall t | t in s.transfers ensures t in Step(s, e).transfers && SameIntent(s.transfers[t], Step(s, e).transfers[t]) {
      StepEvolves(s, e, t);
    }
    hide Inv, Step;
  }

  lemma BalancedOtherwise(s: State, e: Event)
    requires Inv(s) && Balanced(s) && !e.CallProvider? && !e.Create? && Inv(Step(s, e))
    ensures Balanced(Step(s, e))
  {
    hide Step, Paid, TotalPaid, PaidAmounts, RowsOk, PaidOk, WorkersOk, NumbersDistinct, LogOk;
    BooksUntouched(s, e);
    IntentsStay(s, e);
    PaidAmountsSame(s.order, s.transfers, Step(s, e).transfers, s.paid, s.paid);
  }

  lemma BalancedStep(s: State, e: Event)
    requires Inv(s) && Balanced(s)
    ensures Inv(Step(s, e)) && Balanced(Step(s, e))
  {
    StepKeeps(s, e);
    hide RowsOk, OrderOk, PaidOk, WorkersOk, NumbersDistinct, LogOk, Balanced, Enabled, Do;
    if Step(s, e) != s {
      if e.CallProvider? {
        BalancedByCall(s, e);
      } else if e.Create? {
        BalancedByCreate(s, e);
      } else {
        BalancedOtherwise(s, e);
      }
    }
  }

  lemma BooksUntouched(s: State, e: Event)
    requires !e.CallProvider? && !e.Create?
    ensures Step(s, e).order == s.order && Step(s, e).paid == s.paid
  {
    hide RowOk, KeyOf, Held, Paid, MarkedRow, ReconciledRow;
  }

  /** Money leaves once per paid transfer: the provider's total is the sum of those transfers' amounts. */
  lemma {:induction false} MoneyConserved(run: seq<Event>)
    ensures Inv(After(run)) && Balanced(After(run))
  {
    if |run| > 0 {
      MoneyConserved(run[..|run| - 1]);
      AfterLast(run);
      BalancedStep(After(run[..|run| - 1]), run[|run| - 1]);
    }
  }
}
