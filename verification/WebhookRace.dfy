/**
 Interleaved charge.success deliveries for one task that has a payout row. The compare-and-set on
 the payout's lock_version takes the row lock, which is held until the insert of the transaction
 commits; a handler that reads a stale version, or finds its reference booked, gives up.
 */
module WebhookRace {
  import opened Common

  datatype Phase =
    | Arrived
    | ReadVersion(version: nat)   // the payout row has been read
    | Locked                      // the compare-and-set went through; the row lock is held
    | Checked(awaiting: bool)     // nothing is booked under the reference; the task has been loaded
    | Inserted(awaiting: bool)    // the transaction is committed, the lock released
    | Finished

  datatype Handler = Handler(reference: string, phase: Phase)

  /** lockVersion is the committed value; committed lists the references of SUCCESS transactions. */
  datatype State = State(
    lockVersion: nat,
    holder: Option<nat>,
    committed: seq<string>,
    fired: seq<string>,
    awaitingPayment: bool,
    handlers: map<nat, Handler>)

  datatype Event =
    | Deliver(handler: nat, reference: string)
    | Read(handler: nat)
    | CompareAndSet(handler: nat)
    | CheckBooked(handler: nat, commits: bool)
    | Reject(handler: nat, commits: bool)
    | Insert(handler: nat)
    | Advance(handler: nat)
    | Crash(handler: nat)
    | Reopen                        // the task's transfer failed; a charge is welcome again

  const START: State := State(1, None, [], [], true, map[])

  predicate In(s: State, h: nat, phase: Phase) {
    h in s.handlers && s.handlers[h].phase == phase
  }

  /**
   A handler that loses the lock gives up; one that stops under the lock may leave the bumped version
   committed or rolled back. What a handler does to the task goes by the status it loaded before the
   insert, which other handlers may have changed since.
   */
  predicate Enabled(s: State, e: Event) {
    match e
    case Deliver(h, _) => h !in s.handlers
    case Read(h) => In(s, h, Arrived)
    case CompareAndSet(h) => h in s.handlers && s.handlers[h].phase.ReadVersion? && s.holder.None?
    case CheckBooked(h, _) => In(s, h, Locked)
    case Reject(h, _) => h in s.handlers && s.handlers[h].phase.Checked?
    case Insert(h) => h in s.handlers && s.handlers[h].phase.Checked?
    case Advance(h) => h in s.handlers && s.handlers[h].phase.Inserted?
    case Crash(h) => h in s.handlers && s.handlers[h].phase != Finished
    case Reopen => true
  }

  function Moved(s: State, h: nat, phase: Phase): State
    requires h in s.handlers
  {
    s.(handlers := s.handlers[h := s.handlers[h].(phase := phase)])
  }

  function Released(s: State, commits: bool): State {
    s.(holder := None, lockVersion := if commits then s.lockVersion + 1 else s.lockVersion)
  }

  function Do(s: State, e: Event): State
    requires Enabled(s, e)
  {
    match e
    case Deliver(h, reference) => s.(handlers := s.handlers[h := Handler(reference, Arrived)])
    case Read(h) => Moved(s, h, ReadVersion(s.lockVersion))
    case CompareAndSet(h) =>
      if s.handlers[h].phase.version == s.lockVersion then Moved(s, h, Locked).(holder := Some(h))
      else Moved(s, h, Finished)
    case CheckBooked(h, commits) =>
      if s.handlers[h].reference in s.committed then Released(Moved(s, h, Finished), commits)
      else Moved(s, h, Checked(s.awaitingPayment))
    case Reject(h, commits) => Released(Moved(s, h, Finished), commits)
    case Insert(h) =>
      Released(Moved(s, h, Inserted(s.handlers[h].phase.awaiting)), true).(committed := s.committed + [s.handlers[h].reference])
    case Advance(h) =>
      if s.handlers[h].phase.awaiting then Moved(s, h, Finished).(fired := s.fired + [s.handlers[h].reference], awaitingPayment := false)
      else Moved(s, h, Finished)
    case Crash(h) =>
      var stopped := Moved(s, h, Finished);
      if s.holder == Some(h) then Released(stopped, false) else stopped
    case Reopen => s.(awaitingPayment := true)
  }

  function Step(s: State, e: Event): State {
    if Enabled(s, e) then Do(s, e) else s
  }

  function From(s: State, run: seq<Event>): State {
    if |run| == 0 then s else Step(From(s, run[..|run| - 1]), run[|run| - 1])
  }

  function After(run: seq<Event>): State {
    From(START, run)
  }

  // ── The invariant ───────────────────────────────────────────────────────

  predicate Distinct(refs: seq<string>) {
    forall i, j | 0 <= i < j < |refs| :: refs[i] != refs[j]
  }

  /** Who is past the compare-and-set holds the row lock, and what it checked stays true. */
  predicate Locks(s: State) {
    && (forall h | h in s.handlers :: s.handlers[h].phase.Locked? || s.handlers[h].phase.Checked? ==> s.holder == Some(h))
    && (forall h | h in s.handlers :: s.handlers[h].phase.Checked? ==> s.handlers[h].reference !in s.committed)
  }

  /** Every reference is committed once and fired once, after its commit. */
  predicate Books(s: State) {
    Distinct(s.committed) && Distinct(s.fired) && (forall i | 0 <= i < |s.fired| :: s.fired[i] in s.committed)
  }

  predicate IsInserted(s: State, h: nat) {
    h in s.handlers && s.handlers[h].phase.Inserted?
  }

  /** Handlers about to fire are for different references, committed and not fired yet. */
  ghost predicate Pending(s: State) {
    && (forall h | IsInserted(s, h) :: s.handlers[h].reference in s.committed && s.handlers[h].reference !in s.fired)
    && (forall g, h | IsInserted(s, g) && IsInserted(s, h) && g != h :: s.handlers[g].reference != s.handlers[h].reference)
  }

  ghost predicate Inv(s: State) {
    Locks(s) && Books(s) && Pending(s)
  }

  lemma LocksKeep(s: State, e: Event)
    requires Locks(s)
    ensures Locks(Step(s, e))
  {
  }

  lemma BooksKeep(s: State, e: Event)
    requires Inv(s)
    ensures Books(Step(s, e))
  {
    assert e.Advance? && Enabled(s, e) ==> IsInserted(s, e.handler);
  }

  lemma InsertKeepsPending(s: State, h: nat)
    requires Locks(s) && Books(s) && Pending(s) && Enabled(s, Insert(h))
    ensures Pending(Do(s, Insert(h)))
  {
    var s' := Do(s, Insert(h));
    assert forall g | IsInserted(s', g) :: g == h || (IsInserted(s, g) && s'.handlers[g] == s.handlers[g]);
    assert s'.committed == s.committed + [s.handlers[h].reference] && s'.fired == s.fired;
    hide Do, Locks, Distinct;
  }

  lemma AdvanceKeepsPending(s: State, h: nat)
    requires Pending(s) && Enabled(s, Advance(h))
    ensures Pending(Do(s, Advance(h)))
  {
    var s' := Do(s, Advance(h));
    assert IsInserted(s, h);
    assert forall g | IsInserted(s', g) :: g != h && IsInserted(s, g) && s'.handlers[g] == s.handlers[g];
    assert s'.committed == s.committed && (s'.fired == s.fired || s'.fired == s.fired + [s.handlers[h].reference]);
    hide Do;
  }

  lemma OthersKeepPending(s: State, e: Event)
    requires Pending(s) && Enabled(s, e) && !e.Insert? && !e.Advance?
    ensures Pending(Do(s, e))
  {
    var s' := Do(s, e);
    assert forall g | IsInserted(s', g) :: IsInserted(s, g) && s'.handlers[g] == s.handlers[g];
    assert s'.committed == s.committed && s'.fired == s.fired;
    hide Do;
  }

  lemma PendingKeeps(s: State, e: Event)
    requires Inv(s)
    ensures Pending(Step(s, e))
  {
    hide Locks, Books, Pending, Do;
    if Enabled(s, e) {
      match e
      case Insert(h) => InsertKeepsPending(s, h);
      case Advance(h) => AdvanceKeepsPending(s, h);
      case _ => OthersKeepPending(s, e);
    }
  }

  lemma StepKeeps(s: State, e: Event)
    requires Inv(s)
    ensures Inv(Step(s, e))
  {
    LocksKeep(s, e);
    BooksKeep(s, e);
    PendingKeeps(s, e);
    hide Locks, Books, Pending, Step;
  }

  lemma {:induction false} RunKeeps(run: seq<Event>)
    ensures Inv(After(run))
  {
    if |run| > 0 {
      RunKeeps(run[..|run| - 1]);
      StepKeeps(After(run[..|run| - 1]), run[|run| - 1]);
    }
  }

  /** However deliveries interleave and crash, a reference gets one SUCCESS transaction and fires one payout. */
  lemma OncePerReference(run: seq<Event>)
    ensures Distinct(After(run).committed) && Distinct(After(run).fired)
    ensures forall i | 0 <= i < |After(run).fired| :: After(run).fired[i] in After(run).committed
  {
    RunKeeps(run);
  }

  predicate OneReference(run: seq<Event>, reference: string) {
    forall i | 0 <= i < |run| :: run[i].Deliver? ==> run[i].reference == reference
  }

  lemma OnlyThatReferenceStep(s: State, e: Event, reference: string)
    requires forall h | h in s.handlers :: s.handlers[h].reference == reference
    requires forall i | 0 <= i < |s.fired| :: s.fired[i] == reference
    requires e.Deliver? ==> e.reference == reference
    ensures forall h | h in Step(s, e).handlers :: Step(s, e).handlers[h].reference == reference
    ensures forall i | 0 <= i < |Step(s, e).fired| :: Step(s, e).fired[i] == reference
  {
  }

  lemma {:induction false} OnlyThatReference(run: seq<Event>, reference: string)
    requires OneReference(run, reference)
    ensures forall h | h in After(run).handlers :: After(run).handlers[h].reference == reference
    ensures forall i | 0 <= i < |After(run).fired| :: After(run).fired[i] == reference
  {
    if |run| > 0 {
      OnlyThatReference(run[..|run| - 1], reference);
      OnlyThatReferenceStep(After(run[..|run| - 1]), run[|run| - 1], reference);
      hide Step;
    }
  }

  /** When every delivery is of one payment, the payout fires at most once. */
  lemma OnePaymentFiresOnce(run: seq<Event>, reference: string)
    requires OneReference(run, reference)
    ensures After(run).fired == [] || After(run).fired == [reference]
  {
    RunKeeps(run);
    OnlyThatReference(run, reference);
    var fired := After(run).fired;
    var first, second := if |fired| > 0 then fired[0] else "", if |fired| > 1 then fired[1] else "";
    assert |fired| > 1 ==> first != second;
    if |fired| > 1 {
      assert false;
    }
  }

  // ── When the payout fires twice ─────────────────────────────────────────

  predicate IsDue(s: State, h: nat) {
    In(s, h, Inserted(true))
  }

  /** A handler passes its check and finds the task unpaid while another has yet to fire the payout. */
  predicate Overlaps(s: State, e: Event) {
    && e.CheckBooked? && Enabled(s, e) && s.handlers[e.handler].reference !in s.committed
    && s.awaitingPayment && exists g | g in s.handlers :: IsDue(s, g)
  }

  predicate Apart(s: State, run: seq<Event>) {
    |run| == 0 || (Apart(s, run[..|run| - 1]) && !Overlaps(From(s, run[..|run| - 1]), run[|run| - 1]))
  }

  function Reopens(run: seq<Event>): nat {
    if |run| == 0 then 0 else Reopens(run[..|run| - 1]) + if run[|run| - 1].Reopen? then 1 else 0
  }

  predicate FoundUnpaid(s: State, h: nat) {
    In(s, h, Checked(true)) || IsDue(s, h)
  }

  /** At most one handler is about to fire, and with it or the next charge the payout has fired n + 1 times. */
  ghost predicate Budget(s: State, n: nat) {
    && (forall g, h | FoundUnpaid(s, g) && FoundUnpaid(s, h) :: g == h)
    && |s.fired| <= n + 1
    && (s.awaitingPayment ==> |s.fired| <= n)
    && (forall h | FoundUnpaid(s, h) :: |s.fired| <= n)
  }

  lemma PassingKeepsBudget(s: State, h: nat, commits: bool, n: nat)
    requires Locks(s) && Budget(s, n) && Enabled(s, CheckBooked(h, commits)) && !Overlaps(s, CheckBooked(h, commits))
    ensures Budget(Do(s, CheckBooked(h, commits)), n)
  {
    var s' := Do(s, CheckBooked(h, commits));
    forall g | FoundUnpaid(s', g) ensures g == h || FoundUnpaid(s, g) {
    }
    if FoundUnpaid(s', h) {
      forall g | FoundUnpaid(s', g) ensures g == h {
        if g != h {
          assert IsDue(s, g);
        }
      }
    }
  }

  lemma FiringKeepsBudget(s: State, h: nat, n: nat)
    requires Budget(s, n) && Enabled(s, Advance(h))
    ensures Budget(Do(s, Advance(h)), n)
  {
    var s' := Do(s, Advance(h));
    forall g | FoundUnpaid(s', g) ensures g != h && FoundUnpaid(s, g) {
    }
    assert s.handlers[h].phase.awaiting ==> FoundUnpaid(s, h);
  }

  lemma OthersKeepBudget(s: State, e: Event, n: nat)
    requires Budget(s, n) && Enabled(s, e) && !e.CheckBooked? && !e.Advance?
    ensures Budget(Do(s, e), if e.Reopen? then n + 1 else n)
  {
    var s' := Do(s, e);
    forall g | FoundUnpaid(s', g) ensures FoundUnpaid(s, g) {
    }
    assert s'.fired == s.fired;
    hide Do, Enabled, FoundUnpaid;
  }

  lemma StepKeepsBudget(s: State, e: Event, n: nat)
    requires Locks(s) && Budget(s, n) && !Overlaps(s, e)
    ensures Budget(Step(s, e), if e.Reopen? then n + 1 else n)
  {
    hide Do, Budget, Locks, Overlaps;
    if Enabled(s, e) {
      match e
      case CheckBooked(h, commits) => PassingKeepsBudget(s, h, commits, n);
      case Advance(h) => FiringKeepsBudget(s, h, n);
      case _ => OthersKeepBudget(s, e, n);
    } else {
      assert !e.Reopen?;
    }
  }

  lemma {:induction false} RunKeepsBudget(s: State, run: seq<Event>, n: nat)
    requires Locks(s) && Budget(s, n) && Apart(s, run)
    ensures Budget(From(s, run), n + Reopens(run))
  {
    if |run| > 0 {
      var before, e := From(s, run[..|run| - 1]), run[|run| - 1];
      RunKeepsBudget(s, run[..|run| - 1], n);
      RunKeepsLocks(s, run[..|run| - 1]);
      StepKeepsBudget(before, e, n + Reopens(run[..|run| - 1]));
      hide Budget, Locks, Step, Overlaps;
    }
  }

  lemma {:induction false} RunKeepsLocks(s: State, run: seq<Event>)
    requires Locks(s)
    ensures Locks(From(s, run))
  {
    if |run| > 0 {
      RunKeepsLocks(s, run[..|run| - 1]);
      LocksKeep(From(s, run[..|run| - 1]), run[|run| - 1]);
      hide Locks, Step;
    }
  }

  /** Without an overlap the payout fires once, and once more for each time the task is reopened. */
  lemma ApartFiresOnce(run: seq<Event>)
    requires Apart(START, run)
    ensures |After(run).fired| <= 1 + Reopens(run)
  {
    RunKeepsBudget(START, run, 0);
  }

  ghost predicate CanFireTwice(s: State) {
    exists more: seq<Event> :: Apart(s, more) && Reopens(more) == 0 && |From(s, more).fired| >= 2
  }

  lemma FromSnoc(s: State, run: seq<Event>, e: Event)
    ensures From(s, run + [e]) == Step(From(s, run), e)
    ensures Apart(s, run + [e]) <==> Apart(s, run) && !Overlaps(From(s, run), e)
    ensures Reopens(run + [e]) == Reopens(run) + if e.Reopen? then 1 else 0
  {
    assert (run + [e])[..|run + [e]| - 1] == run;
  }

  /** The overlap goes through: the second inserts, then both fire. */
  lemma OverlapFiresBoth(s: State, h: nat, commits: bool, g: nat)
    requires Overlaps(s, CheckBooked(h, commits)) && IsDue(s, g)
    ensures var t := Do(s, CheckBooked(h, commits)); var more := [Insert(h)] + [Advance(g)] + [Advance(h)];
      && From(t, more).fired == s.fired + [s.handlers[g].reference, s.handlers[h].reference]
      && Apart(t, more) && Reopens(more) == 0
  {
    var t := Do(s, CheckBooked(h, commits));
    var more := [Insert(h)];
    assert [] + more == more;
    FromSnoc(t, [], Insert(h));
    FromSnoc(t, more, Advance(g));
    FromSnoc(t, more + [Advance(g)], Advance(h));
    hide From, Apart, Reopens;
    assert From(t, more).fired == s.fired;
    assert From(t, more + [Advance(g)]).fired == s.fired + [s.handlers[g].reference];
  }

  /**
   On a run with no overlap so far and no transfer failed, a handler checks its reference: from there
   the payout can fire twice without another overlap exactly when this check is one.
   */
  lemma FiresTwiceExactlyOnOverlap(run: seq<Event>, h: nat, commits: bool)
    requires Apart(START, run) && Reopens(run) == 0 && Enabled(After(run), CheckBooked(h, commits))
    ensures CanFireTwice(Do(After(run), CheckBooked(h, commits))) <==> Overlaps(After(run), CheckBooked(h, commits))
  {
    var s := After(run);
    var t := Do(s, CheckBooked(h, commits));
    if Overlaps(s, CheckBooked(h, commits)) {
      var g :| g in s.handlers && IsDue(s, g);
      OverlapFiresBoth(s, h, commits, g);
    } else {
      RunKeepsBudget(START, run, 0);
      RunKeepsLocks(START, run);
      StepKeepsBudget(s, CheckBooked(h, commits), 0);
      LocksKeep(s, CheckBooked(h, commits));
      forall more: seq<Event> | Apart(t, more) && Reopens(more) == 0 ensures |From(t, more).fired| <= 1 {
        RunKeepsBudget(t, more, 0);
      }
    }
    hide From, Apart, Reopens, Locks, Overlaps, Do;
  }

  // ── When a booked payment is lost ───────────────────────────────────────

  /** A handler that found the task unpaid has yet to fire the payout for the reference. */
  predicate DueFor(s: State, reference: string) {
    exists h | h in s.handlers :: IsDue(s, h) && s.handlers[h].reference == reference
  }

  /** Booked, so that every redelivery is skipped, and nobody left to fire the payout. */
  predicate Lost(s: State, reference: string) {
    reference in s.committed && reference !in s.fired && !DueFor(s, reference)
  }

  /** Who is due after a step was due before, or had checked its reference. */
  lemma DueBefore(s: State, e: Event, h: nat)
    requires IsDue(Step(s, e), h)
    ensures h in s.handlers && s.handlers[h].reference == Step(s, e).handlers[h].reference
    ensures IsDue(s, h) || s.handlers[h].phase.Checked?
  {
  }

  lemma LostStays(s: State, e: Event, reference: string)
    requires Locks(s) && Lost(s, reference)
    ensures Lost(Step(s, e), reference)
  {
    var s' := Step(s, e);
    forall h | h in s'.handlers && IsDue(s', h) ensures s'.handlers[h].reference != reference {
      DueBefore(s, e, h);
    }
    assert e.Advance? && Enabled(s, e) && s.handlers[e.handler].phase.awaiting ==> IsDue(s, e.handler);
  }

  lemma {:induction false} LostForGood(s: State, more: seq<Event>, reference: string)
    requires Locks(s) && Lost(s, reference)
    ensures Lost(From(s, more), reference)
  {
    if |more| > 0 {
      LostForGood(s, more[..|more| - 1], reference);
      RunKeepsLocks(s, more[..|more| - 1]);
      LostStays(From(s, more[..|more| - 1]), more[|more| - 1], reference);
      hide Locks, Lost, Step;
    }
  }

  ghost predicate CanFire(s: State, reference: string) {
    exists more: seq<Event> :: reference in From(s, more).fired
  }

  /** A booked payment that has not fired can still do so exactly while a handler is due to. */
  lemma FiresUnlessLost(run: seq<Event>, reference: string)
    requires reference in After(run).committed && reference !in After(run).fired
    ensures CanFire(After(run), reference) <==> DueFor(After(run), reference)
  {
    var s := After(run);
    RunKeepsLocks(START, run);
    if DueFor(s, reference) {
      var h :| h in s.handlers && IsDue(s, h) && s.handlers[h].reference == reference;
      FromSnoc(s, [], Advance(h));
      var fired := From(s, [] + [Advance(h)]).fired;
      assert fired == s.fired + [reference];
      assert fired[|s.fired|] == reference;
    } else {
      forall more: seq<Event> ensures reference !in From(s, more).fired {
        LostForGood(s, more, reference);
      }
    }
    hide From, Locks;
  }

  // ── Two payments of one task ────────────────────────────────────────────

  const FIRST_INSERTED: seq<Event> :=
    [Deliver(1, "r1")] + [Read(1)] + [CompareAndSet(1)] + [CheckBooked(1, true)] + [Insert(1)]

  const BOTH_INSERTED: seq<Event> :=
    FIRST_INSERTED + [Deliver(2, "r2")] + [Read(2)] + [CompareAndSet(2)] + [CheckBooked(2, true)] + [Insert(2)]

  lemma AfterSnoc(run: seq<Event>, e: Event)
    ensures After(run + [e]) == Step(After(run), e)
  {
    FromSnoc(START, run, e);
  }

  lemma FirstInserted()
    ensures After(FIRST_INSERTED) == State(2, None, ["r1"], [], true, map[1 := Handler("r1", Inserted(true))])
  {
    var run1 := [Deliver(1, "r1")];
    AfterSnoc([], Deliver(1, "r1"));
    assert [] + run1 == run1;
    AfterSnoc(run1, Read(1));
    AfterSnoc(run1 + [Read(1)], CompareAndSet(1));
    AfterSnoc(run1 + [Read(1)] + [CompareAndSet(1)], CheckBooked(1, true));
    AfterSnoc(run1 + [Read(1)] + [CompareAndSet(1)] + [CheckBooked(1, true)], Insert(1));
    hide After;
    assert After(run1).handlers == map[1 := Handler("r1", Arrived)];
  }

  /** The handler crashes after its insert: the payment is booked and can never fire. */
  lemma CrashLosesPayment()
    ensures Lost(After(FIRST_INSERTED + [Crash(1)]), "r1")
  {
    FirstInserted();
    AfterSnoc(FIRST_INSERTED, Crash(1));
    hide After;
    var s := Step(After(FIRST_INSERTED), Crash(1));
    assert s.committed[0] == "r1" && s.handlers[1].phase == Finished;
  }

  lemma BothInserted()
    ensures After(BOTH_INSERTED) == State(3, None, ["r1", "r2"], [], true,
      map[1 := Handler("r1", Inserted(true)), 2 := Handler("r2", Inserted(true))])
  {
    FirstInserted();
    var run := FIRST_INSERTED;
    AfterSnoc(run, Deliver(2, "r2"));
    AfterSnoc(run + [Deliver(2, "r2")], Read(2));
    AfterSnoc(run + [Deliver(2, "r2")] + [Read(2)], CompareAndSet(2));
    AfterSnoc(run + [Deliver(2, "r2")] + [Read(2)] + [CompareAndSet(2)], CheckBooked(2, true));
    AfterSnoc(run + [Deliver(2, "r2")] + [Read(2)] + [CompareAndSet(2)] + [CheckBooked(2, true)], Insert(2));
    hide After;
    assert "r1"[1] != "r2"[1];
  }

  /** Two payments of one task can each see it unpaid, and each fires the payout. */
  lemma TwoPaymentsFireTwice()
    ensures After(BOTH_INSERTED + [Advance(1)] + [Advance(2)]).fired == ["r1", "r2"]
  {
    BothInserted();
    AfterSnoc(BOTH_INSERTED, Advance(1));
    AfterSnoc(BOTH_INSERTED + [Advance(1)], Advance(2));
  }
}
