/**
 Interleaved charge.success deliveries that take no lock: debt settlements, and charges for a task
 without a payout row. The check for the reference and the insert of the transaction are two
 statements, and no constraint keeps a reference unique.
 */
module BookingRace {
  import opened Common

  datatype Phase =
    | Arrived
    | Checked     // nothing is booked under the reference
    | Inserted    // the transaction is committed
    | Finished

  datatype Handler = Handler(reference: string, phase: Phase)

  /** booked lists the references of SUCCESS transactions, credited those whose payment took effect. */
  datatype State = State(booked: seq<string>, credited: seq<string>, handlers: map<nat, Handler>)

  datatype Event =
    | Deliver(handler: nat, reference: string)
    | Check(handler: nat)
    | Insert(handler: nat)
    | Credit(handler: nat)
    | Crash(handler: nat)

  const START := State([], [], map[])

  predicate In(s: State, h: nat, phase: Phase) {
    h in s.handlers && s.handlers[h].phase == phase
  }

  predicate Enabled(s: State, e: Event) {
    match e
    case Deliver(h, _) => h !in s.handlers
    case Check(h) => In(s, h, Arrived)
    case Insert(h) => In(s, h, Checked)
    case Credit(h) => In(s, h, Inserted)
    case Crash(h) => h in s.handlers
  }

  function Moved(s: State, h: nat, phase: Phase): State
    requires h in s.handlers
  {
    s.(handlers := s.handlers[h := s.handlers[h].(phase := phase)])
  }

  function Do(s: State, e: Event): State
    requires Enabled(s, e)
  {
    match e
    case Deliver(h, reference) => s.(handlers := s.handlers[h := Handler(reference, Arrived)])
    case Check(h) => Moved(s, h, if s.handlers[h].reference in s.booked then Finished else Checked)
    case Insert(h) => Moved(s, h, Inserted).(booked := s.booked + [s.handlers[h].reference])
    case Credit(h) => Moved(s, h, Finished).(credited := s.credited + [s.handlers[h].reference])
    case Crash(h) => Moved(s, h, Finished)
  }

  function Step(s: State, e: Event): State {
    if Enabled(s, e) then Do(s, e) else s
  }

  function From(s: State, run: seq<Event>): State {
    if |run| == 0 then s else Step(From(s, run[..|run| - 1]), run[|run| - 1])
  }

  lemma FromSnoc(s: State, run: seq<Event>, e: Event)
    ensures From(s, run + [e]) == Step(From(s, run), e)
    ensures Apart(s, run + [e]) <==> Apart(s, run) && !Overlaps(From(s, run), e)
  {
    assert (run + [e])[..|run + [e]| - 1] == run;
  }

  // ── Booked twice ────────────────────────────────────────────────────────

  function Count(refs: seq<string>, reference: string): nat {
    if |refs| == 0 then 0 else
      Count(refs[..|refs| - 1], reference) + (if refs[|refs| - 1] == reference then 1 else 0)
  }

  lemma CountOne(refs: seq<string>, last: string, reference: string)
    ensures Count(refs + [last], reference) == Count(refs, reference) + (if last == reference then 1 else 0)
  {
    assert (refs + [last])[..|refs|] == refs;
  }

  lemma {:induction false} CountZero(refs: seq<string>, reference: string)
    ensures Count(refs, reference) == 0 <==> reference !in refs
  {
    if |refs| > 0 {
      CountZero(refs[..|refs| - 1], reference);
      assert refs == refs[..|refs| - 1] + [refs[|refs| - 1]];
    }
  }

  predicate IsChecked(s: State, h: nat, reference: string) {
    In(s, h, Checked) && s.handlers[h].reference == reference
  }

  /** A handler passes its check while another of the same reference is between its check and its insert. */
  predicate Overlaps(s: State, e: Event) {
    && e.Check? && Enabled(s, e) && s.handlers[e.handler].reference !in s.booked
    && exists g | g in s.handlers :: IsChecked(s, g, s.handlers[e.handler].reference)
  }

  predicate Apart(s: State, run: seq<Event>) {
    |run| == 0 || (Apart(s, run[..|run| - 1]) && !Overlaps(From(s, run[..|run| - 1]), run[|run| - 1]))
  }

  /** Booked once at most, and not yet while a handler is about to book it; there is one such handler at most. */
  ghost predicate Once(s: State, reference: string) {
    && Count(s.booked, reference) <= 1
    && (forall h | IsChecked(s, h, reference) :: Count(s.booked, reference) == 0)
    && (forall g, h | IsChecked(s, g, reference) && IsChecked(s, h, reference) :: g == h)
  }

  /** Who is about to book the reference after a step was so before, or has just passed the check. */
  lemma CheckedBefore(s: State, e: Event, h: nat, reference: string)
    requires IsChecked(Step(s, e), h, reference)
    ensures IsChecked(s, h, reference) ||
      (e == Check(h) && Enabled(s, e) && s.handlers[h].reference == reference && reference !in s.booked)
    ensures e.Insert? && Enabled(s, e) ==> h != e.handler
  {
  }

  lemma BookedAfter(s: State, e: Event, reference: string)
    ensures Count(Step(s, e).booked, reference) == Count(s.booked, reference) +
      (if e.Insert? && Enabled(s, e) && IsChecked(s, e.handler, reference) then 1 else 0)
  {
    if e.Insert? && Enabled(s, e) {
      CountOne(s.booked, s.handlers[e.handler].reference, reference);
    }
    hide Count;
  }

  lemma StepKeepsOnce(s: State, e: Event, reference: string)
    requires Once(s, reference) && !Overlaps(s, e)
    ensures Once(Step(s, e), reference)
  {
    var s' := Step(s, e);
    CountZero(s.booked, reference);
    BookedAfter(s, e, reference);
    hide Count, Step;
    forall h | IsChecked(s', h, reference)
      ensures Count(s'.booked, reference) == 0
      ensures forall g | IsChecked(s', g, reference) :: g == h
    {
      CheckedBefore(s, e, h, reference);
      forall g | IsChecked(s', g, reference) ensures g == h {
        CheckedBefore(s, e, g, reference);
      }
    }
  }

  lemma {:induction false} RunKeepsOnce(s: State, run: seq<Event>, reference: string)
    requires Once(s, reference) && Apart(s, run)
    ensures Once(From(s, run), reference)
  {
    if |run| > 0 {
      RunKeepsOnce(s, run[..|run| - 1], reference);
      StepKeepsOnce(From(s, run[..|run| - 1]), run[|run| - 1], reference);
      hide Once, Step, Overlaps;
    }
  }

  /** Without an overlap a reference is booked once. */
  lemma ApartBooksOnce(run: seq<Event>, reference: string)
    requires Apart(START, run)
    ensures Count(From(START, run).booked, reference) <= 1
  {
    RunKeepsOnce(START, run, reference);
  }

  ghost predicate CanBookTwice(s: State, reference: string) {
    exists more: seq<Event> :: Apart(s, more) && Count(From(s, more).booked, reference) >= 2
  }

  lemma OverlapBooksBoth(s: State, h: nat, g: nat)
    requires Overlaps(s, Check(h)) && IsChecked(s, g, s.handlers[h].reference)
    ensures CanBookTwice(Step(s, Check(h)), s.handlers[h].reference)
  {
    var reference, t := s.handlers[h].reference, Step(s, Check(h));
    var more := [Insert(g)];
    assert [] + more == more;
    FromSnoc(t, [], Insert(g));
    FromSnoc(t, more, Insert(h));
    CountOne(t.booked, reference, reference);
    CountOne(t.booked + [reference], reference, reference);
    hide From, Apart, Count;
    assert From(t, more).booked == t.booked + [reference];
    assert From(t, more + [Insert(h)]).booked == t.booked + [reference] + [reference];
  }

  /**
   On a run with no overlap so far a handler checks its reference: from there it can be booked twice
   without another overlap exactly when this check is one.
   */
  lemma BookedTwiceExactlyOnOverlap(run: seq<Event>, h: nat)
    requires Apart(START, run) && Enabled(From(START, run), Check(h))
    ensures var s := From(START, run);
      CanBookTwice(Step(s, Check(h)), s.handlers[h].reference) <==> Overlaps(s, Check(h))
  {
    var s := From(START, run);
    var reference, t := s.handlers[h].reference, Step(s, Check(h));
    if Overlaps(s, Check(h)) {
      var g :| g in s.handlers && IsChecked(s, g, reference);
      OverlapBooksBoth(s, h, g);
    } else {
      RunKeepsOnce(START, run, reference);
      StepKeepsOnce(s, Check(h), reference);
      forall more: seq<Event> | Apart(t, more) ensures Count(From(t, more).booked, reference) <= 1 {
        RunKeepsOnce(t, more, reference);
      }
    }
    hide From, Apart, Count, Overlaps;
  }

  // ── Booked but without effect ───────────────────────────────────────────

  /** A handler that passed its check for the reference has yet to credit it. */
  predicate IsOpen(s: State, h: nat, reference: string) {
    h in s.handlers && s.handlers[h].reference == reference && (s.handlers[h].phase == Checked || s.handlers[h].phase == Inserted)
  }

  predicate Lost(s: State, reference: string) {
    reference in s.booked && reference !in s.credited && forall h | h in s.handlers :: !IsOpen(s, h, reference)
  }

  lemma LostStays(s: State, e: Event, reference: string)
    requires Lost(s, reference)
    ensures Lost(Step(s, e), reference)
  {
    var s' := Step(s, e);
    forall h | h in s'.handlers ensures !IsOpen(s', h, reference) {
      assert h in s.handlers ==> !IsOpen(s, h, reference);
    }
    assert e.Credit? && Enabled(s, e) ==> !IsOpen(s, e.handler, reference);
  }

  lemma {:induction false} LostForGood(s: State, more: seq<Event>, reference: string)
    requires Lost(s, reference)
    ensures Lost(From(s, more), reference)
  {
    if |more| > 0 {
      LostForGood(s, more[..|more| - 1], reference);
      LostStays(From(s, more[..|more| - 1]), more[|more| - 1], reference);
      hide Lost, Step;
    }
  }

  ghost predicate CanCredit(s: State, reference: string) {
    exists more: seq<Event> :: reference in From(s, more).credited
  }

  lemma OpenCredits(s: State, h: nat, reference: string)
    requires IsOpen(s, h, reference)
    ensures CanCredit(s, reference)
  {
    var more := if In(s, h, Checked) then [Insert(h)] else [];
    FromSnoc(s, [], Insert(h));
    assert [] + [Insert(h)] == [Insert(h)];
    FromSnoc(s, more, Credit(h));
    var before := From(s, more);
    assert In(before, h, Inserted) && before.handlers[h].reference == reference;
    assert From(s, more + [Credit(h)]).credited == before.credited + [reference];
    assert From(s, more + [Credit(h)]).credited[|before.credited|] == reference;
  }

  /** A booked payment without effect can still take it exactly while a handler is past its check. */
  lemma CreditedUnlessLost(s: State, reference: string)
    requires reference in s.booked && reference !in s.credited
    ensures CanCredit(s, reference) <==> exists h | h in s.handlers :: IsOpen(s, h, reference)
  {
    if h :| h in s.handlers && IsOpen(s, h, reference) {
      OpenCredits(s, h, reference);
    } else {
      forall more: seq<Event> ensures reference !in From(s, more).credited {
        LostForGood(s, more, reference);
      }
    }
    hide From, IsOpen;
  }

  // ── One payment, two deliveries ─────────────────────────────────────────

  const BOTH_CHECKED: seq<Event> := [Deliver(1, "r")] + [Deliver(2, "r")] + [Check(1)] + [Check(2)]

  lemma BothChecked()
    ensures From(START, BOTH_CHECKED) == State([], [], map[1 := Handler("r", Checked), 2 := Handler("r", Checked)])
  {
    var run := [Deliver(1, "r")];
    assert [] + run == run;
    FromSnoc(START, [], Deliver(1, "r"));
    FromSnoc(START, run, Deliver(2, "r"));
    FromSnoc(START, run + [Deliver(2, "r")], Check(1));
    FromSnoc(START, run + [Deliver(2, "r")] + [Check(1)], Check(2));
    hide From, Apart;
    assert From(START, run).handlers == map[1 := Handler("r", Arrived)];
  }

  /** Two deliveries of one payment, each booked and credited. */
  lemma CreditedTwice()
    ensures var s := From(START, BOTH_CHECKED + [Insert(1)] + [Insert(2)] + [Credit(1)] + [Credit(2)]);
      s.booked == ["r", "r"] && s.credited == ["r", "r"]
  {
    BothChecked();
    FromSnoc(START, BOTH_CHECKED, Insert(1));
    FromSnoc(START, BOTH_CHECKED + [Insert(1)], Insert(2));
    FromSnoc(START, BOTH_CHECKED + [Insert(1)] + [Insert(2)], Credit(1));
    FromSnoc(START, BOTH_CHECKED + [Insert(1)] + [Insert(2)] + [Credit(1)], Credit(2));
    hide From, Apart;
  }
}
