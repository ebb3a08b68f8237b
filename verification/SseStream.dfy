/** One server-sent-events connection: what is pushed, what the generator yields, and that no wake-up is lost. */
module SseStream {
  import opened Common

  type Message = string

  datatype Conn = Conn(event: bool, messages: seq<Message>, closed: bool, lastActive: int)

  function Opened(now: int): Conn {
    Conn(false, [], false, now)
  }

  function Pushed(c: Conn, m: Message): Conn {
    c.(messages := c.messages + [m], event := true)
  }

  /** What receive leaves behind when it does not time out; it returns the messages. */
  function Drained(c: Conn): Conn {
    c.(event := false, messages := [])
  }

  function Touched(c: Conn, now: int): Conn {
    c.(lastActive := now)
  }

  function Closed(c: Conn): Conn {
    c.(closed := true, event := true)
  }

  // ── The generator ───────────────────────────────────────────────────────

  /** Waiting in receive, handing out a drained batch, or finished. */
  datatype Phase = Waiting | Yielding(inHand: seq<Message>) | Ended

  /** A connection with its generator; pushed and yielded are the messages so far. */
  datatype Stream = Stream(conn: Conn, phase: Phase, pushed: seq<Message>, yielded: seq<Message>)

  /** The stretches of code between two suspension points. */
  datatype Event =
    | Push(m: Message)
    | Close
    | Wakes(now: int)
    | TimesOut
    | Yields
    | Loops
    | ClientLeaves

  predicate Enabled(s: Stream, e: Event) {
    match e
    case Wakes(_) => s.phase.Waiting? && s.conn.event
    case TimesOut => s.phase.Waiting?
    case Yields => s.phase.Yielding? && s.phase.inHand != []
    case Loops => s.phase == Yielding([])
    case _ => true
  }

  function Reenter(s: Stream): Phase {
    if s.conn.closed then Ended else Waiting
  }

  function Do(s: Stream, e: Event): Stream
    requires Enabled(s, e)
  {
    match e
    case Push(m) => s.(conn := Pushed(s.conn, m), pushed := s.pushed + [m])
    case Close => s.(conn := Closed(s.conn))
    case Wakes(now) =>
      if s.conn.closed then s.(conn := Drained(s.conn), phase := Ended)
      else s.(conn := Touched(Drained(s.conn), now), phase := Yielding(s.conn.messages))
    case TimesOut => s.(phase := Reenter(s))
    case Yields => s.(yielded := s.yielded + [s.phase.inHand[0]], phase := Yielding(s.phase.inHand[1..]))
    case Loops => s.(phase := Reenter(s))
    case ClientLeaves => s.(phase := Ended)
  }

  function Step(s: Stream, e: Event): Stream {
    if Enabled(s, e) then Do(s, e) else s
  }

  function After(s: Stream, run: seq<Event>): Stream {
    if |run| == 0 then s else Step(After(s, run[..|run| - 1]), run[|run| - 1])
  }

  function Start(now: int): Stream {
    Stream(Opened(now), Waiting, [], [])
  }

  // ── Delivery ────────────────────────────────────────────────────────────

  function InHand(s: Stream): seq<Message> {
    if s.phase.Yielding? then s.phase.inHand else []
  }

  predicate Inv(s: Stream) {
    && s.yielded <= s.pushed
    && (!s.phase.Ended? ==> s.yielded + InHand(s) + s.conn.messages == s.pushed)
    && (s.conn.messages != [] ==> s.conn.event)
    && (!s.phase.Ended? ==> (s.conn.event <==> s.conn.messages != [] || s.conn.closed))
  }

  lemma StepKeeps(s: Stream, e: Event)
    requires Inv(s)
    ensures Inv(Step(s, e))
  {
    if Enabled(s, e) {
      var s' := Do(s, e);
      match e
      case Push(m) =>
        assert s.yielded + InHand(s) + s.conn.messages + [m] == s.yielded + InHand(s) + s'.conn.messages;
      case Yields =>
        assert InHand(s) == [InHand(s)[0]] + InHand(s');
        assert s'.yielded + InHand(s') + s'.conn.messages == s.yielded + InHand(s) + s.conn.messages;
      case _ =>
    }
  }

  lemma {:induction false} RunKeeps(now: int, run: seq<Event>)
    ensures Inv(After(Start(now), run))
  {
    if |run| > 0 {
      RunKeeps(now, run[..|run| - 1]);
      StepKeeps(After(Start(now), run[..|run| - 1]), run[|run| - 1]);
    }
  }

  /** In every run the yielded messages are a prefix of the pushed ones: nothing twice, nothing out of order. */
  lemma {:induction false} YieldedArePrefix(now: int, run: seq<Event>)
    ensures After(Start(now), run).yielded <= After(Start(now), run).pushed
  {
    RunKeeps(now, run);
  }

  /** Until the generator ends, every pushed message is yielded, in hand or buffered. */
  lemma {:induction false} NothingIsLost(now: int, run: seq<Event>)
    requires !After(Start(now), run).phase.Ended?
    ensures var s := After(Start(now), run); s.yielded + InHand(s) + s.conn.messages == s.pushed
  {
    RunKeeps(now, run);
  }

  /** No wake-up is lost and none is idle: a waiting generator can wake exactly when something is buffered or it is closed. */
  lemma {:induction false} NoLostWakeUp(now: int, run: seq<Event>, later: int)
    requires After(Start(now), run).phase.Waiting?
    ensures var s := After(Start(now), run); Enabled(s, Wakes(later)) <==> s.conn.messages != [] || s.conn.closed
  {
    RunKeeps(now, run);
  }

  /** Yields the rest of the batch in hand. */
  function Hand(n: nat): seq<Event> {
    if n == 0 then [] else Hand(n - 1) + [Yields]
  }

  /** The stream when n more of the messages in hand are yielded. */
  function Handed(s: Stream, n: nat): Stream
    requires s.phase.Yielding? && n <= |s.phase.inHand|
  {
    s.(yielded := s.yielded + s.phase.inHand[..n], phase := Yielding(s.phase.inHand[n..]))
  }

  lemma HandedOne(s: Stream, n: nat)
    requires s.phase.Yielding? && n < |s.phase.inHand|
    ensures Step(Handed(s, n), Yields) == Handed(s, n + 1)
  {
    var hand := s.phase.inHand;
    assert hand[..n + 1] == hand[..n] + [hand[n]];
    assert hand[n..][0] == hand[n] && hand[n..][1..] == hand[n + 1..];
    assert s.yielded + hand[..n] + [hand[n]] == s.yielded + (hand[..n] + [hand[n]]);
  }

  lemma {:induction false} HandsOut(s: Stream, n: nat)
    requires s.phase.Yielding? && n <= |s.phase.inHand|
    ensures After(s, Hand(n)) == Handed(s, n)
  {
    if n > 0 {
      HandLength(n - 1);
      HandsOut(s, n - 1);
      HandedOne(s, n - 1);
      assert Hand(n)[..n - 1] == Hand(n - 1) && Hand(n)[n - 1] == Yields;
      hide Step, Handed;
    } else {
      assert s.yielded + [] == s.yielded && s.phase.inHand[0..] == s.phase.inHand;
    }
  }

  lemma {:induction false} HandLength(n: nat)
    ensures |Hand(n)| == n
  {
    if n > 0 {
      HandLength(n - 1);
    }
  }

  lemma {:induction false} Joins(s: Stream, a: seq<Event>, b: seq<Event>)
    ensures After(s, a + b) == After(After(s, a), b)
  {
    if |b| == 0 {
      assert a + b == a;
    } else {
      Joins(s, a, b[..|b| - 1]);
      assert (a + b)[..|a + b| - 1] == a + b[..|b| - 1];
    }
  }

  /** What the generator does next when nobody interferes. */
  function Catchup(s: Stream, now: int): seq<Event> {
    Hand(|InHand(s)|) + (if s.phase.Yielding? then [Loops] else []) + [Wakes(now)] + Hand(|s.conn.messages|)
  }

  /** The generator of an open connection catches up by itself: in as many steps everything pushed is yielded. */
  lemma CatchesUp(now: int, run: seq<Event>, later: int)
    requires var s := After(Start(now), run); !s.phase.Ended? && !s.conn.closed && s.conn.messages != []
    ensures var s := After(Start(now), run);
      var t := After(s, Catchup(s, later)); t.yielded == t.pushed == s.pushed
  {
    RunKeeps(now, run);
    var s := After(Start(now), run);
    hide After, Hand;
    var a, b, c := Hand(|InHand(s)|), if s.phase.Yielding? then [Loops] else [], Hand(|s.conn.messages|);
    Joins(s, a + b + [Wakes(later)], c);
    Joins(s, a + b, [Wakes(later)]);
    Joins(s, a, b);
    EmptiesHand(s, later);
    var waiting := After(s, a + b);
    OneStep(waiting, Wakes(later));
    var woken := Step(waiting, Wakes(later));
    HandsOut(woken, |woken.phase.inHand|);
    assert woken.phase.inHand[..|woken.phase.inHand|] == s.conn.messages;
  }

  lemma OneStep(s: Stream, e: Event)
    ensures After(s, [e]) == Step(s, e)
  {
    assert [e][..0] == [];
  }

  lemma EmptiesHand(s: Stream, later: int)
    requires Inv(s) && !s.phase.Ended? && !s.conn.closed
    ensures var b := if s.phase.Yielding? then [Loops] else [];
      After(s, Hand(|InHand(s)|) + b) == s.(phase := Waiting, yielded := s.yielded + InHand(s))
  {
    var n := |InHand(s)|;
    if s.phase.Yielding? {
      HandsOut(s, n);
      Joins(s, Hand(n), [Loops]);
      OneStep(After(s, Hand(n)), Loops);
      assert s.phase.inHand[..n] == s.phase.inHand && s.phase.inHand[n..] == [];
    } else {
      assert Hand(0) + [] == [] && s.yielded + [] == s.yielded;
    }
  }

  lemma ClosedStep(t: Stream, e: Event)
    requires t.conn.closed
    ensures Step(t, e).conn.closed && Step(t, e).yielded + InHand(Step(t, e)) <= t.yielded + InHand(t)
  {
    if Enabled(t, e) && e.Yields? {
      assert InHand(t) == [InHand(t)[0]] + InHand(t)[1..];
    }
  }

  /** After a close only what was already in hand may still be yielded; what was buffered is dropped. */
  lemma {:induction false} ClosedYieldsOnlyInHand(s: Stream, run: seq<Event>)
    requires Inv(s) && s.conn.closed
    ensures var t := After(s, run);
      && Inv(t) && t.conn.closed
      && t.yielded + InHand(t) <= s.yielded + InHand(s)
  {
    if |run| > 0 {
      var front, e := run[..|run| - 1], run[|run| - 1];
      ClosedYieldsOnlyInHand(s, front);
      StepKeeps(After(s, front), e);
      ClosedStep(After(s, front), e);
      hide Step, Inv;
    }
  }
}
