/** Which connection a user is served by, over every interleaving of connects, evictions and ending generators. */
module SseRegistry {
  import opened Common
  import opened SseStream

  type UserId = string

  const STALE_TIMEOUT_SECONDS := 120

  predicate Stale(c: Conn, now: int) {
    c.closed || now - c.lastActive > STALE_TIMEOUT_SECONDS
  }

  /** A user's entry goes only if it is still this connection. */
  function Unregister<C(==)>(current: map<UserId, C>, user: UserId, conn: C): map<UserId, C> {
    if user in current && current[user] == conn then current - {user} else current
  }

  /** Connections are numbered as they are opened; those in `ended` have no generator any more. */
  datatype Registry = Registry(current: map<UserId, nat>, users: seq<UserId>, closed: set<nat>, ended: set<nat>)

  datatype Event =
    | Connects(user: UserId)
    | GeneratorEnds(conn: nat)
    | Evicts(stale: set<UserId>)
    | ShutsDown

  function EntriesOf(r: Registry, users: set<UserId>): set<nat> {
    set u | u in r.current && u in users :: r.current[u]
  }

  function Step(r: Registry, e: Event): Registry {
    match e
    case Connects(user) =>
      r.(current := r.current[user := |r.users|], users := r.users + [user], closed := r.closed + EntriesOf(r, {user}))
    case GeneratorEnds(conn) =>
      if conn < |r.users|
      then r.(current := Unregister(r.current, r.users[conn], conn), ended := r.ended + {conn}) else r
    case Evicts(stale) => r.(current := r.current - stale, closed := r.closed + EntriesOf(r, stale))
    case ShutsDown => r.(current := map[], closed := r.closed + EntriesOf(r, r.current.Keys))
  }

  const EMPTY := Registry(map[], [], {}, {})

  function After(run: seq<Event>): Registry {
    if |run| == 0 then EMPTY else Step(After(run[..|run| - 1]), run[|run| - 1])
  }

  predicate Served(r: Registry, conn: nat) {
    conn < |r.users| && r.users[conn] in r.current && r.current[r.users[conn]] == conn
  }

  predicate Live(r: Registry, conn: nat) {
    conn < |r.users| && conn !in r.closed && conn !in r.ended
  }

  /** Entries belong to their user, and exactly the live connections are registered. */
  predicate Inv(r: Registry) {
    && (forall u | u in r.current :: r.current[u] < |r.users| && r.users[r.current[u]] == u)
    && (forall i: nat | i < |r.users| :: Served(r, i) <==> Live(r, i))
    && (forall i | i in r.closed :: i < |r.users|)
    && (forall i | i in r.ended :: i < |r.users|)
  }

  lemma EntryIs(r: Registry, users: set<UserId>, i: nat)
    requires Inv(r) && i < |r.users|
    ensures i in EntriesOf(r, users) <==> Served(r, i) && r.users[i] in users
  {
    if Served(r, i) && r.users[i] in users {
      assert r.current[r.users[i]] == i;
    }
  }

  lemma ConnectKeeps(r: Registry, user: UserId)
    requires Inv(r)
    ensures Inv(Step(r, Connects(user)))
  {
    var r' := Step(r, Connects(user));
    forall i: nat | i < |r'.users| ensures Served(r', i) <==> Live(r', i) {
      if i < |r.users| {
        EntryIs(r, {user}, i);
        assert r'.users[i] == r.users[i] && (Served(r, i) <==> Live(r, i));
      } else {
        assert i !in EntriesOf(r, {user});
      }
    }
  }

  lemma RemoveKeeps(r: Registry, e: Event)
    requires Inv(r) && (e.Evicts? || e.ShutsDown?)
    ensures Inv(Step(r, e))
  {
    var r', users := Step(r, e), if e.Evicts? then e.stale else r.current.Keys;
    forall i: nat | i < |r'.users| ensures Served(r', i) <==> Live(r', i) {
      EntryIs(r, users, i);
      assert Served(r, i) <==> Live(r, i);
    }
    forall i | i in r'.closed ensures i < |r'.users| {
    }
  }

  lemma {:induction false} RunKeeps(run: seq<Event>)
    ensures Inv(After(run))
  {
    if |run| > 0 {
      var r, e := After(run[..|run| - 1]), run[|run| - 1];
      RunKeeps(run[..|run| - 1]);
      match e
      case Connects(user) => ConnectKeeps(r, user);
      case GeneratorEnds(conn) =>
        forall i: nat | i < |r.users| ensures Served(Step(r, e), i) <==> Live(Step(r, e), i) {
          assert Served(r, i) <==> Live(r, i);
        }
      case _ => RemoveKeeps(r, e);
    }
  }

  /**
   In every run a user's entry is the connection among his that is neither closed nor ended: there is
   one at most, so no generator waits on a connection that nothing is sent to.
   */
  lemma EntryIsTheLiveOne(run: seq<Event>, i: nat)
    requires i < |After(run).users|
    ensures Live(After(run), i) <==> Served(After(run), i)
    ensures forall j: nat | j < |After(run).users| && After(run).users[j] == After(run).users[i] ::
      Live(After(run), i) && Live(After(run), j) ==> i == j
  {
    RunKeeps(run);
    var r := After(run);
    forall j: nat | j < |r.users| && r.users[j] == r.users[i] && Live(r, i) && Live(r, j) ensures i == j {
      assert Served(r, i) && Served(r, j);
    }
  }

  /** Anything but a new connect of the user, his eviction, a shutdown or the end of that connection's own generator. */
  predicate LeavesAlone(later: seq<Event>, user: UserId, conn: nat) {
    forall i | 0 <= i < |later| ::
      match later[i]
      case Connects(u) => u != user
      case GeneratorEnds(c) => c != conn
      case Evicts(stale) => user !in stale
      case ShutsDown => false
  }

  /** The generators it superseded may end at any time after: a new connection stays registered and live. */
  lemma SuccessorStays(run: seq<Event>, user: UserId, later: seq<Event>)
    requires LeavesAlone(later, user, |After(run).users|)
    ensures var r := After(run + [Connects(user)] + later);
      user in r.current && r.current[user] == |After(run).users| && Live(r, r.current[user])
  {
    SuccessorIsEntry(run, user, later);
    RunKeeps(run + [Connects(user)] + later);
  }

  lemma {:induction false} SuccessorIsEntry(run: seq<Event>, user: UserId, later: seq<Event>)
    requires LeavesAlone(later, user, |After(run).users|)
    ensures var r := After(run + [Connects(user)] + later); var conn := |After(run).users|;
      user in r.current && r.current[user] == conn < |r.users| && r.users[conn] == user
  {
    var all := run + [Connects(user)] + later;
    if |later| == 0 {
      assert all[..|all| - 1] == run;
    } else {
      SuccessorIsEntry(run, user, later[..|later| - 1]);
      assert all[..|all| - 1] == run + [Connects(user)] + later[..|later| - 1];
      hide EntriesOf;
    }
  }

  // ── Staleness ───────────────────────────────────────────────────────────

  /** When the generator last took a batch of messages, or else when the connection was opened. */
  function LastBatchAt(start: int, run: seq<SseStream.Event>): int {
    if |run| == 0 then start else
      var front, e := run[..|run| - 1], run[|run| - 1];
      var s := SseStream.After(SseStream.Start(start), front);
      if e.Wakes? && s.phase.Waiting? && s.conn.event && !s.conn.closed then e.now else LastBatchAt(start, front)
  }

  lemma {:induction false} ConnTells(start: int, run: seq<SseStream.Event>)
    ensures var conn := SseStream.After(SseStream.Start(start), run).conn;
      conn.lastActive == LastBatchAt(start, run) && (conn.closed <==> SseStream.Event.Close in run)
  {
    if |run| > 0 {
      var front, last := run[..|run| - 1], run[|run| - 1];
      ConnTells(start, front);
      assert run == front + [last];
    }
  }

  /**
   A connection is stale once it is closed, or 120 seconds after the generator last took a batch: a wait that
   times out does not count as activity, so one that is sent nothing becomes stale.
   */
  lemma StaleTells(start: int, run: seq<SseStream.Event>, now: int)
    ensures Stale(SseStream.After(SseStream.Start(start), run).conn, now) <==>
      SseStream.Event.Close in run || now > LastBatchAt(start, run) + 120
  {
    ConnTells(start, run);
    hide SseStream.After, LastBatchAt;
  }

  /** However often its generator waits, a connection that is sent nothing is evicted. */
  lemma QuietIsStale(start: int, run: seq<SseStream.Event>, now: int)
    requires now > start + 120 && forall e | e in run :: !e.Push? && !e.Close?
    ensures Stale(SseStream.After(SseStream.Start(start), run).conn, now)
  {
    QuietTakesNothing(start, run);
    StaleTells(start, run, now);
  }

  lemma {:induction false} QuietTakesNothing(start: int, run: seq<SseStream.Event>)
    requires forall e | e in run :: !e.Push? && !e.Close?
    ensures LastBatchAt(start, run) == start && !SseStream.After(SseStream.Start(start), run).conn.event
  {
    if |run| > 0 {
      QuietTakesNothing(start, run[..|run| - 1]);
    }
  }
}
