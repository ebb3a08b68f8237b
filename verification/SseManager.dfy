/** The connection manager as the code runs it, with one connection object a user. */
module SseManager {
  import opened Common
  import opened SseStream
  import opened SseRegistry

  class SSEConnection {
    var event: bool
    var messages: seq<Message>
    var closed: bool
    var lastActive: int

    constructor (now: int)
      ensures Snapshot() == Opened(now)
    {
      event, messages, closed, lastActive := false, [], false, now;
    }

    function Snapshot(): Conn
      reads this
    {
      Conn(event, messages, closed, lastActive)
    }

    method Push(payload: Message)
      modifies this
      ensures Snapshot() == Pushed(old(Snapshot()), payload)
    {
      messages := messages + [payload];
      event := true;
    }

    /** The part of receive after the wait; None is a timeout, which can only be told from the outside. */
    method Receive(timedOut: bool) returns (batch: Option<seq<Message>>)
      requires !timedOut ==> event
      modifies this
      ensures timedOut ==> batch == None && Snapshot() == old(Snapshot())
      ensures !timedOut ==> batch == Some(old(messages)) && Snapshot() == Drained(old(Snapshot()))
    {
      if timedOut {
        return None;
      }
      event := false;
      batch := Some(messages);
      messages := [];
    }

    method Touch(now: int)
      modifies this
      ensures Snapshot() == Touched(old(Snapshot()), now)
    {
      lastActive := now;
    }

    method Close()
      modifies this
      ensures Snapshot() == Closed(old(Snapshot()))
    {
      closed := true;
      event := true;
    }
  }

  function ClosedIf(condition: bool, c: Conn): Conn {
    if condition then Closed(c) else c
  }

  function AfterEviction(c: Conn, now: int): Conn {
    ClosedIf(Stale(c, now), c)
  }

  class SSEManager {
    var connections: map<UserId, SSEConnection>

    constructor ()
      ensures connections == map[] && Valid()
    {
      connections := map[];
    }

    /** No connection serves two users. */
    ghost predicate Valid()
      reads this
    {
      forall u, v | u in connections && v in connections && u != v :: connections[u] != connections[v]
    }

    method Connect(user: UserId, now: int) returns (conn: SSEConnection)
      requires Valid()
      modifies this, if user in connections then {connections[user]} else {}
      ensures Valid() && fresh(conn) && conn.Snapshot() == Opened(now)
      ensures connections == old(connections)[user := conn]
      ensures user in old(connections) ==> old(connections[user]).Snapshot() == Closed(old(connections[user].Snapshot()))
    {
      if user in connections {
        connections[user].Close();
      }
      conn := new SSEConnection(now);
      connections := connections[user := conn];
    }

    method Disconnect(user: UserId, conn: SSEConnection)
      requires Valid()
      modifies this
      ensures Valid() && connections == Unregister(old(connections), user, conn)
    {
      if user in connections && connections[user] == conn {
        connections := connections - {user};
      }
    }

    method Send(user: UserId, payload: Message) returns (sent: bool)
      requires Valid()
      modifies if user in connections then {connections[user]} else {}
      ensures sent == (user in connections)
      ensures sent ==> connections[user].Snapshot() == Pushed(old(connections[user].Snapshot()), payload)
    {
      if user !in connections {
        return false;
      }
      connections[user].Push(payload);
      sent := true;
    }

    method Broadcast(payload: Message)
      requires Valid()
      modifies connections.Values
      ensures forall u | u in connections :: connections[u].Snapshot() == Pushed(old(connections[u].Snapshot()), payload)
    {
      var rest := connections.Keys;
      while rest != {}
        invariant rest <= connections.Keys
        invariant forall u | u in connections && u in rest :: connections[u].Snapshot() == old(connections[u].Snapshot())
        invariant forall u | u in connections && u !in rest ::
          connections[u].Snapshot() == Pushed(old(connections[u].Snapshot()), payload)
        decreases rest
      {
        var user :| user in rest;
        connections[user].Push(payload);
        rest := rest - {user};
      }
    }

    method EvictStale(now: int)
      requires Valid()
      modifies this, connections.Values
      ensures Valid()
      ensures connections == map u | u in old(connections) && !Stale(old(connections[u].Snapshot()), now) :: old(connections)[u]
      ensures forall u | u in old(connections) ::
        old(connections[u]).Snapshot() == AfterEviction(old(connections[u].Snapshot()), now)
    {
      ghost var before := connections;
      var stale := set u | u in connections && Stale(connections[u].Snapshot(), now);
      hide Stale, Closed;
      var rest := stale;
      while rest != {}
        invariant rest <= stale <= before.Keys
        invariant connections == before - (stale - rest)
        invariant forall u | u in before :: before[u].Snapshot() == ClosedIf(u !in rest && u in stale, old(before[u].Snapshot()))
        decreases rest
      {
        var user :| user in rest;
        var conn := connections[user];
        connections := connections - {user};
        conn.Close();
        rest := rest - {user};
      }
    }

    method Shutdown()
      requires Valid()
      modifies this, connections.Values
      ensures Valid() && connections == map[]
      ensures forall u | u in old(connections) :: old(connections[u]).Snapshot() == Closed(old(connections[u].Snapshot()))
    {
      var rest := connections.Keys;
      while rest != {}
        invariant connections == old(connections) && rest <= connections.Keys
        invariant forall u | u in connections :: connections[u].Snapshot() == ClosedIf(u !in rest, old(connections[u].Snapshot()))
        decreases rest
      {
        var user :| user in rest;
        connections[user].Close();
        rest := rest - {user};
      }
      connections := map[];
    }
  }
}
