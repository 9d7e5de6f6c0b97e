/** The table of live connections as an object. `ConnectionTracker` and `PacketForwarder` have
    the same fields and the same removal and cleanup bodies, so one class stands for both; its
    methods are their lock-protected sections, proved against `Connections`. */
module ConnectionTable {
  import opened Bytes
  import opened Wire
  import C = Connections

  class Socket {
    var open: bool
    var written: seq<Byte>
    ghost const number: nat

    constructor (ghost number: nat)
      ensures open && written == [] && this.number == number
    {
      open, written := true, [];
      this.number := number;
    }

    /** Fails on a closed socket, and whenever the system says so. */
    method Write(data: seq<Byte>, succeeds: bool) returns (ok: bool)
      modifies this`written
      ensures ok <==> open && succeeds
      ensures written == if ok then old(written) + data else old(written)
    {
      ok := open && succeeds;
      if ok { written := written + data; }
    }
  }

  class ConnectionState {
    const connectionID: Id
    const conn: Socket
    const createdAt: Time
    var lastActivity: Time
    ghost const number: nat

    constructor (connectionID: Id, conn: Socket, now: Time, ghost number: nat)
      ensures this.connectionID == connectionID && this.conn == conn && this.number == number
      ensures createdAt == now && lastActivity == now
    {
      this.connectionID, this.conn, this.createdAt, lastActivity := connectionID, conn, now, now;
      this.number := number;
    }

    ghost function Value(): C.Entry
      reads this
    {
      C.Entry(connectionID, conn.number, createdAt, lastActivity)
    }
  }

  class ConnectionTable {
    var connections: map<Id, ConnectionState>
    /** Every state object and every socket there has been. */
    ghost var states: seq<ConnectionState>
    ghost var sockets: seq<Socket>

    ghost predicate Valid()
      reads this
    {
      && (forall k :: 0 <= k < |states| ==> states[k].number == k)
      && (forall k :: 0 <= k < |sockets| ==> sockets[k].number == k)
      && (forall s :: s in states ==> s.conn in sockets)
      && (forall id :: id in connections ==> connections[id] in states && connections[id].connectionID == id)
    }

    ghost function Numbers(): map<Id, nat>
      reads this
    {
      map id | id in connections :: connections[id].number
    }

    ghost function Entries(): seq<C.Entry>
      reads this, states
    {
      seq(|states|, k requires 0 <= k < |states| reads this, states => states[k].Value())
    }

    ghost function Open(): seq<bool>
      reads this, sockets
    {
      seq(|sockets|, k requires 0 <= k < |sockets| reads this, sockets => sockets[k].open)
    }

    ghost function Value(): (t: C.Table)
      requires Valid()
      reads this, states, sockets
      ensures t.Valid()
    {
      C.Table(Numbers(), Entries(), Open())
    }

    constructor ()
      ensures Valid() && Value() == C.EMPTY
    {
      connections, states, sockets := map[], [], [];
    }

    /** A connection accepted by the client or dialed by the proxy. */
    method NewSocket() returns (conn: Socket)
      requires Valid()
      modifies `sockets
      ensures Valid() && Value() == C.Opened(old(Value()))
      ensures fresh(conn) && sockets == old(sockets) + [conn] && conn.written == []
    {
      conn := new Socket(|sockets|);
      sockets := sockets + [conn];
      assert Open() == old(Open()) + [true];
    }

    /** `conn.Close()` outside of any removal. */
    method Close(conn: Socket)
      requires Valid() && conn in sockets
      modifies conn`open
      ensures Valid() && Value() == C.Closed(old(Value()), conn.number)
      ensures !conn.open
    {
      conn.open := false;
    }

    /** `Track`, and the insertion in `Forward`. */
    method Track(id: Id, conn: Socket, now: Time) returns (state: ConnectionState)
      requires Valid() && conn in sockets
      modifies `connections, `states
      ensures Valid() && Value() == C.Insert(old(Value()), id, conn.number, now)
      ensures fresh(state) && states == old(states) + [state] && state.conn == conn
      ensures state.connectionID == id && state.createdAt == state.lastActivity == now
      ensures connections == old(connections)[id := state]
    {
      state := new ConnectionState(id, conn, now, |states|);
      connections := connections[id := state];
      states := states + [state];
      assert Numbers() == old(Numbers())[id := state.number];
      assert Entries() == old(Entries()) + [state.Value()];
    }

    /** `state.LastActivity = now`, for a state that may have left the table. */
    method Touch(state: ConnectionState, now: Time)
      requires Valid() && state in states
      modifies state`lastActivity
      ensures Valid() && Value() == C.Touch(old(Value()), state.number, now)
      ensures state.lastActivity == now
    {
      state.lastActivity := now;
    }

    method UpdateActivity(id: Id, now: Time)
      requires Valid()
      modifies states
      ensures Valid() && Value() == C.TouchId(old(Value()), id, now)
      ensures id in connections ==> connections[id].lastActivity == now
      ensures forall s :: s in old(states) && !(id in old(connections) && s == old(connections)[id]) ==>
        s.lastActivity == old(s.lastActivity)
    {
      if id in connections {
        Touch(connections[id], now);
      }
    }

    /** `Remove` of the tracker, `removeConnection` of the forwarder. */
    method Remove(id: Id)
      requires Valid()
      modifies `connections, sockets`open
      ensures Valid() && Value() == C.Remove(old(Value()), id)
      ensures sockets == old(sockets) && states == old(states) && connections == old(connections) - {id}
      ensures forall s :: s in sockets ==>
        s.open == (old(s.open) && !(id in old(connections) && s == old(connections)[id].conn))
    {
      if id in connections {
        CloseAndDelete(id);
      }
      assert connections == old(connections) - {id};
    }

    method CloseAndDelete(id: Id)
      requires Valid() && id in connections
      modifies `connections, sockets`open
      ensures Valid() && Value() == C.Remove(old(Value()), id)
      ensures connections == old(connections) - {id}
      ensures forall s :: s in sockets ==> s.open == (old(s.open) && s != old(connections)[id].conn)
    {
      var state := connections[id];
      state.conn.open := false;
      connections := connections - {id};
      assert Numbers() == old(Numbers()) - {id};
      assert Open() == old(Open())[state.conn.number := false];
    }

    /** Not used for longer than `maxIdle`. */
    static predicate Idle(state: ConnectionState, maxIdle: Time, now: Time)
      reads state
    {
      now - state.lastActivity > maxIdle
    }

    /** The socket belongs to an idle connection of the map. */
    static ghost predicate OfIdle(connections: map<Id, ConnectionState>, s: Socket, maxIdle: Time, now: Time)
      reads set id | id in connections :: connections[id]
    {
      exists id :: id in connections && connections[id].conn == s && Idle(connections[id], maxIdle, now)
    }

    method Cleanup(maxIdle: Time, now: Time) returns (removed: nat)
      requires Valid()
      modifies `connections, sockets`open
      ensures Valid() && Value() == C.Cleanup(old(Value()), maxIdle, now)
      ensures forall id :: id in connections <==> id in old(connections) && !Idle(old(connections)[id], maxIdle, now)
      ensures forall id :: id in connections ==> connections[id] == old(connections)[id]
      ensures forall s :: s in sockets ==>
        s.open == (old(s.open) && !OfIdle(old(connections), s, maxIdle, now))
      ensures removed == |old(connections)| - |connections|
    {
      removed := CloseIdle(maxIdle, now);
      assert Entries() == old(Entries());
      hide *;
      CleanedUp(old(connections), old(Open()), maxIdle, now);
    }

    /** Closes and deletes while iterating, in an arbitrary order. */
    method CloseIdle(maxIdle: Time, now: Time) returns (removed: nat)
      requires Valid()
      modifies `connections, sockets`open
      ensures Valid() && Value() == C.Cleanup(old(Value()), maxIdle, now)
      ensures removed == |old(connections)| - |connections|
    {
      removed := 0;
      var rest := connections.Keys;
      ghost var before, all := Value(), connections.Keys;
      C.NothingExpired(before, maxIdle, now);
      ghost var decided: set<Id> := {};
      while rest != {}
        invariant Valid() && rest <= connections.Keys
        invariant forall id :: id in all <==> id in rest || id in decided
        invariant forall id :: id in rest ==> id !in decided
        invariant Value() == C.Expired(before, decided, maxIdle, now)
        invariant removed == |old(connections)| - |connections|
        decreases rest
      {
        var id :| id in rest;
        rest := rest - {id};
        var idle := CleanupOne(id, maxIdle, now, before, decided);
        if idle {
          removed := removed + 1;
        }
        decided := decided + {id};
      }
      assert decided == before.connections.Keys;
    }

    /** The same about the objects: `was` and `open` are the map and the sockets before. */
    lemma CleanedUp(was: map<Id, ConnectionState>, open: seq<bool>, maxIdle: Time, now: Time)
      requires Valid() && |open| == |sockets|
      requires forall id :: id in was ==> was[id] in states && was[id].connectionID == id
      requires var before := C.Table(map id | id in was :: was[id].number, Entries(), open);
        before.Valid() && Value() == C.Cleanup(before, maxIdle, now)
      ensures forall id :: id in connections <==> id in was && !Idle(was[id], maxIdle, now)
      ensures forall id :: id in connections ==> connections[id] == was[id]
      ensures forall s :: s in sockets ==>
        s.number < |open| && s.open == (open[s.number] && !OfIdle(was, s, maxIdle, now))
    {
      var before := C.Table(map id | id in was :: was[id].number, Entries(), open);
      forall id | id in was ensures before.Stored(id) == was[id].Value() {}
      assert forall id :: id in connections <==> id in Numbers();
      forall id | id in connections ensures connections[id] == was[id] {
        assert Numbers()[id] == before.connections[id];
      }
      forall s | s in sockets
        ensures s.number < |open| && s.open == (open[s.number] && !OfIdle(was, s, maxIdle, now))
      {
        assert Open()[s.number] == s.open;
        assert C.Expires(before, before.connections.Keys, s.number, maxIdle, now) <==> OfIdle(was, s, maxIdle, now);
      }
    }

    /** One iteration: `decided` are the IDs met before. */
    method CleanupOne(id: Id, maxIdle: Time, now: Time, ghost before: C.Table, ghost decided: set<Id>)
      returns (idle: bool)
      requires Valid() && id in connections && before.Valid() && id in before.connections && id !in decided
      requires Value() == C.Expired(before, decided, maxIdle, now)
      modifies `connections, sockets`open
      ensures Valid() && Value() == C.Expired(before, decided + {id}, maxIdle, now)
      ensures connections == if idle then old(connections) - {id} else old(connections)
    {
      C.OneMoreExpired(before, decided, id, maxIdle, now);
      idle := now - connections[id].lastActivity > maxIdle;
      assert idle <==> C.OverIdle(Value(), id, maxIdle, now);
      hide C.Expired, C.Remove;
      if idle {
        CloseAndDelete(id);
      }
    }

    method Dial(id: Id, now: Time) returns (state: ConnectionState)
      requires Valid()
      modifies this
      ensures Valid() && Value() == C.Insert(C.Opened(old(Value())), id, |old(sockets)|, now)
      ensures fresh(state.conn) && sockets == old(sockets) + [state.conn] && state.conn.written == []
      ensures connections == old(connections)[id := state] && states == old(states) + [state]
      ensures state.connectionID == id && state.createdAt == state.lastActivity == now
    {
      var conn := NewSocket();
      state := Track(id, conn, now);
    }

    /** `Forward` up to its unlock. */
    method ForwardLookup(id: Id, dials: bool, now: Time) returns (state: ConnectionState?)
      requires Valid()
      modifies this, states
      ensures Valid() && Value() == C.ForwardLookup(old(Value()), id, dials, now)
      ensures id in connections ==> connections[id].lastActivity == now
      ensures forall s :: s in old(states) && !(id in old(connections) && s == old(connections)[id]) ==>
        s.lastActivity == old(s.lastActivity)
      ensures sockets == old(sockets) || (state != null && fresh(state.conn) && sockets == old(sockets) + [state.conn])
      ensures state != null && state.conn !in old(sockets) ==> state.conn.written == []
      ensures id in old(connections) || !dials ==> connections == old(connections)
      ensures if id in old(connections) || dials then id in connections && state == connections[id] && state in states
              else state == null && id !in connections
    {
      if id in connections {
        state := connections[id];
        Touch(state, now);
      } else if dials {
        state := Dial(id, now);
      } else {
        state := null;
      }
    }

    /** The rest of `Forward`: a connection whose write fails is removed, by its ID. */
    method WriteOrRemove(state: ConnectionState, id: Id, data: seq<Byte>, writes: bool) returns (ok: bool)
      requires Valid() && state in states
      modifies `connections, sockets`open, state.conn`written
      ensures Valid() && Value() == if ok then old(Value()) else C.Remove(old(Value()), id)
      ensures ok <==> old(state.conn.open) && writes
      ensures state.conn.written == if ok then old(state.conn.written) + data else old(state.conn.written)
      ensures connections == if ok then old(connections) else old(connections) - {id}
      ensures forall s :: s in sockets ==>
        s.open == (old(s.open) && !(!ok && id in old(connections) && s == old(connections)[id].conn))
      ensures sockets == old(sockets) && states == old(states)
    {
      ok := state.conn.Write(data, writes);
      assert Value() == old(Value());
      if !ok {
        Remove(id);
      }
    }

    /** `Forward` when nothing runs between its sections: the bytes go to the end of the one
        connection of that ID, or nothing is written anywhere and a connection whose write
        failed is gone. */
    method Forward(id: Id, data: seq<Byte>, dials: bool, writes: bool, now: Time) returns (ok: bool, conn: Socket?)
      requires Valid()
      modifies this, states, sockets
      ensures Valid() && (var looked := C.ForwardLookup(old(Value()), id, dials, now);
                          Value() == if ok then looked else C.Remove(looked, id))
      ensures ok ==> conn != null && writes && id in connections && connections[id].conn == conn && conn in sockets
      ensures id in old(connections) ==> old(connections)[id].lastActivity == now
      ensures id in connections ==> connections[id].lastActivity == now
      ensures forall s :: s in old(states) && !(id in old(connections) && s == old(connections)[id]) ==>
        s.lastActivity == old(s.lastActivity)
      ensures forall s :: s in old(sockets) ==>
        s in sockets && s.written == if ok && s == conn then old(s.written) + data else old(s.written)
      ensures ok && conn !in old(sockets) ==> conn.written == data
    {
      hide C.ForwardLookup, Value;
      var state := ForwardLookup(id, dials, now);
      if state == null {
        NothingStored(id);
        return false, null;
      }
      conn := state.conn;
      ok := WriteOrRemove(state, id, data, writes);
    }

    lemma NothingStored(id: Id)
      requires Valid() && id !in connections
      ensures C.Remove(Value(), id) == Value()
    {
    }

    /** `DeliverResponse` when nothing runs between its sections. */
    method DeliverResponse(id: Id, data: seq<Byte>, writes: bool, now: Time) returns (ok: bool)
      requires Valid()
      modifies states, sockets
      ensures Valid() && Value() == C.TouchId(old(Value()), id, now)
      ensures id in connections ==> connections[id].lastActivity == now
      ensures forall s :: s in old(states) && !(id in old(connections) && s == old(connections)[id]) ==>
        s.lastActivity == old(s.lastActivity)
      ensures ok <==> id in connections && connections[id].conn.open && writes
      ensures forall s :: s in sockets ==>
        s.written == if ok && s == connections[id].conn then old(s.written) + data else old(s.written)
    {
      if id !in connections { return false; }
      var state := connections[id];
      Touch(state, now);
      ghost var touched := Value();
      ok := state.conn.Write(data, writes);
      assert Value() == touched;
    }
  }
}
