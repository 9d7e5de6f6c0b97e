/** `internal/server/registry.go` as it is written: maps updated in place under a lock, and
    route objects that calls may hold after they have left the map. Each method is proved
    against the value it stands for in `Routing`. */
module Registry {
  import opened Cidr
  import opened Wire
  import R = Routing

  class ConnectionRoute {
    const connectionID: Id
    const clientID: Id
    const proxyID: Id
    const createdAt: Time
    var lastActivity: Time
    var packetsToClient: nat
    var packetsToProxy: nat
    var bytesToClient: nat
    var bytesToProxy: nat
    /** This route's number among all the routes its registry ever created. */
    ghost const number: nat

    constructor (connectionID: Id, clientID: Id, proxyID: Id, now: Time, ghost number: nat)
      ensures Value() == R.NewRoute(connectionID, clientID, proxyID, now) && this.number == number
    {
      this.connectionID, this.clientID, this.proxyID, this.createdAt := connectionID, clientID, proxyID, now;
      lastActivity, packetsToClient, packetsToProxy, bytesToClient, bytesToProxy := now, 0, 0, 0, 0;
      this.number := number;
    }

    ghost function Value(): R.Route
      reads this
    {
      R.Route(connectionID, clientID, proxyID, createdAt, lastActivity,
              packetsToClient, packetsToProxy, bytesToClient, bytesToProxy)
    }
  }

  class Registry {
    var clients: map<Id, Stream>
    var proxys: map<Id, R.ProxyConn>
    var connections: map<Id, ConnectionRoute>
    /** Every route object ever created, in the table or not. */
    ghost var created: seq<ConnectionRoute>

    ghost predicate Valid()
      reads this, created
    {
      && (forall k :: 0 <= k < |created| ==> created[k].number == k)
      && (forall id :: id in connections ==> connections[id] in created)
      && (forall id :: id in connections ==> connections[id].connectionID == id)
      && (forall id :: id in proxys ==> proxys[id].id == id)
    }

    /** The table of routes, each route named by its number. */
    ghost function Numbers(): map<Id, nat>
      reads this
    {
      map id | id in connections :: connections[id].number
    }

    ghost function Routes(): seq<R.Route>
      reads this, created
    {
      seq(|created|, k requires 0 <= k < |created| reads this, created => created[k].Value())
    }

    /** The registry's value. */
    ghost function Tables(): (t: R.Tables)
      requires Valid()
      reads this, created
      ensures t.Valid()
    {
      R.Tables(clients, proxys, Numbers(), Routes())
    }

    constructor ()
      ensures Valid() && Tables() == R.EMPTY
    {
      clients, proxys, connections, created := map[], map[], map[], [];
    }

    // -------------------------------------------------------------- registration

    method RegisterClientStream(id: Id, stream: Stream) returns (ok: bool)
      requires Valid()
      modifies this
      ensures Valid() && Tables() == R.RegisterClient(old(Tables()), id, stream)
      ensures ok <==> id !in old(clients)
      ensures clients == if ok then old(clients)[id := stream] else old(clients)
      ensures proxys == old(proxys) && connections == old(connections)
      ensures created == old(created)
    {
      if id in clients { return false; }
      clients := clients[id := stream];
      return true;
    }

    method UnregisterClient(id: Id)
      requires Valid()
      modifies this
      ensures Valid() && Tables() == R.UnregisterClient(old(Tables()), id)
      ensures clients == old(clients) - {id} && proxys == old(proxys) && connections == old(connections)
      ensures created == old(created)
    {
      if id in clients {
        clients := clients - {id};
      }
      assert clients == old(clients) - {id};
    }

    method RegisterProxyStream(id: Id, stream: Stream, block: Option<Block>) returns (ok: bool)
      requires Valid()
      modifies this
      ensures Valid() && Tables() == R.RegisterProxy(old(Tables()), id, stream, block)
      ensures ok <==> id !in old(proxys)
      ensures proxys == if ok then old(proxys)[id := R.ProxyConn(id, stream, block)] else old(proxys)
      ensures clients == old(clients) && connections == old(connections)
      ensures created == old(created)
    {
      if id in proxys { return false; }
      proxys := proxys[id := R.ProxyConn(id, stream, block)];
      return true;
    }

    method UnregisterProxy(id: Id)
      requires Valid()
      modifies this
      ensures Valid() && Tables() == R.UnregisterProxy(old(Tables()), id)
      ensures proxys == old(proxys) - {id} && clients == old(clients) && connections == old(connections)
      ensures created == old(created)
    {
      if id in proxys {
        proxys := proxys - {id};
      }
      assert proxys == old(proxys) - {id};
    }

    static predicate BlockHas(block: Option<Block>, a: Address) {
      block.Some? && block.value.Contains(a)
    }

    /** Iterates over the map in an arbitrary order, skipping what does not parse. */
    method FindProxyByCIDR(target: Option<Address>) returns (choice: Option<Id>)
      ensures R.Chosen(proxys, target, choice)
      ensures choice.Some? ==>
        choice.value in proxys && target.Some? && BlockHas(proxys[choice.value].block, target.value)
      ensures choice.None? && target.Some? ==>
        forall id :: id in proxys ==> !BlockHas(proxys[id].block, target.value)
    {
      if target.None? { return None; }
      var rest := proxys.Keys;
      while rest != {}
        invariant rest <= proxys.Keys
        invariant forall id :: id in proxys && id !in rest ==> !proxys[id].Serves(target)
        decreases rest
      {
        var id :| id in rest;
        rest := rest - {id};
        var proxy := proxys[id];
        if proxy.block.None? { continue; }
        if proxy.block.value.Contains(target.value) {
          return Some(id);
        }
      }
      return None;
    }

    // -------------------------------------------------------------- routing

    /** `route.LastActivity = now`, for a route that may have left the table. */
    method Touch(route: ConnectionRoute, now: Time)
      requires Valid() && route in created
      modifies route`lastActivity
      ensures Valid() && Tables() == R.TouchRoute(old(Tables()), route.number, now)
      ensures route.lastActivity == now
    {
      route.lastActivity := now;
    }

    method AddRoute(connID: Id, clientID: Id, proxyID: Id, now: Time) returns (route: ConnectionRoute)
      requires Valid()
      modifies this`connections, this`created
      ensures Valid() && Tables() == R.AddRoute(old(Tables()), R.NewRoute(connID, clientID, proxyID, now))
      ensures fresh(route) && created == old(created) + [route] && route.number == |old(created)|
      ensures route.clientID == clientID && route.proxyID == proxyID && route.lastActivity == route.createdAt == now
      ensures connections == old(connections)[connID := route]
    {
      route := new ConnectionRoute(connID, clientID, proxyID, now, |created|);
      connections := connections[connID := route];
      created := created + [route];
      assert Numbers() == old(Numbers())[connID := route.number];
      assert Routes() == old(Routes()) + [route.Value()];
    }

    function StreamOfProxy(id: Id): Option<Stream>
      reads this
    {
      if id in proxys then Some(proxys[id].stream) else None
    }

    /** A route as it is created, with nothing counted. */
    static predicate Fresh(route: ConnectionRoute, clientID: Id, proxyID: Id)
      reads route
    {
      && route.clientID == clientID && route.proxyID == proxyID
      && route.packetsToClient == route.packetsToProxy == route.bytesToClient == route.bytesToProxy == 0
    }

    /** The first locked section of `RouteFromClient`; `choice` is the proxy picked for a new
        connection. */
    method LookupFromClient(clientID: Id, pkt: Packet, now: Time)
      returns (route: ConnectionRoute?, target: Option<Stream>, ghost choice: Option<Id>)
      requires Valid()
      modifies this`connections, this`created, created
      ensures Valid() && old(created) <= created && fresh((set r | r in created) - old(set r | r in created))
      ensures pkt.connId !in old(connections) ==> R.Chosen(proxys, pkt.Dst(), choice)
      ensures Tables() == R.LookupToProxy(old(Tables()), clientID, pkt, choice, now).0
      ensures match R.LookupToProxy(old(Tables()), clientID, pkt, choice, now).1
        case Failed => target == None
        case Found(r, stream) => target == Some(stream) && route != null && route in created && route.number == r
      ensures pkt.connId in old(connections) ==> connections == old(connections) && route == connections[pkt.connId]
      ensures pkt.connId !in old(connections) && choice.Some? ==>
        route != null && connections == old(connections)[pkt.connId := route] && Fresh(route, clientID, choice.value)
      ensures pkt.connId !in old(connections) && choice.None? ==> connections == old(connections) && target == None
      ensures route != null ==> route.lastActivity == now && target == StreamOfProxy(route.proxyID)
    {
      choice := None;
      if pkt.connId in connections {
        route := connections[pkt.connId];
        Touch(route, now);
      } else {
        var proxyId := FindProxyByCIDR(pkt.Dst());
        choice := proxyId;
        if proxyId.None? { return null, None, choice; }
        route := AddRoute(pkt.connId, clientID, proxyId.value, now);
      }
      target := if route.proxyID in proxys then Some(proxys[route.proxyID].stream) else None;
    }

    /** The first locked section of `RouteFromProxy`. */
    method LookupFromProxy(pkt: Packet, now: Time) returns (route: ConnectionRoute?, target: Option<Stream>)
      requires Valid()
      modifies created
      ensures Valid() && Tables() == R.LookupToClient(old(Tables()), pkt, now).0
      ensures match R.LookupToClient(old(Tables()), pkt, now).1
        case Failed => target == None
        case Found(r, stream) => target == Some(stream) && route != null && route in created && route.number == r
      ensures target == if pkt.connId in connections && connections[pkt.connId].clientID in clients
                        then Some(clients[connections[pkt.connId].clientID]) else None
      ensures pkt.connId in connections ==>
        route == connections[pkt.connId] && route in created && route.lastActivity == now
    {
      if pkt.connId !in connections { return null, None; }
      route := connections[pkt.connId];
      Touch(route, now);
      target := if route.clientID in clients then Some(clients[route.clientID]) else None;
    }

    /** The second locked section of `RouteFromClient`. */
    method CountToProxy(route: ConnectionRoute, bytes: nat)
      requires Valid() && route in created
      modifies route`packetsToProxy, route`bytesToProxy
      ensures Valid() && Tables() == R.CountToProxy(old(Tables()), route.number, bytes)
      ensures route.packetsToProxy == (old(route.packetsToProxy) + 1) % 0x1_0000_0000_0000_0000
      ensures route.bytesToProxy == (old(route.bytesToProxy) + bytes) % 0x1_0000_0000_0000_0000
    {
      route.packetsToProxy := (route.packetsToProxy + 1) % R.WRAP64;
      route.bytesToProxy := (route.bytesToProxy + bytes) % R.WRAP64;
    }

    /** The second locked section of `RouteFromProxy`. */
    method CountToClient(route: ConnectionRoute, bytes: nat)
      requires Valid() && route in created
      modifies route`packetsToClient, route`bytesToClient
      ensures Valid() && Tables() == R.CountToClient(old(Tables()), route.number, bytes)
      ensures route.packetsToClient == (old(route.packetsToClient) + 1) % 0x1_0000_0000_0000_0000
      ensures route.bytesToClient == (old(route.bytesToClient) + bytes) % 0x1_0000_0000_0000_0000
    {
      route.packetsToClient := (route.packetsToClient + 1) % R.WRAP64;
      route.bytesToClient := (route.bytesToClient + bytes) % R.WRAP64;
    }

    /** `RouteFromClient` when nothing runs between its two sections: the stream to send on, if
        the packet can be routed. */
    method RouteFromClient(clientID: Id, pkt: Packet, now: Time)
      returns (target: Option<Stream>, ghost choice: Option<Id>)
      requires Valid()
      modifies this`connections, this`created, created
      ensures Valid() && old(created) <= created && fresh((set r | r in created) - old(set r | r in created))
      ensures pkt.connId !in old(connections) ==> R.Chosen(proxys, pkt.Dst(), choice)
      ensures var (looked, found) := R.LookupToProxy(old(Tables()), clientID, pkt, choice, now);
        match found
        case Failed => target == None && Tables() == looked
        case Found(r, stream) =>
          target == Some(stream) && r < |looked.routes| && Tables() == R.CountToProxy(looked, r, |pkt.data|)
      ensures target == if pkt.connId in connections then StreamOfProxy(connections[pkt.connId].proxyID) else None
      ensures pkt.connId in connections ==> connections[pkt.connId].lastActivity == now
      ensures pkt.connId in old(connections) || choice.None? ==> connections == old(connections)
      ensures pkt.connId !in old(connections) && choice.Some? ==>
        && connections.Keys == old(connections).Keys + {pkt.connId}
        && connections[pkt.connId].clientID == clientID && connections[pkt.connId].proxyID == choice.value
    {
      var route;
      route, target, choice := LookupFromClient(clientID, pkt, now);
      if target.Some? {
        CountToProxy(route, |pkt.data|);
      }
    }

    method RouteFromProxy(pkt: Packet, now: Time) returns (target: Option<Stream>)
      requires Valid()
      modifies created
      ensures Valid()
      ensures var (looked, found) := R.LookupToClient(old(Tables()), pkt, now);
        match found
        case Failed => target == None && Tables() == looked
        case Found(r, stream) =>
          target == Some(stream) && r < |looked.routes| && Tables() == R.CountToClient(looked, r, |pkt.data|)
      ensures target == if pkt.connId in connections && connections[pkt.connId].clientID in clients
                        then Some(clients[connections[pkt.connId].clientID]) else None
      ensures pkt.connId in connections ==> connections[pkt.connId].lastActivity == now
    {
      var route;
      route, target := LookupFromProxy(pkt, now);
      if target.Some? {
        CountToClient(route, |pkt.data|);
      }
    }

    // -------------------------------------------------------------- removal

    /** Collects the stale IDs in a first pass and deletes them in a second. */
    method CleanupStaleConnections(now: Time) returns (removed: nat)
      requires Valid()
      modifies this`connections
      ensures Valid() && Tables() == R.Sweep(old(Tables()), now)
      ensures forall id :: id in connections <==> id in old(connections) && !Idle(old(connections)[id], now)
      ensures forall id :: id in connections ==> connections[id] == old(connections)[id]
      ensures removed == |old(connections)| - |connections|
    {
      var stale := CollectStale(now);
      ghost var before := Tables();
      DeleteAll(stale);
      removed := |stale|;
      hide *;
      SweptTables(before, old(connections), stale, now);
    }

    /** Not used for more than five minutes. */
    static predicate Idle(route: ConnectionRoute, now: Time)
      reads route
    {
      now - route.lastActivity > 300_000_000_000
    }

    /** The tables once the stale routes are gone from the map and nothing else has changed. */
    lemma SweptTables(before: R.Tables, was: map<Id, ConnectionRoute>, stale: seq<Id>, now: Time)
      requires connections == map id | id in was && id !in stale :: was[id]
      requires forall id :: id in was ==> was[id] in created && was[id].connectionID == id
      requires forall k :: 0 <= k < |created| ==> created[k].number == k
      requires forall id :: id in proxys ==> proxys[id].id == id
      requires before == R.Tables(clients, proxys, map id | id in was :: was[id].number, Routes())
      requires forall id :: id in stale <==> id in was && Idle(was[id], now)
      ensures Valid() && before.Valid() && Tables() == R.Sweep(before, now)
    {
      assert forall id :: id in was ==> before.routes[before.connections[id]] == was[id].Value();
      assert Numbers() == map id | id in before.connections && id !in stale :: before.connections[id];
      R.SweepDropsStale(before, now, stale);
    }

    method CollectStale(now: Time) returns (stale: seq<Id>)
      ensures forall id :: id in stale <==> id in connections && Idle(connections[id], now)
      ensures forall i, j :: 0 <= i < j < |stale| ==> stale[i] != stale[j]
    {
      stale := [];
      var rest := connections.Keys;
      while rest != {}
        invariant rest <= connections.Keys
        invariant forall id :: id in stale <==> id in connections.Keys - rest && Idle(connections[id], now)
        invariant forall i, j :: 0 <= i < j < |stale| ==> stale[i] != stale[j]
        decreases rest
      {
        var id :| id in rest;
        assert id !in stale;
        rest := rest - {id};
        if now - connections[id].lastActivity > R.IDLE_TIMEOUT {
          stale := stale + [id];
        }
      }
    }

    method DeleteAll(stale: seq<Id>)
      requires forall id :: id in stale ==> id in connections
      requires forall i, j :: 0 <= i < j < |stale| ==> stale[i] != stale[j]
      modifies this`connections
      ensures connections == map id | id in old(connections) && id !in stale :: old(connections)[id]
      ensures |connections| == |old(connections)| - |stale|
    {
      for i := 0 to |stale|
        invariant connections == map id | id in old(connections) && id !in stale[..i] :: old(connections)[id]
        invariant |connections| == |old(connections)| - i
      {
        assert stale[i] in connections;
        connections := connections - {stale[i]};
      }
    }

    method RemoveConnection(connID: Id)
      requires Valid()
      modifies this`connections
      ensures Valid() && Tables() == R.RemoveConnection(old(Tables()), connID)
      ensures connections == old(connections) - {connID}
    {
      connections := connections - {connID};
      assert Numbers() == old(Numbers()) - {connID};
      assert Routes() == old(Routes());
    }
  }
}
