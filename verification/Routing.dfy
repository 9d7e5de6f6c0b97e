/** The server's three tables as values, and what each lock-protected section of
    `internal/server/registry.go` does to them. A route is a heap object in the source: a call
    keeps using it after it has been removed from the table. Here every route ever created has
    a number, its place in `routes`; `connections` maps an ID to the number of its route. */
module Routing {
  import opened Cidr
  import opened Wire

  /** Counters are 64-bit. */
  const WRAP64: nat := 0x1_0000_0000_0000_0000

  /** `idleTimeout`, five minutes in nanoseconds. */
  const IDLE_TIMEOUT: Time := 300_000_000_000

  datatype ProxyConn = ProxyConn(id: Id, stream: Stream, block: Option<Block>) {
    /** The proxy's CIDR parses, the destination parses, and the one contains the other. */
    predicate Serves(dst: Option<Address>) {
      block.Some? && dst.Some? && block.value.Contains(dst.value)
    }
  }

  datatype Route = Route(
    connId: Id, clientId: Id, proxyId: Id, created: Time, last: Time,
    packetsToClient: nat, packetsToProxy: nat, bytesToClient: nat, bytesToProxy: nat)
  {
    /** What never changes after creation. */
    function Binding(): (Id, Id, Id, Time) {
      (connId, clientId, proxyId, created)
    }

    function Touched(now: Time): Route {
      this.(last := now)
    }

    function CountedToProxy(bytes: nat): Route {
      this.(packetsToProxy := (packetsToProxy + 1) % WRAP64, bytesToProxy := (bytesToProxy + bytes) % WRAP64)
    }

    function CountedToClient(bytes: nat): Route {
      this.(packetsToClient := (packetsToClient + 1) % WRAP64, bytesToClient := (bytesToClient + bytes) % WRAP64)
    }
  }

  function NewRoute(connId: Id, clientId: Id, proxyId: Id, now: Time): Route {
    Route(connId, clientId, proxyId, now, now, 0, 0, 0, 0)
  }

  datatype Tables = Tables(
    clients: map<Id, Stream>, proxys: map<Id, ProxyConn>, connections: map<Id, nat>, routes: seq<Route>)
  {
    /** Table entries are routes stored under their own ID; proxies are too. */
    predicate Valid() {
      && (forall id :: id in connections ==> connections[id] < |routes| && routes[connections[id]].connId == id)
      && (forall id :: id in proxys ==> proxys[id].id == id)
    }
  }

  const EMPTY := Tables(map[], map[], map[], [])

  // ---------------------------------------------------------------- registration

  function RegisterClient(t: Tables, id: Id, stream: Stream): Tables {
    if id in t.clients then t else t.(clients := t.clients[id := stream])
  }

  function UnregisterClient(t: Tables, id: Id): Tables {
    t.(clients := t.clients - {id})
  }

  function RegisterProxy(t: Tables, id: Id, stream: Stream, block: Option<Block>): Tables {
    if id in t.proxys then t else t.(proxys := t.proxys[id := ProxyConn(id, stream, block)])
  }

  function UnregisterProxy(t: Tables, id: Id): Tables {
    t.(proxys := t.proxys - {id})
  }

  // ---------------------------------------------------------------- routing

  /** A possible result of `findProxyByCIDR`: some proxy that serves the address, whichever the
      map iteration meets first, or none when none does. */
  predicate Chosen(proxys: map<Id, ProxyConn>, dst: Option<Address>, choice: Option<Id>) {
    match choice
    case Some(id) => id in proxys && proxys[id].Serves(dst)
    case None => forall id :: id in proxys ==> !proxys[id].Serves(dst)
  }

  /** The outcome of the first locked section: an error, or the route and the stream to use. */
  datatype Lookup = Failed | Found(route: nat, stream: Stream)

  function TouchRoute(t: Tables, r: nat, now: Time): Tables
    requires r < |t.routes|
  {
    t.(routes := t.routes[r := t.routes[r].Touched(now)])
  }

  function AddRoute(t: Tables, route: Route): Tables {
    t.(connections := t.connections[route.connId := |t.routes|], routes := t.routes + [route])
  }

  function ProxyOf(t: Tables, r: nat): Lookup
    requires r < |t.routes|
  {
    var id := t.routes[r].proxyId;
    if id in t.proxys then Found(r, t.proxys[id].stream) else Failed
  }

  function ClientOf(t: Tables, r: nat): Lookup
    requires r < |t.routes|
  {
    var id := t.routes[r].clientId;
    if id in t.clients then Found(r, t.clients[id]) else Failed
  }

  /** `RouteFromClient` up to its first unlock. */
  function LookupToProxy(t: Tables, clientId: Id, pkt: Packet, choice: Option<Id>, now: Time): (Tables, Lookup)
    requires t.Valid()
  {
    if pkt.connId in t.connections then
      var r := t.connections[pkt.connId];
      (TouchRoute(t, r, now), ProxyOf(t, r))
    else if choice.None? then (t, Failed)
    else
      var t' := AddRoute(t, NewRoute(pkt.connId, clientId, choice.value, now));
      (t', ProxyOf(t', |t.routes|))
  }

  /** `RouteFromProxy` up to its first unlock. */
  function LookupToClient(t: Tables, pkt: Packet, now: Time): (Tables, Lookup)
    requires t.Valid()
  {
    if pkt.connId in t.connections then
      var r := t.connections[pkt.connId];
      (TouchRoute(t, r, now), ClientOf(t, r))
    else (t, Failed)
  }

  /** The second locked sections: the route may have left the table by now. */
  function CountToProxy(t: Tables, r: nat, bytes: nat): Tables
    requires r < |t.routes|
  {
    t.(routes := t.routes[r := t.routes[r].CountedToProxy(bytes)])
  }

  function CountToClient(t: Tables, r: nat, bytes: nat): Tables
    requires r < |t.routes|
  {
    t.(routes := t.routes[r := t.routes[r].CountedToClient(bytes)])
  }

  // ---------------------------------------------------------------- removal

  predicate Stale(t: Tables, id: Id, now: Time)
    requires t.Valid()
  {
    id in t.connections && now - t.routes[t.connections[id]].last > IDLE_TIMEOUT
  }

  function Sweep(t: Tables, now: Time): Tables
    requires t.Valid()
  {
    t.(connections := map id | id in t.connections && !Stale(t, id, now) :: t.connections[id])
  }

  lemma SweepDropsStale(t: Tables, now: Time, stale: seq<Id>)
    requires t.Valid() && forall id :: id in stale <==> Stale(t, id, now)
    ensures Sweep(t, now).connections == map id | id in t.connections && id !in stale :: t.connections[id]
  {
  }

  function RemoveConnection(t: Tables, id: Id): Tables {
    t.(connections := t.connections - {id})
  }

  // ---------------------------------------------------------------- proxy selection

  /** No registered block lies within another one (equal blocks lie within each other). */
  predicate NoNesting(proxys: map<Id, ProxyConn>) {
    forall i, j :: i in proxys && j in proxys && i != j && proxys[i].block.Some? && proxys[j].block.Some?
      ==> !proxys[i].block.value.Within(proxys[j].block.value)
  }

  ghost predicate OrderIndependent(proxys: map<Id, ProxyConn>) {
    forall a: Address, i, j :: a.Valid() && Chosen(proxys, Some(a), Some(i)) && Chosen(proxys, Some(a), Some(j))
      ==> i == j
  }

  /** The choice never depends on the iteration order exactly when no two registered blocks
      are nested or equal. */
  lemma SelectionOrderIndependentExactly(proxys: map<Id, ProxyConn>)
    requires forall id :: id in proxys && proxys[id].block.Some? ==> proxys[id].block.value.Valid()
    ensures OrderIndependent(proxys) <==> NoNesting(proxys)
  {
    if NoNesting(proxys) {
      forall a: Address, i, j | a.Valid() && Chosen(proxys, Some(a), Some(i)) && Chosen(proxys, Some(a), Some(j))
        ensures i == j
      {
        NestedOrDisjoint(proxys[i].block.value, proxys[j].block.value, a);
      }
    } else {
      var i, j :| i in proxys && j in proxys && i != j && proxys[i].block.Some? && proxys[j].block.Some?
        && proxys[i].block.value.Within(proxys[j].block.value);
      var a := proxys[i].block.value.First();
      assert a.Valid() && Chosen(proxys, Some(a), Some(i)) && Chosen(proxys, Some(a), Some(j));
    }
  }

  /** 0.0.0.0/0 and 0.0.0.0/8: for 0.0.0.0 either proxy may be chosen. */
  lemma NestedBlocksAreAmbiguous()
    ensures var proxys := map[
        "p" := ProxyConn("p", 0, Some(Block(32, 0, 0))), "q" := ProxyConn("q", 1, Some(Block(32, 0, 8)))];
      Chosen(proxys, Some(Address(32, 0)), Some("p")) && Chosen(proxys, Some(Address(32, 0)), Some("q"))
  {
  }
}
