/** The connection tables of the client (`internal/client/tracker.go`) and of the proxy
    (`internal/proxy/forwarder.go`) as values. Both map a connection ID to a state object that
    owns a socket, remove by ID, and close the socket they remove. State objects are numbered
    in the order of their creation, like sockets: an object may be replaced in, or removed
    from, the table while somebody still uses it. */
module Connections {
  import opened Wire

  datatype Entry = Entry(connId: Id, socket: nat, created: Time, last: Time)

  /** `open[k]` says whether socket `k` is still open. */
  datatype Table = Table(connections: map<Id, nat>, entries: seq<Entry>, open: seq<bool>) {
    predicate Valid() {
      && (forall id :: id in connections ==> connections[id] < |entries| && entries[connections[id]].connId == id)
      && (forall e :: e in entries ==> e.socket < |open|)
    }

    /** The entry stored under `id`. */
    function Stored(id: Id): Entry
      requires Valid() && id in connections
    {
      entries[connections[id]]
    }
  }

  const EMPTY := Table(map[], [], [])

  /** A connection accepted or dialed. */
  function Opened(t: Table): (r: Table)
    ensures t.Valid() ==> r.Valid()
  {
    t.(open := t.open + [true])
  }

  function Closed(t: Table, k: nat): (r: Table)
    requires k < |t.open|
    ensures t.Valid() ==> r.Valid()
  {
    t.(open := t.open[k := false])
  }

  /** A new state object under `id`, replacing whatever is there. */
  function Insert(t: Table, id: Id, socket: nat, now: Time): (r: Table)
    ensures t.Valid() && socket < |t.open| ==> r.Valid()
  {
    t.(connections := t.connections[id := |t.entries|], entries := t.entries + [Entry(id, socket, now, now)])
  }

  function Touch(t: Table, e: nat, now: Time): (r: Table)
    requires e < |t.entries|
    ensures t.Valid() ==> r.Valid()
  {
    t.(entries := t.entries[e := t.entries[e].(last := now)])
  }

  function TouchId(t: Table, id: Id, now: Time): (r: Table)
    requires t.Valid()
    ensures r.Valid()
  {
    if id in t.connections then Touch(t, t.connections[id], now) else t
  }

  /** Whatever is stored under `id` is closed and removed. */
  function Remove(t: Table, id: Id): (r: Table)
    requires t.Valid()
    ensures r.Valid()
  {
    if id in t.connections then Closed(t, t.Stored(id).socket).(connections := t.connections - {id}) else t
  }

  /** `Forward` up to its unlock: a known connection is touched, an unknown one dialed. */
  function ForwardLookup(t: Table, id: Id, dials: bool, now: Time): (r: Table)
    requires t.Valid()
    ensures r.Valid()
  {
    if id in t.connections then Touch(t, t.connections[id], now)
    else if dials then Insert(Opened(t), id, |t.open|, now)
    else t
  }

  predicate OverIdle(t: Table, id: Id, maxIdle: Time, now: Time)
    requires t.Valid()
  {
    id in t.connections && now - t.Stored(id).last > maxIdle
  }

  /** Socket `k` belongs to an over-idle entry stored under one of `ids`. */
  predicate Expires(t: Table, ids: set<Id>, k: nat, maxIdle: Time, now: Time)
    requires t.Valid()
  {
    exists id :: id in ids && OverIdle(t, id, maxIdle, now) && t.Stored(id).socket == k
  }

  /** Of the entries stored under `ids`, the over-idle ones are closed and removed. */
  function Expired(t: Table, ids: set<Id>, maxIdle: Time, now: Time): (r: Table)
    requires t.Valid()
    ensures r.Valid()
  {
    Table(
      map id | id in t.connections && !(id in ids && OverIdle(t, id, maxIdle, now)) :: t.connections[id],
      t.entries,
      seq(|t.open|, k requires 0 <= k < |t.open| => t.open[k] && !Expires(t, ids, k, maxIdle, now)))
  }

  /** A cleanup closes and removes exactly the over-idle entries. */
  function Cleanup(t: Table, maxIdle: Time, now: Time): (r: Table)
    requires t.Valid()
    ensures r.Valid()
  {
    Expired(t, t.connections.Keys, maxIdle, now)
  }

  lemma NothingExpired(t: Table, maxIdle: Time, now: Time)
    requires t.Valid()
    ensures Expired(t, {}, maxIdle, now) == t
  {
  }

  /** Deciding one more entry removes it or leaves it. */
  lemma OneMoreExpired(t: Table, ids: set<Id>, id: Id, maxIdle: Time, now: Time)
    requires t.Valid() && id in t.connections && id !in ids
    ensures var before := Expired(t, ids, maxIdle, now);
      id in before.connections && before.Stored(id) == t.Stored(id)
    ensures var before := Expired(t, ids, maxIdle, now);
      Expired(t, ids + {id}, maxIdle, now) == if OverIdle(t, id, maxIdle, now) then Remove(before, id) else before
  {
    var before, after := Expired(t, ids, maxIdle, now), Expired(t, ids + {id}, maxIdle, now);
    var expected := if OverIdle(t, id, maxIdle, now) then Remove(before, id) else before;
    assert before.connections[id] == t.connections[id];
    assert after.connections == expected.connections;
    forall k | 0 <= k < |t.open| ensures after.open[k] == expected.open[k] {
      assert Expires(t, ids + {id}, k, maxIdle, now)
        <==> Expires(t, ids, k, maxIdle, now) || (OverIdle(t, id, maxIdle, now) && t.Stored(id).socket == k) by {
        if OverIdle(t, id, maxIdle, now) && t.Stored(id).socket == k { assert id in ids + {id}; }
      }
    }
  }
}
