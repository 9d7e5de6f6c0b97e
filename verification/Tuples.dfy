/** Connection tuples, in every state of every run of the whole system: what a proxy receives has
    one, and what it writes to one target has the same one, as long as no two client connections
    of one ID differ in theirs. */
module Tuples {
  import opened Wire
  import opened Pipeline
  import opened EndToEnd
  import opened Delivery
  import opened Direction
  import opened Fate
  import P = Process

  // ---------------------------------------------------------------- what a proxy receives

  lemma FaithfulInOrder(xs: seq<Packet>, p: Packet, log: seq<Packet>, exact: bool)
    requires Ordered(Of(xs, p.origin), log, exact) && p in xs
    ensures Faithful(p, log, exact)
  {
    hide Faithful;
    KeepsMember(xs, p);
    var i: nat :| i < |Of(xs, p.origin)| && Of(xs, p.origin)[i] == p;
  }

  /** In whatever a proxy has still to receive there is a tuple: `Forward` never looks for the
      destination of a packet without one. */
  lemma DownHasTuple(states: seq<System>, events: seq<Event>, n: nat, d: Stream, p: Packet)
    requires Run(states, events) && n < |states| && p in Queued(states[n].down, d)
    requires d in states[n].procs && states[n].procs[d].role.ProxyRole?
    ensures p.flow.Some?
  {
    var y, o := states[n], p.origin;
    RunKeepsDirected(states, events, n);
    assert Opposite(y, o.stream, d);
    hide Run, Inv, Shape, Directed, Carried, Queued, Ordered, Of, Faithful, Log, FromProxy;
    StretchesAreOrdered(y, o, d, 0);
    FaithfulInOrder(Queued(y.down, d), p, Log(y, o), FromProxy(y, o));
    FaithfulFits(y, p);
  }

  // ---------------------------------------------------------------- what a proxy writes

  predicate Connection(y: System, o: Origin, id: Id) {
    && o.stream in y.procs && y.procs[o.stream].role.ClientRole? && o.socket < |y.procs[o.stream].workers|
    && y.procs[o.stream].workers[o.socket].entry.Some? && y.procs[o.stream].workers[o.socket].connId == id
  }

  /** No two connections that clients have tracked under one ID differ in their tuples. */
  ghost predicate OneTuple(y: System, id: Id) {
    forall a, b :: Connection(y, a, id) && Connection(y, b, id) ==>
      y.procs[a.stream].workers[a.socket].flow == y.procs[b.stream].workers[b.socket].flow
  }

  lemma WrittenHasTuple(states: seq<System>, events: seq<Event>, n: nat, d: Stream, h: nat, p: Packet)
    requires Run(states, events) && n < |states| && p in Written(states[n], d, h)
    requires states[n].procs[d].role.ProxyRole?
    ensures p.flow.Some? && Connection(states[n], p.origin, p.connId)
    ensures p.flow == states[n].procs[p.origin.stream].workers[p.origin.socket].flow
    ensures h < |states[n].procs[d].workers| && states[n].procs[d].workers[h].connId == p.connId
  {
    WrittenComesFromTheOtherSide(states, events, n, d, h, p);
    NothingCrossesConnections(states, events, n, d, h, p);
    RunKeepsInv(states, events, n);
    WrittenIsFaithful(states[n], d, h, p);
    hide Run, Inv, Faithful, Log, FromProxy, Written;
    FaithfulFits(states[n], p);
  }

  /** Everything written to one target carries one tuple, if the client connections of that ID
      do. `Witness.TwoTuplesOneTarget` is a run in which they do not. */
  lemma OneTuplePerTarget(states: seq<System>, events: seq<Event>, n: nat, d: Stream, h: nat, p: Packet, q: Packet)
    requires Run(states, events) && n < |states| && p in Written(states[n], d, h) && q in Written(states[n], d, h)
    requires states[n].procs[d].role.ProxyRole? && OneTuple(states[n], p.connId)
    ensures p.flow == q.flow && p.flow.Some?
  {
    hide Run;
    WrittenHasTuple(states, events, n, d, h, p);
    WrittenHasTuple(states, events, n, d, h, q);
  }
}
