/** Runs of the whole system: one in which a byte read by a client is written to a target, one in
    which another byte is written than was read, and one in which two connections of one ID are
    written to the same target. */
module Witness {
  import opened Bytes
  import opened Cidr
  import opened Wire
  import opened Carriage
  import opened EndToEnd
  import opened Progress
  import D = Delivery
  import C = Connections
  import P = Process
  import R = Routing
  import S = Server
  import Paths

  const HOME := Address(32, 0)
  const PROXY := R.ProxyConn("p", 1, Some(Block(32, 0, 0)))
  const AWAY := Address(32, 1)
  const FLOW := Flow(Some(AWAY), 40000, Some(HOME), 80)
  const BACK := Flow(Some(HOME), 80, Some(AWAY), 40000)
  const READ := Origin(0, 0)

  /** The state a run ends in. */
  ghost predicate Ends(states: seq<System>, events: seq<Event>, y: System) {
    Run(states, events) && |states| == |events| + 1 && y == states[|events|] && Shape(y)
  }

  lemma Extended(states: seq<System>, events: seq<Event>, y: System, e: Event)
    returns (states': seq<System>, events': seq<Event>, y': System)
    requires Ends(states, events, y) && Enabled(y, e)
    ensures Ends(states', events', y') && y' == Apply(y, e)
  {
    hide Apply, Shape, Enabled, Init;
    y' := Apply(y, e);
    StepKeepsShape(y, e);
    states', events' := states + [y'], events + [e];
    assert forall i :: 0 <= i < |events| ==> events'[i] == events[i] && states'[i] == states[i];
  }

  lemma EndsShaped(states: seq<System>, events: seq<Event>, y: System, st: Stream)
    requires Ends(states, events, y) && st in y.procs
    ensures P.Shape(y.procs[st])
  {
    hide Run, P.Shape, Carries, S.Shape;
  }

  lemma RunStarts()
    ensures Ends([Init(0)], [], Init(0))
  {
  }

  lemma EndsShape(states: seq<System>, events: seq<Event>, y: System)
    requires Ends(states, events, y)
    ensures Shape(y) && S.Shape(y.server)
  {
    hide Run, P.Shape, Carries, S.Shape;
  }

  /** A run goes on with a path of steps. */
  lemma Continued(states: seq<System>, events: seq<Event>, y: System, ys: seq<System>, es: seq<Event>)
    returns (states': seq<System>, events': seq<Event>, y': System)
    requires Ends(states, events, y) && Paths.Path(Step, ys, es) && ys[0] == y
    ensures Ends(states', events', y') && y' == ys[|es|]
    decreases |es|
  {
    hide Shape, Enabled, Apply, Init;
    if es == [] {
      states', events', y' := states, events, y;
    } else {
      assert Step(ys[0], es[0], ys[1]);
      states', events', y' := Extended(states, events, y, es[0]);
      assert forall i :: 0 <= i < |es| - 1 ==> es[1..][i] == es[i + 1];
      forall i | 0 <= i < |es| - 1 ensures Step(ys[1..][i], es[1..][i], ys[1..][i + 1]) {
        assert Step(ys[i + 1], es[i + 1], ys[i + 1 + 1]);
      }
      states', events', y' := Continued(states', events', y', ys[1..], es[1..]);
    }
  }

  // ---------------------------------------------------------------- both sides are registered

  const CLIENT := S.Session(ClientRole, "a", true, ["a"], S.Receiving)
  const PROXY_SESSION := S.Session(ProxyRole, "p", true, ["p"], S.Receiving)
  const SERVER := S.State(
    R.Tables(map["a" := 0], map["p" := PROXY], map[], []), map[0 := CLIENT, 1 := PROXY_SESSION], 0, [], [])
  const PROCS := map[0 := P.Init(ClientRole, 0, 0), 1 := P.Init(ProxyRole, 1, 0)]

  lemma BothJoin()
    ensures Enrolled(Enrolled(S.Init(0), 0, ClientRole, "a", None), 1, ProxyRole, "p", PROXY.block) == SERVER
  {
  }

  lemma RegisteredBoth() returns (states: seq<System>, events: seq<Event>, y: System)
    ensures Ends(states, events, y) && y == System(PROCS, SERVER, map[], map[])
  {
    BothJoin();
    RunStarts();
    hide Ends, Shape, Step, P.Init;
    states, events, y := [Init(0)], [], Init(0);
    EndsShape(states, events, y);
    var y1, y2, y3, y4 := Joins(y, 0, ClientRole, 0, "a", None);
    states, events, y := Continued(
      states, events, y, [y, y1, y2, y3, y4],
      [Start(0, ClientRole, 0), Relay(S.Open(0, ClientRole)),
       Relay(S.Register(0, "a", None)), Relay(S.Acked(0, true))]);
    EndsShape(states, events, y);
    y1, y2, y3, y4 := Joins(y, 1, ProxyRole, 0, "p", PROXY.block);
    states, events, y := Continued(
      states, events, y, [y, y1, y2, y3, y4],
      [Start(1, ProxyRole, 0), Relay(S.Open(1, ProxyRole)),
       Relay(S.Register(1, "p", PROXY.block)), Relay(S.Acked(1, true))]);
  }

  // ---------------------------------------------------------------- the client reads and sends

  /** A process takes a step by itself. */
  lemma MovesOn(states: seq<System>, events: seq<Event>, y: System, st: Stream, pe: P.Event)
    returns (states': seq<System>, events': seq<Event>, y': System)
    requires Ends(states, events, y) && st in y.procs && P.Shape(y.procs[st]) && P.Enabled(y.procs[st], pe)
    requires !pe.Emit? && !pe.Receive?
    ensures Ends(states', events', y') && st in y'.procs && P.Shape(y'.procs[st])
    ensures y' == y.(procs := y.procs[st := P.Apply(y.procs[st], pe)])
  {
    hide Run, P.Apply, P.Shape, P.Enabled, Carries, S.Shape;
    states', events', y' := Extended(states, events, y, Internal(st, pe));
    EndsShaped(states', events', y', st);
  }

  /** The client accepts one more connection. */
  ghost predicate Tracks(s: P.State, s': P.State, flow: Flow) {
    var k := |s.workers|;
    && s'.role == s.role && s'.stream == s.stream
    && s'.queue == s.queue && s'.outHand == s.outHand && s'.inHand == s.inHand
    && |s'.workers| == k + 1 && s'.In(k, P.Reading) && s'.workers[k].connId == "c" && s'.workers[k].flow == Some(flow)
    && s'.lines == s.lines + [P.NewLine()] && s'.table.open == s.table.open + [true]
  }

  lemma Tracked(states: seq<System>, events: seq<Event>, y: System, flow: Flow)
    returns (states': seq<System>, events': seq<Event>, y': System)
    requires Ends(states, events, y) && 0 in y.procs && P.Shape(y.procs[0]) && y.procs[0].role.ClientRole?
    ensures Ends(states', events', y') && 0 in y'.procs && P.Shape(y'.procs[0])
    ensures y' == y.(procs := y.procs[0 := y'.procs[0]]) && Tracks(y.procs[0], y'.procs[0], flow)
    ensures Reaches(y'.procs[0], "c") && y'.procs[0].table.Stored("c").socket == |y.procs[0].workers|
  {
    hide Ends, P.Shape, P.NewLine;
    var k := |y.procs[0].workers|;
    OpensNew(y.procs[0]);
    states', events', y' := MovesOn(states, events, y, 0, P.Accept);
    LeadsToNew(y'.procs[0], k, flow);
    states', events', y' := MovesOn(states', events', y', 0, P.Track(k, "c", flow));
  }

  lemma OpensNew(s: P.State)
    requires P.Shape(s) && P.Enabled(s, P.Accept)
    ensures var k, t := |s.workers|, P.Apply(s, P.Accept).table; k < |t.open| && t.open[k]
  {
  }

  lemma LeadsToNew(s: P.State, k: nat, flow: Flow)
    requires P.Shape(s) && P.Enabled(s, P.Track(k, "c", flow)) && k < |s.table.open| && s.table.open[k]
    ensures var s' := P.Apply(s, P.Track(k, "c", flow));
      P.Shape(s') ==> Reaches(s', "c") && s'.table.Stored("c").socket == k
  {
  }

  /** The line of a connection after one more read. */
  function Longer(line: P.Line, p: Packet, pending: Option<Packet>): P.Line {
    P.Line(line.chunks + [p], P.Overwritten(line.buf, p.data), pending, line.written)
  }

  lemma Reads(s: P.State, k: nat, bytes: seq<Byte>)
    requires P.Shape(s) && P.Enabled(s, P.Read(k, bytes))
    ensures k < |s.workers| == |s.lines|
    ensures var p, s' := P.Chunk(s, k, bytes), P.Apply(s, P.Read(k, bytes));
      && s' == s.(workers := P.Moved(s, k, P.Touching), lines := s.lines[k := Longer(s.lines[k], p, Some(p))])
  {
  }

  /** Which sockets are open, and which one each ID leads to. */
  ghost predicate SameSockets(s: P.State, s': P.State)
    requires P.Shape(s) && P.Shape(s')
  {
    && s'.table.open == s.table.open && s'.table.connections == s.table.connections
    && forall id :: id in s.table.connections ==> s'.table.Stored(id).socket == s.table.Stored(id).socket
  }

  lemma Touches(s: P.State, k: nat)
    requires P.Shape(s) && s.In(k, P.Touching)
    ensures var s' := P.Apply(s, P.Touch(k));
      && s' == s.(workers := P.Moved(s, k, P.Holding), table := s'.table)
      && (P.Shape(s') ==> SameSockets(s, s'))
  {
    assert P.WorkerFits(s, k);
    var e := if s.role.ProxyRole? then s.workers[k].entry
             else if s.workers[k].connId in s.table.connections then Some(s.table.connections[s.workers[k].connId])
             else None;
    assert P.TableAfter(s, P.Touch(k)) == if e.Some? then C.Touch(s.table, e.value, s.clock) else s.table;
    hide P.TableAfter;
  }

  lemma Enqueues(s: P.State, k: nat)
    requires P.Shape(s) && s.In(k, P.Holding) && |s.queue| < P.SLOTS
    ensures k < |s.workers| == |s.lines| && s.lines[k].pending.Some?
    ensures P.Apply(s, P.Enqueue(k)) == s.(
      workers := P.Moved(s, k, P.Reading), lines := s.lines[k := s.lines[k].(pending := None)],
      queue := s.queue + [s.lines[k].pending.value])
  {
    assert P.WorkerFits(s, k);
  }

  /** Connection `k` reads and queues. */
  ghost predicate Queues(s: P.State, s': P.State, k: nat, bytes: seq<Byte>)
    requires k < |s.workers| && k < |s.lines|
  {
    var p := P.Chunk(s, k, bytes);
    && s' == s.(lines := s.lines[k := Longer(s.lines[k], p, None)], queue := s.queue + [p], table := s'.table)
    && P.Shape(s) && P.Shape(s') && SameSockets(s, s')
  }

  lemma Turn(s: P.State, k: nat, bytes: seq<Byte>) returns (s1: P.State, s2: P.State, s3: P.State)
    requires P.Shape(s) && P.Enabled(s, P.Read(k, bytes)) && |s.queue| < P.SLOTS
    ensures s1 == P.Apply(s, P.Read(k, bytes)) && P.Shape(s1) && P.Enabled(s1, P.Touch(k))
    ensures s2 == P.Apply(s1, P.Touch(k)) && P.Shape(s2) && P.Enabled(s2, P.Enqueue(k))
    ensures s3 == P.Apply(s2, P.Enqueue(k))
    ensures k < |s.workers| && k < |s.lines| && Queues(s, s3, k, bytes)
  {
    hide P.Shape, P.Overwritten, P.Apply;
    Reads(s, k, bytes);
    s1 := P.Apply(s, P.Read(k, bytes));
    P.StepKeepsShape(s, P.Read(k, bytes));
    Touches(s1, k);
    s2 := P.Apply(s1, P.Touch(k));
    P.StepKeepsShape(s1, P.Touch(k));
    Enqueues(s2, k);
    s3 := P.Apply(s2, P.Enqueue(k));
    assert s3.workers == s.workers;
    assert s3.lines == s.lines[k := Longer(s.lines[k], P.Chunk(s, k, bytes), None)];
    P.StepKeepsShape(s2, P.Enqueue(k));
    SameSocketsAround(s, s1, s2, s3);
  }

  lemma SameSocketsAround(s: P.State, s1: P.State, s2: P.State, s3: P.State)
    requires P.Shape(s) && P.Shape(s1) && P.Shape(s2) && P.Shape(s3) && SameSockets(s1, s2)
    requires s1.table == s.table && s3.table == s2.table
    ensures SameSockets(s, s3)
  {
  }

  lemma ReadAndQueued(states: seq<System>, events: seq<Event>, y: System, st: Stream, k: nat, bytes: seq<Byte>)
    returns (states': seq<System>, events': seq<Event>, y': System)
    requires Ends(states, events, y) && st in y.procs && P.Shape(y.procs[st])
    requires P.Enabled(y.procs[st], P.Read(k, bytes)) && |y.procs[st].queue| < P.SLOTS
    ensures Ends(states', events', y') && st in y'.procs && P.Shape(y'.procs[st])
    ensures k < |y.procs[st].workers| && k < |y.procs[st].lines|
    ensures y' == y.(procs := y.procs[st := y'.procs[st]]) && Queues(y.procs[st], y'.procs[st], k, bytes)
  {
    hide *;
    var s1, s2, s3 := Turn(y.procs[st], k, bytes);
    states', events', y' := MovesOn(states, events, y, st, P.Read(k, bytes));
    states', events', y' := MovesOn(states', events', y', st, P.Touch(k));
    states', events', y' := MovesOn(states', events', y', st, P.Enqueue(k));
  }

  // ---------------------------------------------------------------- all the way

  /** Nothing is on its way, both sessions wait, and connection "c" goes from the one to the other. */
  ghost predicate Quiet(y: System) {
    Shape(y) && Sides(y.procs) && NoneQueued(y) && Waiting(y.server)
  }

  /** A client and a proxy with nothing in hand; what the proxy holds under "c" is open. */
  ghost predicate Sides(procs: map<Stream, P.State>) {
    && 0 in procs && 1 in procs && P.Shape(procs[0]) && P.Shape(procs[1])
    && procs[0].role.ClientRole? && procs[0].inHand == P.Nothing && procs[0].outHand == None
    && procs[1].role.ProxyRole? && procs[1].inHand == P.Nothing && procs[1].outHand == None
    && ("c" in procs[1].table.connections ==> Reaches(procs[1], "c"))
  }

  ghost predicate NoneQueued(y: System) {
    Queued(y.up, 0) == Queued(y.up, 1) == Queued(y.down, 0) == Queued(y.down, 1) == []
  }

  ghost predicate Waiting(s: S.State) {
    S.Shape(s) && s.sessions == SERVER.sessions && Ready(s.tables)
  }

  ghost predicate Ready(t: R.Tables)
    requires t.Valid()
  {
    && t.clients == SERVER.tables.clients && t.proxys == SERVER.tables.proxys
    && ("c" in t.connections ==>
          t.routes[t.connections["c"]].clientId == "a" && t.routes[t.connections["c"]].proxyId == "p")
  }

  /** A packet of connection "c" that opens a route only if it goes to the proxy's block. */
  predicate Relayable(s: S.State, pkt: Packet) {
    pkt.connId == "c" && ("c" in s.tables.connections || pkt.Dst() == Some(HOME))
  }

  lemma GoesToProxy(s: S.State, pkt: Packet)
    requires Waiting(s) && Relayable(s, pkt)
    ensures 0 in s.sessions && S.Enabled(s, S.Receive(0, pkt, Some("p"))) && S.Target(s, 0, pkt, Some("p")) == Some(1)
  {
    assert PROXY.Serves(Some(HOME));
  }

  lemma GoesToClient(s: S.State, pkt: Packet)
    requires Waiting(s) && pkt.connId == "c" && "c" in s.tables.connections
    ensures 1 in s.sessions && S.Enabled(s, S.Receive(1, pkt, None)) && S.Target(s, 1, pkt, None) == Some(0)
  {
  }

  lemma StaysReady(s: S.State, s': S.State, st: Stream, pkt: Packet, choice: Option<Id>)
    requires Waiting(s) && AfterRelay(s, s', st, pkt, choice) && S.Shape(s')
    requires pkt.connId == "c" && ("c" in s.tables.connections || (st == 0 && choice == Some("p")))
    ensures Waiting(s') && "c" in s'.tables.connections
  {
    var r := s'.tables.connections["c"];
    if "c" in s.tables.connections {
      assert s'.tables.routes[r].Binding() == s.tables.routes[r].Binding();
    }
  }

  lemma ForwardedReaches(s: P.State, pkt: Packet)
    requires P.Shape(s) && P.Shape(Forwarded(s, pkt)) && (pkt.connId in s.table.connections ==> Reaches(s, pkt.connId))
    ensures Reaches(Forwarded(s, pkt), pkt.connId)
  {
  }

  /** The oldest packet a process has queued goes up its stream. */
  lemma SentNext(states: seq<System>, events: seq<Event>, y: System, st: Stream)
    returns (states': seq<System>, events': seq<Event>, y': System)
    requires Ends(states, events, y) && st in y.procs && P.Shape(y.procs[st])
    requires y.procs[st].outHand.None? && y.procs[st].queue != []
    ensures Ends(states', events', y') && y'.server == y.server && y'.down == y.down
    ensures y'.procs == y.procs[st := y.procs[st].(queue := y.procs[st].queue[1..])]
    ensures OnlyQueue(y.up, y'.up, st, Queued(y.up, st) + [NextOut(y.procs[st])])
  {
    hide Ends, Shape, P.Shape, NextOut, OnlyQueue, Step;
    EndsShape(states, events, y);
    var y1, y2 := SendsUp(y, st);
    states', events', y' := Continued(states, events, y, [y, y1, y2], [Internal(st, P.Take), Emit(st, false)]);
  }

  /** A packet that has come up from the client goes all the way to the target. */
  lemma WrittenThere(states: seq<System>, events: seq<Event>, y: System, pkt: Packet)
    returns (states': seq<System>, events': seq<Event>, y': System)
    requires Ends(states, events, y) && Clear(y, 0, Some("p"), pkt, [], 1) && y.procs[1].role.ProxyRole?
    requires pkt.connId in y.procs[1].table.connections ==> Reaches(y.procs[1], pkt.connId)
    ensures Ends(states', events', y') && y'.procs == y.procs[1 := Forwarded(y.procs[1], pkt)]
    ensures AfterRelay(y.server, y'.server, 0, pkt, Some("p"))
    ensures OnlyQueue(y.up, y'.up, 0, []) && OnlyQueue(y.down, y'.down, 1, [])
  {
    hide Ends, Clear, Shape, P.Shape, S.Shape, Reaches, Forwarded, AfterRelay, OnlyQueue, S.Target, S.Enabled, Step;
    var ys := PacketReachesItsTarget(y, 0, Some("p"), pkt, [], 1);
    states', events', y' := Continued(
      states, events, y, ys,
      [Take(0, Some("p")), Relay(S.Count(0)), Deliver(0, false), Arrive(1, true), Internal(1, P.Write)]);
  }

  lemma SentIsClear(y: System, y1: System, st: Stream, choice: Option<Id>, pkt: Packet, d: Stream)
    requires Quiet(y) && Shape(y1) && st in {0, 1} && d in {0, 1} && d != st && d in y1.procs
    requires OnlyQueue(y.up, y1.up, st, Queued(y.up, st) + [pkt]) && y1.down == y.down && y1.procs[d] == y.procs[d]
    requires y1.server == y.server
    requires S.Enabled(y.server, S.Receive(st, pkt, choice)) && S.Shape(y.server) && st in y.server.sessions
    requires S.Target(y.server, st, pkt, choice) == Some(d)
    ensures Clear(y1, st, choice, pkt, [], d) && OnlyQueue(y.up, y1.up, st, [pkt])
  {
    hide Shape, P.Shape, S.Shape, S.Target, S.Enabled, Ready, Reaches;
    assert Queued(y.up, st) + [pkt] == [pkt] && [pkt] + [] == [pkt];
  }

  /** What the client sent is at the head of its stream, with a target. */
  lemma SentByClient(states: seq<System>, events: seq<Event>, y: System)
    returns (states': seq<System>, events': seq<Event>, y': System)
    requires Ends(states, events, y) && Quiet(y) && y.procs[0].queue != []
    requires Relayable(y.server, NextOut(y.procs[0]))
    ensures Ends(states', events', y') && Clear(y', 0, Some("p"), NextOut(y.procs[0]), [], 1)
    ensures y'.procs == y.procs[0 := y.procs[0].(queue := y.procs[0].queue[1..])]
    ensures y'.server == y.server && y'.down == y.down && OnlyQueue(y.up, y'.up, 0, [NextOut(y.procs[0])])
  {
    hide *;
    QuietParts(y);
    var pkt := NextOut(y.procs[0]);
    states', events', y' := SentNext(states, events, y, 0);
    EndsShape(states', events', y');
    GoesToProxy(y.server, pkt);
    SentIsClear(y, y', 0, Some("p"), pkt, 1);
  }

  lemma SentByProxy(states: seq<System>, events: seq<Event>, y: System)
    returns (states': seq<System>, events': seq<Event>, y': System)
    requires Ends(states, events, y) && Quiet(y) && y.procs[1].queue != [] && "c" in y.server.tables.connections
    requires NextOut(y.procs[1]).connId == "c"
    ensures Ends(states', events', y') && Clear(y', 1, None, NextOut(y.procs[1]), [], 0)
    ensures y'.procs == y.procs[1 := y.procs[1].(queue := y.procs[1].queue[1..])]
  {
    hide *;
    QuietParts(y);
    var pkt := NextOut(y.procs[1]);
    states', events', y' := SentNext(states, events, y, 1);
    EndsShape(states', events', y');
    GoesToClient(y.server, pkt);
    SentIsClear(y, y', 1, None, pkt, 0);
  }

  lemma SidesAgain(procs: map<Stream, P.State>, procs': map<Stream, P.State>, queue: seq<Packet>, pkt: Packet)
    requires Sides(procs) && pkt.connId == "c" && 0 in procs' && 1 in procs' && P.Shape(procs'[0]) && P.Shape(procs'[1])
    requires procs'[0] == procs[0].(queue := queue) && procs'[1] == Forwarded(procs[1], pkt)
    ensures Sides(procs')
  {
    ForwardedIsIdle(procs[1], pkt);
    ForwardedReaches(procs[1], pkt);
    hide P.Shape, Reaches, Forwarded;
  }

  lemma ForwardedIsIdle(s: P.State, pkt: Packet)
    requires P.Shape(s)
    ensures Forwarded(s, pkt).role == s.role
    ensures Forwarded(s, pkt).inHand == s.inHand && Forwarded(s, pkt).outHand == s.outHand
  {
  }

  lemma QueuesAgain(y: System, y1: System, y': System, pkt: Packet)
    requires NoneQueued(y) && OnlyQueue(y.up, y1.up, 0, [pkt]) && y1.down == y.down
    requires OnlyQueue(y1.up, y'.up, 0, []) && OnlyQueue(y1.down, y'.down, 1, [])
    ensures NoneQueued(y')
  {
  }

  lemma QuietParts(y: System)
    requires Quiet(y)
    ensures Shape(y) && Sides(y.procs) && NoneQueued(y) && Waiting(y.server) && S.Shape(y.server)
    ensures 0 in y.procs && 1 in y.procs && P.Shape(y.procs[0]) && P.Shape(y.procs[1])
    ensures y.procs[0].role.ClientRole? && y.procs[1].role.ProxyRole?
    ensures y.procs[0].outHand == None && y.procs[1].outHand == None
    ensures "c" in y.procs[1].table.connections ==> Reaches(y.procs[1], "c")
  {
    hide P.Shape, Shape, S.Shape, Reaches;
  }

  /** The client's oldest packet is sent, relayed, and written to the target. */
  lemma Passes(states: seq<System>, events: seq<Event>, y: System)
    returns (states': seq<System>, events': seq<Event>, y': System)
    requires Ends(states, events, y) && Quiet(y) && y.procs[0].queue != []
    requires Relayable(y.server, NextOut(y.procs[0]))
    ensures Ends(states', events', y') && Quiet(y') && "c" in y'.server.tables.connections
    ensures y'.procs[0] == y.procs[0].(queue := y.procs[0].queue[1..])
    ensures y'.procs[1] == Forwarded(y.procs[1], NextOut(y.procs[0]))
  {
    var pkt := NextOut(y.procs[0]);
    assert pkt.connId == "c";
    hide *;
    QuietParts(y);
    var y1;
    states', events', y1 := SentByClient(states, events, y);
    states', events', y' := WrittenThere(states', events', y1, pkt);
    EndsShape(states', events', y');
    EndsShaped(states', events', y', 0);
    EndsShaped(states', events', y', 1);
    StaysReady(y.server, y'.server, 0, pkt, Some("p"));
    SidesAgain(y.procs, y'.procs, y.procs[0].queue[1..], pkt);
    QueuesAgain(y, y1, y', pkt);
    QuietOf(y');
  }

  lemma QuietOf(y: System)
    requires Shape(y) && Sides(y.procs) && NoneQueued(y) && Waiting(y.server)
    ensures Quiet(y)
  {
  }

  /** A response that has come up from the proxy goes all the way to the local socket. */
  lemma WrittenBack(states: seq<System>, events: seq<Event>, y: System, pkt: Packet)
    returns (states': seq<System>, events': seq<Event>, y': System)
    requires Ends(states, events, y) && Clear(y, 1, None, pkt, [], 0) && y.procs[0].role.ClientRole?
    requires Reaches(y.procs[0], pkt.connId)
    ensures Ends(states', events', y') && y'.procs == y.procs[0 := Appended(y.procs[0], pkt)]
  {
    hide Ends, Clear, Shape, P.Shape, S.Shape, Reaches, Appended, AfterRelay, OnlyQueue, S.Target, S.Enabled, Step;
    var ys := ResponseReachesItsSocket(y, 1, None, pkt, [], 0);
    states', events', y' := Continued(
      states, events, y, ys,
      [Take(1, None), Relay(S.Count(1)), Deliver(1, false),
       Arrive(0, false), Internal(0, P.TouchIn), Internal(0, P.Write)]);
  }

  /** The proxy's oldest packet is sent, relayed, and written to the local socket. */
  lemma Returns(states: seq<System>, events: seq<Event>, y: System)
    returns (states': seq<System>, events': seq<Event>, y': System)
    requires Ends(states, events, y) && Quiet(y) && y.procs[1].queue != [] && "c" in y.server.tables.connections
    requires NextOut(y.procs[1]).connId == "c" && Reaches(y.procs[0], "c")
    ensures Ends(states', events', y') && 0 in y'.procs && 1 in y'.procs
    ensures y'.procs[1] == y.procs[1].(queue := y.procs[1].queue[1..])
    ensures y'.procs[0] == Appended(y.procs[0], NextOut(y.procs[1]))
  {
    var pkt := NextOut(y.procs[1]);
    assert y.procs[0].role.ClientRole?;
    hide *;
    states', events', y' := SentByProxy(states, events, y);
    states', events', y' := WrittenBack(states', events', y', pkt);
  }

  // ---------------------------------------------------------------- four runs

  lemma EndsRun(states: seq<System>, events: seq<Event>, y: System)
    requires Ends(states, events, y)
    ensures Run(states, events) && |states| == |events| + 1 && y == states[|events|]
  {
    hide Shape, Run;
  }

  lemma Connected() returns (states: seq<System>, events: seq<Event>, y: System)
    ensures Ends(states, events, y) && Quiet(y) && y.procs == PROCS
  {
    states, events, y := RegisteredBoth();
    EndsShape(states, events, y);
    EndsShaped(states, events, y, 0);
    EndsShaped(states, events, y, 1);
    hide Ends, Shape, P.Shape, S.Shape;
  }

  lemma FirstBytes(buf: seq<Byte>, bytes: seq<Byte>)
    requires |bytes| <= |buf|
    ensures Fit(P.Overwritten(buf, bytes), |bytes|) == bytes && |P.Overwritten(buf, bytes)| == |buf|
  {
  }

  /** A client takes steps by itself, and keeps its hands empty. */
  lemma ClientOnly(y: System, y': System, s: P.State)
    requires Quiet(y) && Shape(y') && y' == y.(procs := y.procs[0 := s]) && P.Shape(s)
    requires s.role.ClientRole? && s.inHand == P.Nothing && s.outHand == None
    ensures Quiet(y')
  {
    hide Shape, P.Shape, S.Shape, Reaches, Ready;
  }

  /** One more connection, with some bytes read from it. */
  ghost predicate Intercepts(s: P.State, s': P.State, flow: Flow, bytes: seq<Byte>) {
    var k := |s.lines|;
    var p := Packet("c", Some(flow), bytes, Origin(s.stream, k), 0, 1);
    && s'.role == s.role && s'.stream == s.stream && s'.inHand == s.inHand && s'.outHand == s.outHand
    && s'.queue == s.queue + [p] && |s'.workers| == |s'.lines| == k + 1
    && s'.lines == s.lines + [P.Line([p], P.Overwritten(P.NewLine().buf, bytes), None, [])]
    && s'.In(k, P.Reading) && s'.table.open == s.table.open + [true]
    && P.Shape(s') && Reaches(s', "c") && s'.table.Stored("c").socket == k
  }

  lemma MayRead(s: P.State, s1: P.State, flow: Flow, bytes: seq<Byte>)
    requires P.Shape(s) && P.Shape(s1) && Tracks(s, s1, flow) && 0 < |bytes| <= P.BUFFER
    ensures |s.workers| == |s.lines| && P.Enabled(s1, P.Read(|s.workers|, bytes)) && s1.queue == s.queue
    ensures |s.workers| < |s1.workers| && |s.workers| < |s1.lines|
  {
  }

  lemma TrackedAndRead(s: P.State, s1: P.State, s2: P.State, flow: Flow, bytes: seq<Byte>)
    requires P.Shape(s) && P.Shape(s1) && P.Shape(s2) && Tracks(s, s1, flow)
    requires Reaches(s1, "c") && s1.table.Stored("c").socket == |s.workers|
    requires |s.workers| < |s1.lines| && |s.workers| == |s.lines| && Queues(s1, s2, |s.workers|, bytes)
    ensures Intercepts(s, s2, flow, bytes)
  {
    hide P.NewLine, P.Overwritten;
    NewLineIsEmpty();
    var k, p := |s.lines|, P.Chunk(s1, |s.workers|, bytes);
    assert s1.lines[k] == P.NewLine();
    assert P.NewLine().chunks + [p] == [p];
    assert s2.lines == s.lines + [P.Line([p], P.Overwritten(P.NewLine().buf, bytes), None, [])];
  }

  lemma NewLineIsEmpty()
    ensures P.NewLine().chunks == [] && P.NewLine().written == [] && |P.NewLine().buf| == P.BUFFER
  {
  }

  /** The client accepts a connection and reads some bytes from it. */
  lemma Intercepted(states: seq<System>, events: seq<Event>, y: System, flow: Flow, bytes: seq<Byte>)
    returns (states': seq<System>, events': seq<Event>, y': System)
    requires Ends(states, events, y) && Quiet(y) && 0 < |bytes| <= P.BUFFER && |y.procs[0].queue| < P.SLOTS
    ensures Ends(states', events', y') && Quiet(y') && y'.procs == y.procs[0 := y'.procs[0]] && y'.server == y.server
    ensures Intercepts(y.procs[0], y'.procs[0], flow, bytes)
  {
    hide *;
    QuietParts(y);
    var s, k, y1 := y.procs[0], |y.procs[0].workers|, y;
    states', events', y1 := Tracked(states, events, y, flow);
    MayRead(s, y1.procs[0], flow, bytes);
    states', events', y' := ReadAndQueued(states', events', y1, 0, k, bytes);
    TrackedAndRead(s, y1.procs[0], y'.procs[0], flow, bytes);
    LastUpdate(y.procs, 0, y1.procs[0], y'.procs[0]);
    EndsShape(states', events', y');
    InterceptsKeeps(y, y'.procs[0], flow, bytes);
    ClientOnly(y, y', y'.procs[0]);
  }

  lemma InterceptsKeeps(y: System, s: P.State, flow: Flow, bytes: seq<Byte>)
    requires Quiet(y) && Intercepts(y.procs[0], s, flow, bytes)
    ensures P.Shape(s) && s.role.ClientRole? && s.inHand == P.Nothing && s.outHand == None
  {
    hide Shape, P.Shape, S.Shape, Reaches, Ready, P.Overwritten;
  }

  const SEVEN := Packet("c", Some(FLOW), [7], READ, 0, 1)

  lemma NextOfFresh(s: P.State, s': P.State, flow: Flow, bytes: seq<Byte>)
    requires s.role.ClientRole? && s.queue == [] && |bytes| <= P.BUFFER && Intercepts(s, s', flow, bytes)
    ensures s'.queue != [] && NextOut(s') == s'.queue[0]
  {
    FirstBytes(P.NewLine().buf, bytes);
    hide P.Shape, Reaches, P.Overwritten;
  }

  /** The client has read one byte from its one connection, and sent it. */
  ghost predicate HasSent(s: P.State) {
    && P.Shape(s) && s.stream == 0 && Reaches(s, "c") && s.table.Stored("c").socket == 0 && |s.lines| == 1
    && s.lines[0].chunks == [SEVEN] && s.lines[0].written == []
  }

  /** The proxy has written some packets to the one target it has dialed, and is reading from it. */
  ghost predicate HasWritten(s: P.State, pkts: seq<Packet>) {
    && P.Shape(s) && s.role.ProxyRole? && s.stream == 1 && s.queue == []
    && s.lines == [P.NewLine().(written := pkts)] && s.workers == [P.Worker("c", None, Some(0), P.Reading)]
    && Reaches(s, "c") && s.table.Stored("c").socket == 0
  }

  lemma FirstWritten(s: P.State, pkt: Packet)
    requires s == PROCS[1] && P.Shape(s) && P.Shape(Forwarded(s, pkt)) && pkt.connId == "c"
    ensures HasWritten(Forwarded(s, pkt), [pkt])
  {
  }

  lemma NextWritten(s: P.State, pkts: seq<Packet>, pkt: Packet)
    requires HasWritten(s, pkts) && P.Shape(Forwarded(s, pkt)) && pkt.connId == "c"
    ensures HasWritten(Forwarded(s, pkt), pkts + [pkt])
  {
  }

  /** One byte has gone from the client to the target. */
  lemma OneDelivered() returns (states: seq<System>, events: seq<Event>, y: System)
    ensures Ends(states, events, y) && Quiet(y) && "c" in y.server.tables.connections
    ensures 0 in y.procs && HasSent(y.procs[0]) && 1 in y.procs && HasWritten(y.procs[1], [SEVEN])
  {
    states, events, y := Connected();
    QuietParts(y);
    var s0, s1 := y.procs[0], y.procs[1];
    hide Ends, Quiet, Ready, Forwarded, P.Overwritten, P.Shape, Reaches;
    states, events, y := Intercepted(states, events, y, FLOW, [7]);
    NextOfFresh(s0, y.procs[0], FLOW, [7]);
    states, events, y := Passes(states, events, y);
    QuietParts(y);
    FirstWritten(s1, SEVEN);
  }

  lemma SentLog(y: System)
    requires 0 in y.procs && HasSent(y.procs[0])
    ensures Log(y, READ) == [SEVEN]
  {
    hide P.Shape, Reaches;
  }

  lemma WrittenLog(y: System, pkts: seq<Packet>)
    requires 1 in y.procs && HasWritten(y.procs[1], pkts)
    ensures D.Written(y, 1, 0) == pkts
  {
    hide P.Shape, Reaches;
  }

  /** In some run, what a client has read is what a target has been sent. */
  lemma OnePacketIsDelivered() returns (states: seq<System>, events: seq<Event>)
    ensures Run(states, events) && |states| == |events| + 1
    ensures var y := states[|events|]; Log(y, READ) == D.Written(y, 1, 0) == [SEVEN]
  {
    hide *;
    var y;
    states, events, y := OneDelivered();
    EndsRun(states, events, y);
    SentLog(y);
    WrittenLog(y, [SEVEN]);
  }

  // ---- a response

  const NINE := Packet("c", None, [9], Origin(1, 0), 0, 1)

  lemma ReadsNine(s: P.State)
    requires HasWritten(s, [SEVEN])
    ensures P.Shape(s) && P.Enabled(s, P.Read(0, [9])) && |s.queue| < P.SLOTS
  {
  }

  lemma QueuesNine(s: P.State, s': P.State)
    requires HasWritten(s, [SEVEN]) && |s.workers| == |s.lines| == 1 && Queues(s, s', 0, [9])
    ensures s'.role.ProxyRole? && s'.inHand == s.inHand && s'.outHand == s.outHand && Reaches(s', "c")
    ensures s'.queue == [NINE] && NextOut(s') == NINE && |s'.lines| == 1 && s'.lines[0].chunks == [NINE]
  {
    hide P.Overwritten;
    NewLineIsEmpty();
  }

  lemma ProxyOnly(y: System, y': System, s: P.State)
    requires Quiet(y) && Shape(y') && y' == y.(procs := y.procs[1 := s]) && P.Shape(s)
    requires s.role.ProxyRole? && s.inHand == P.Nothing && s.outHand == None && Reaches(s, "c")
    ensures Quiet(y')
  {
    hide Shape, P.Shape, S.Shape, Reaches, Ready;
  }

  /** The proxy reads a byte from the target. */
  lemma Answered(states: seq<System>, events: seq<Event>, y: System)
    returns (states': seq<System>, events': seq<Event>, y': System)
    requires Ends(states, events, y) && Quiet(y) && 1 in y.procs && HasWritten(y.procs[1], [SEVEN])
    ensures Ends(states', events', y') && Quiet(y') && y'.server == y.server && 0 in y'.procs && 1 in y'.procs
    ensures 0 in y.procs && y'.procs[0] == y.procs[0]
    ensures var s := y'.procs[1];
      s.queue == [NINE] && NextOut(s) == NINE && |s.lines| == 1 && s.lines[0].chunks == [NINE]
  {
    hide Ends, Quiet, HasWritten, Queues, Reaches, P.Shape, P.Enabled, Shape;
    QuietParts(y);
    ReadsNine(y.procs[1]);
    states', events', y' := ReadAndQueued(states, events, y, 1, 0, [9]);
    OneOfEach(y.procs[1]);
    QueuesNine(y.procs[1], y'.procs[1]);
    EndsShape(states', events', y');
    HandsEmpty(y);
    ProxyOnly(y, y', y'.procs[1]);
  }

  lemma OneOfEach(s: P.State)
    requires HasWritten(s, [SEVEN])
    ensures |s.workers| == |s.lines| == 1
  {
  }

  lemma HandsEmpty(y: System)
    requires Quiet(y)
    ensures 1 in y.procs && y.procs[1].inHand == P.Nothing && y.procs[1].outHand == None
  {
    hide Shape, P.Shape, S.Shape, Reaches, Ready;
  }

  lemma BackInLog(s: P.State)
    requires HasSent(s)
    ensures "c" in s.table.connections && P.Shape(s) && Reaches(s, "c")
    ensures |Appended(s, NINE).lines| == 1 && Appended(s, NINE).lines[0].written == [NINE]
  {
  }

  /** In some run, what a proxy has read from a target is what the local connection has been sent. */
  lemma ResponseIsDelivered() returns (states: seq<System>, events: seq<Event>)
    ensures Run(states, events) && |states| == |events| + 1
    ensures var y := states[|events|]; Log(y, Origin(1, 0)) == D.Written(y, 0, 0) == [NINE]
  {
    hide Ends, Quiet, HasSent, HasWritten, Reaches, Appended, P.Shape, NextOut, Run;
    var y;
    states, events, y := OneDelivered();
    BackInLog(y.procs[0]);
    states, events, y := Answered(states, events, y);
    states, events, y := Returns(states, events, y);
    EndsRun(states, events, y);
  }

  // ---- an overwritten byte

  lemma Overwrites(s: P.State)
    requires Intercepts(PROCS[0], s, FLOW, [1])
    ensures P.Enabled(s, P.Read(0, [2])) && |s.workers| == |s.lines| == 1 && PROCS[0].role.ClientRole?
    ensures var s' := P.Apply(s, P.Read(0, [2]));
      && s'.role == s.role && s'.inHand == s.inHand && s'.outHand == s.outHand && s'.stream == 0
      && s'.queue == [Packet("c", Some(FLOW), [1], READ, 0, 1)]
      && NextOut(s') == Packet("c", Some(FLOW), [2], READ, 0, 2)
      && |s'.lines| == 1 && |s'.lines[0].chunks| == 2
      && s'.lines[0].chunks[0] == Packet("c", Some(FLOW), [1], READ, 0, 1) && s'.lines[0].chunks[1].data == [2]
  {
    Reads(s, 0, [2]);
    FirstBytes(P.NewLine().buf, [1]);
    FirstBytes(s.lines[0].buf, [2]);
    hide P.Overwritten, P.NewLine, P.Apply;
  }

  /** In some run, the next read puts another byte in the same buffer before the first is sent:
      the target is sent the other one. */
  lemma OverwrittenBeforeSent() returns (states: seq<System>, events: seq<Event>)
    ensures Run(states, events) && |states| == |events| + 1
    ensures var log, written := Log(states[|events|], READ), D.Written(states[|events|], 1, 0);
      && |log| == 2 && log[0].data == [1] && log[1].data == [2]
      && |written| == 1 && D.Envelope(written[0]) == D.Envelope(log[0]) && written[0].data == [2]
  {
    hide Ends, Quiet, Reaches, P.Shape, P.Apply, P.Enabled, NextOut, Run, Shape, Forwarded, Intercepts, HasWritten;
    var y, y1;
    states, events, y := Connected();
    QuietParts(y);
    ClientStarts(y);
    states, events, y1 := Intercepted(states, events, y, FLOW, [1]);
    Overwrites(y1.procs[0]);
    InterceptsKeeps(y, y1.procs[0], FLOW, [1]);
    states, events, y := MovesOn(states, events, y1, 0, P.Read(0, [2]));
    EndsShape(states, events, y);
    ClientOnly(y1, y, y.procs[0]);
    states, events, y := Passes(states, events, y);
    QuietParts(y);
    FirstWritten(PROCS[1], Packet("c", Some(FLOW), [2], READ, 0, 2));
    WrittenLog(y, [Packet("c", Some(FLOW), [2], READ, 0, 2)]);
    EndsRun(states, events, y);
  }

  lemma ClientStarts(y: System)
    requires y.procs == PROCS
    ensures y.procs[0].queue == [] && y.procs[0].role.ClientRole? && y.procs[0].stream == 0 && y.procs[0].lines == []
  {
  }

  // ---- two connections of one ID

  const FIRST := Packet("c", Some(FLOW), [7], Origin(0, 0), 0, 1)
  const SECOND := Packet("c", Some(BACK), [8], Origin(0, 1), 0, 1)

  /** Both connections have read, and nothing of it is sent. */
  lemma BothRead(s: P.State, s': P.State)
    requires Intercepts(PROCS[0], s, FLOW, [7]) && Intercepts(s, s', BACK, [8])
    ensures PROCS[0].role.ClientRole? && s'.queue == [FIRST, SECOND] && NextOut(s') == FIRST
    ensures var rest := s'.(queue := s'.queue[1..]); rest.queue == [SECOND] && NextOut(rest) == SECOND
  {
    FirstBytes(P.NewLine().buf, [7]);
    FirstBytes(P.NewLine().buf, [8]);
    hide P.Overwritten, P.NewLine, P.Shape, Reaches;
  }

  /** In some run, two connections with one ID, such as a tuple and its reverse have, are both
      written to the target that the first one's tuple names. */
  lemma TwoTuplesOneTarget() returns (states: seq<System>, events: seq<Event>)
    ensures Run(states, events) && |states| == |events| + 1
    ensures D.Written(states[|events|], 1, 0) == [FIRST, SECOND]
  {
    hide Ends, Quiet, Reaches, P.Shape, P.Apply, NextOut, Run, Shape, Forwarded, Intercepts, HasWritten;
    var y, y1, y2, y3;
    states, events, y := Connected();
    QuietParts(y);
    ClientStarts(y);
    states, events, y1 := Intercepted(states, events, y, FLOW, [7]);
    RoomLeft(y.procs[0], y1.procs[0]);
    states, events, y2 := Intercepted(states, events, y1, BACK, [8]);
    BothRead(y1.procs[0], y2.procs[0]);
    states, events, y3 := Passes(states, events, y2);
    QuietParts(y3);
    FirstWritten(PROCS[1], FIRST);
    states, events, y := Passes(states, events, y3);
    QuietParts(y);
    NextWritten(y3.procs[1], [FIRST], SECOND);
    WrittenLog(y, [FIRST] + [SECOND]);
    EndsRun(states, events, y);
  }

  lemma RoomLeft(s: P.State, s': P.State)
    requires s.queue == [] && Intercepts(s, s', FLOW, [7])
    ensures |s'.queue| < P.SLOTS
  {
  }
}
