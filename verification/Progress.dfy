/** What can happen next: a packet that nothing stands in the way of is relayed and written to the
    one socket its ID leads to. The states that the steps lead to are given in full, in terms of
    maps, sockets and queues. */
module Progress {
  import opened Cidr
  import opened Wire
  import opened EndToEnd
  import C = Connections
  import P = Process
  import R = Routing
  import S = Server
  import Paths

  ghost predicate Goes(s: P.State, e: P.Event, s': P.State) {
    P.Shape(s) && P.Enabled(s, e) && P.Shape(s') && s' == P.Apply(s, e)
  }

  // ---------------------------------------------------------------- inside a process

  /** A connection is stored under the ID, and its socket is open. */
  predicate Reaches(s: P.State, id: Id)
    requires P.Shape(s)
  {
    id in s.table.connections && s.table.open[s.table.Stored(id).socket]
  }

  /** The packet is written to the socket that its ID leads to, and its connection is active now;
      nothing else has changed. */
  function Appended(s: P.State, pkt: Packet): P.State
    requires P.Shape(s) && pkt.connId in s.table.connections
  {
    var e := s.table.connections[pkt.connId];
    var entry := s.table.entries[e];
    var line := s.lines[entry.socket];
    s.(table := s.table.(entries := s.table.entries[e := C.Entry(entry.connId, entry.socket, entry.created, s.clock)]),
       lines := s.lines[entry.socket := line.(written := line.written + [pkt])])
  }

  lemma Taken(s: P.State, pkt: Packet, dials: bool) returns (s1: P.State)
    requires P.Shape(s) && s.role.ClientRole? && s.inHand.Nothing? && pkt.connId in s.table.connections
    ensures Goes(s, P.Receive(pkt, dials), s1)
    ensures s1 == s.(inHand := P.Looked(pkt, s.table.connections[pkt.connId]))
  {
    s1 := P.Apply(s, P.Receive(pkt, dials));
    P.StepKeepsShape(s, P.Receive(pkt, dials));
  }

  lemma Noted(s: P.State) returns (s1: P.State)
    requires P.Shape(s) && s.inHand.Looked?
    ensures Goes(s, P.TouchIn, s1) && s.inHand.entry < |s.table.entries|
    ensures var e, entry := s.inHand.entry, s.table.entries[s.inHand.entry];
      s1 == s.(
        inHand := P.Touched(s.inHand.pkt, e),
        table := s.table.(
          entries := s.table.entries[e := C.Entry(entry.connId, entry.socket, entry.created, s.clock)]))
  {
    s1 := P.Apply(s, P.TouchIn);
    P.StepKeepsShape(s, P.TouchIn);
  }

  lemma Put(s: P.State) returns (s1: P.State)
    requires P.Shape(s) && s.inHand.Touched? && s.table.open[P.Target(s)]
    ensures Goes(s, P.Write, s1) && P.Target(s) < |s.lines|
    ensures var h := P.Target(s);
      s1 == s.(inHand := P.Nothing, lines := s.lines[h := s.lines[h].(written := s.lines[h].written + [s.inHand.pkt])])
  {
    s1 := P.Apply(s, P.Write);
    P.StepKeepsShape(s, P.Write);
  }

  /** A client writes a response for a connection it tracks. */
  lemma ClientWrites(s: P.State, pkt: Packet, dials: bool) returns (s1: P.State, s2: P.State, s3: P.State)
    requires P.Shape(s) && s.role.ClientRole? && s.inHand.Nothing? && Reaches(s, pkt.connId)
    ensures Goes(s, P.Receive(pkt, dials), s1) && Goes(s1, P.TouchIn, s2) && Goes(s2, P.Write, s3)
    ensures s3 == Appended(s, pkt)
  {
    s1 := Taken(s, pkt, dials);
    s2 := Noted(s1);
    s3 := Put(s2);
    hide P.Shape, P.Apply, P.Enabled;
  }

  /** A proxy writes a packet for a connection it holds. */
  lemma ProxyWrites(s: P.State, pkt: Packet, dials: bool) returns (s1: P.State, s2: P.State)
    requires P.Shape(s) && s.role.ProxyRole? && s.inHand.Nothing? && Reaches(s, pkt.connId)
    ensures Goes(s, P.Receive(pkt, dials), s1) && Goes(s1, P.Write, s2)
    ensures s2 == Appended(s, pkt)
  {
    s1 := P.Apply(s, P.Receive(pkt, dials));
    P.StepKeepsShape(s, P.Receive(pkt, dials));
    s2 := Put(s1);
  }

  /** A connection newly dialed, with its reader and one packet written to it. */
  function Dialed(s: P.State, pkt: Packet): P.State {
    var k, n := |s.table.open|, |s.table.entries|;
    s.(table := C.Table(
         s.table.connections[pkt.connId := n], s.table.entries + [C.Entry(pkt.connId, k, s.clock, s.clock)],
         s.table.open + [true]),
       workers := s.workers + [P.Worker(pkt.connId, None, Some(n), P.Reading)],
       lines := s.lines + [P.NewLine().(written := [pkt])])
  }

  /** A proxy dials the target of a packet for a connection it does not hold, and writes it. */
  lemma ProxyDials(s: P.State, pkt: Packet) returns (s1: P.State, s2: P.State)
    requires P.Shape(s) && s.role.ProxyRole? && s.inHand.Nothing? && pkt.connId !in s.table.connections
    ensures Goes(s, P.Receive(pkt, true), s1) && Goes(s1, P.Write, s2)
    ensures s2 == Dialed(s, pkt)
  {
    s1 := P.Apply(s, P.Receive(pkt, true));
    P.StepKeepsShape(s, P.Receive(pkt, true));
    NothingWritten();
    hide P.NewLine;
    assert s1.lines == s.lines + [P.NewLine()];
    s2 := Put(s1);
    assert P.NewLine().written + [pkt] == [pkt];
    assert s2.lines == s.lines + [P.NewLine().(written := [pkt])];
  }

  lemma NothingWritten()
    ensures P.NewLine().written == []
  {
  }

  /** A packet for a connection that is neither held nor dialed changes nothing. */
  lemma Unwanted(s: P.State, pkt: Packet, dials: bool) returns (s1: P.State)
    requires P.Shape(s) && s.inHand.Nothing? && pkt.connId !in s.table.connections && (s.role.ClientRole? || !dials)
    ensures Goes(s, P.Receive(pkt, dials), s1) && s1 == s
  {
    s1 := P.Apply(s, P.Receive(pkt, dials));
    P.StepKeepsShape(s, P.Receive(pkt, dials));
  }

  /** A client gives up a packet it cannot write, and keeps the connection. */
  lemma ClientGivesUp(s: P.State) returns (s1: P.State)
    requires P.Shape(s) && s.role.ClientRole? && s.inHand.Touched?
    ensures Goes(s, P.WriteFails, s1) && s1 == s.(inHand := P.Nothing)
  {
    s1 := P.Apply(s, P.WriteFails);
    P.StepKeepsShape(s, P.WriteFails);
  }

  /** A proxy removes the connection stored under the ID of a packet it cannot write, and closes
      that connection's socket. */
  lemma ProxyGivesUp(s: P.State) returns (s1: P.State, s2: P.State)
    requires P.Shape(s) && s.role.ProxyRole? && s.inHand.Touched?
    ensures Goes(s, P.WriteFails, s1) && Goes(s1, P.RemoveBroken, s2)
    ensures var id := s.inHand.pkt.connId;
      s2 == s.(inHand := P.Nothing, table := s.table.(
        connections := s.table.connections - {id},
        open := if id in s.table.connections then s.table.open[s.table.Stored(id).socket := false] else s.table.open))
  {
    s1 := P.Apply(s, P.WriteFails);
    P.StepKeepsShape(s, P.WriteFails);
    s2 := P.Apply(s1, P.RemoveBroken);
    P.StepKeepsShape(s1, P.RemoveBroken);
    var id := s.inHand.pkt.connId;
    if id !in s.table.connections { assert s.table.connections - {id} == s.table.connections; }
  }

  /** A client can accept a connection at any time. */
  lemma Accepts(s: P.State) returns (s1: P.State)
    requires P.Shape(s) && s.role.ClientRole?
    ensures Goes(s, P.Accept, s1)
    ensures s1 == s.(
      table := s.table.(open := s.table.open + [true]),
      workers := s.workers + [P.Worker("", None, None, P.Starting)], lines := s.lines + [P.NewLine()])
  {
    hide P.NewLine;
    s1 := P.Apply(s, P.Accept);
    P.StepKeepsShape(s, P.Accept);
  }

  /** What a process sends next: the oldest packet queued, as it is when it is sent. */
  function NextOut(s: P.State): Packet
    requires s.queue != []
  {
    P.Image(s.(outHand := Some(s.queue[0])))
  }

  /** The loop that sends takes the oldest packet queued, and puts it on the stream. */
  lemma Sends(s: P.State) returns (s1: P.State, s2: P.State)
    requires P.Shape(s) && s.outHand.None? && s.queue != []
    ensures Goes(s, P.Take, s1) && Goes(s1, P.Emit, s2) && s1.outHand.Some? && P.Image(s1) == NextOut(s)
    ensures s2 == s.(queue := s.queue[1..])
  {
    s1 := P.Apply(s, P.Take);
    P.StepKeepsShape(s, P.Take);
    assert s1 == s.(outHand := Some(s.queue[0]), queue := s.queue[1..]);
    s2 := P.Apply(s1, P.Emit);
    P.StepKeepsShape(s1, P.Emit);
  }

  // ---------------------------------------------------------------- inside the server

  ghost predicate ServerGoes(s: S.State, e: S.Event, s': S.State) {
    S.Shape(s) && S.Enabled(s, e) && S.Shape(s') && s' == S.Apply(s, e)
  }

  /** What relaying leaves: the sessions, the registrations and the stored routes as they were but
      for the packet's own, which is active now, and if it is new leads from the session's client to
      the proxy chosen. */
  ghost predicate AfterRelay(s: S.State, s': S.State, st: Stream, pkt: Packet, choice: Option<Id>) {
    && s'.sessions == s.sessions && s'.clock == s.clock && s'.tables.Valid()
    && s'.tables.clients == s.tables.clients && s'.tables.proxys == s.tables.proxys
    && S.Extends(s.tables.routes, s'.tables.routes)
    && pkt.connId in s'.tables.connections
    && var r := s'.tables.connections[pkt.connId];
      && s'.tables.connections == s.tables.connections[pkt.connId := r] && s'.tables.routes[r].last == s.clock
      && (if pkt.connId in s.tables.connections then s'.tables.connections == s.tables.connections
          else
            && st in s.sessions && s'.tables.routes[r].clientId == s.sessions[st].id
            && Some(s'.tables.routes[r].proxyId) == choice && s'.tables.routes[r].created == s.clock)
  }

  lemma Looks(s: S.State, st: Stream, pkt: Packet, choice: Option<Id>) returns (s1: S.State)
    requires S.Shape(s) && S.Enabled(s, S.Receive(st, pkt, choice)) && S.Target(s, st, pkt, choice).Some?
    ensures ServerGoes(s, S.Receive(st, pkt, choice), s1) && st in s.sessions && st in s1.sessions
    ensures s1.sessions[st].phase.Counting?
    ensures s1.sessions == s.sessions[st := s.sessions[st].(phase := s1.sessions[st].phase)]
    ensures AfterRelay(s, s1.(sessions := s.sessions), st, pkt, choice)
    ensures var call := s1.sessions[st].phase.call; call.dest == S.Target(s, st, pkt, choice).value && call.pkt == pkt
  {
    s1 := S.Apply(s, S.Receive(st, pkt, choice));
    S.StepKeepsShape(s, S.Receive(st, pkt, choice));
  }

  /** The tables but for the counters. */
  ghost predicate OnlyCounted(t: R.Tables, t': R.Tables) {
    && t'.Valid() && t'.clients == t.clients && t'.proxys == t.proxys && t'.connections == t.connections
    && |t'.routes| == |t.routes|
    && forall r :: 0 <= r < |t.routes| ==>
      t'.routes[r].Binding() == t.routes[r].Binding() && t'.routes[r].last == t.routes[r].last
  }

  lemma CountedOnce(s: S.State, st: Stream) returns (s1: S.State)
    requires S.Shape(s) && st in s.sessions && s.sessions[st].phase.Counting?
    ensures ServerGoes(s, S.Count(st), s1) && s1.clock == s.clock && OnlyCounted(s.tables, s1.tables)
    ensures s1.sessions == s.sessions[st := s.sessions[st].(phase := S.Sending(s.sessions[st].phase.call))]
  {
    assert S.CallFits(s, st, s.sessions[st].phase.call);
    s1 := S.Apply(s, S.Count(st));
    S.StepKeepsShape(s, S.Count(st));
  }

  lemma SentOn(s: S.State, st: Stream) returns (s1: S.State)
    requires S.Shape(s) && st in s.sessions && s.sessions[st].phase.Sending?
    ensures ServerGoes(s, S.Sent(st), s1) && s1.clock == s.clock && s1.tables == s.tables
    ensures s1.sessions == s.sessions[st := s.sessions[st].(phase := S.Receiving)]
  {
    s1 := S.Apply(s, S.Sent(st));
    S.StepKeepsShape(s, S.Sent(st));
  }

  /** A packet with a target is looked up, counted and sent there, and its session receives again. */
  lemma ServerRelays(s: S.State, st: Stream, pkt: Packet, choice: Option<Id>)
    returns (s1: S.State, s2: S.State, s3: S.State)
    requires S.Shape(s) && S.Enabled(s, S.Receive(st, pkt, choice)) && S.Target(s, st, pkt, choice).Some?
    ensures ServerGoes(s, S.Receive(st, pkt, choice), s1) && ServerGoes(s1, S.Count(st), s2)
    ensures ServerGoes(s2, S.Sent(st), s3) && AfterRelay(s, s3, st, pkt, choice)
    ensures st in s2.sessions && s2.sessions[st].phase.Sending?
    ensures var call := s2.sessions[st].phase.call; call.dest == S.Target(s, st, pkt, choice).value && call.pkt == pkt
  {
    assert s.In(st, S.Receiving);
    s1 := Looks(s, st, pkt, choice);
    hide S.Target, S.Shape, S.Enabled, S.Apply;
    s2 := CountedOnce(s1, st);
    s3 := SentOn(s2, st);
    assert s3.sessions == s.sessions;
  }

  /** A sweep can come at any time, and takes the routes that are idle for more than five minutes. */
  lemma Sweeps(s: S.State) returns (s1: S.State)
    requires S.Shape(s)
    ensures ServerGoes(s, S.SweepStale, s1) && s1 == s.(tables := s.tables.(connections := s1.tables.connections))
    ensures forall id :: id in s1.tables.connections <==>
      id in s.tables.connections && s.clock - s.tables.routes[s.tables.connections[id]].last <= 300_000_000_000
    ensures forall id :: id in s1.tables.connections ==> s1.tables.connections[id] == s.tables.connections[id]
  {
    s1 := S.Apply(s, S.SweepStale);
    S.StepKeepsShape(s, S.SweepStale);
  }

  /** A route can be removed at any time. */
  lemma Removes(s: S.State, id: Id) returns (s1: S.State)
    requires S.Shape(s)
    ensures ServerGoes(s, S.Remove(id), s1)
    ensures s1 == s.(tables := s.tables.(connections := s.tables.connections - {id}))
  {
    s1 := S.Apply(s, S.Remove(id));
    S.StepKeepsShape(s, S.Remove(id));
  }

  /** The session of a stream that has just registered: granted its ID if nobody holds it. */
  function Enrolled(s: S.State, st: Stream, role: Role, id: Id, block: Option<Block>): S.State {
    var ok := if role.ClientRole? then id !in s.tables.clients else id !in s.tables.proxys;
    s.(sessions := s.sessions[st := S.Session(role, id, ok, if ok then [id] else [], S.Receiving)],
       tables := if !ok then s.tables
                 else if role.ClientRole? then s.tables.(clients := s.tables.clients[id := st])
                 else s.tables.(proxys := s.tables.proxys[id := R.ProxyConn(id, st, block)]))
  }

  lemma Opens(s: S.State, st: Stream, role: Role) returns (s1: S.State)
    requires S.Shape(s) && st !in s.sessions
    ensures ServerGoes(s, S.Open(st, role), s1)
    ensures s1 == s.(sessions := s.sessions[st := S.Session(role, "", false, [], S.Receiving)])
  {
    s1 := S.Apply(s, S.Open(st, role));
    S.StepKeepsShape(s, S.Open(st, role));
  }

  lemma Registers(s: S.State, st: Stream, role: Role, id: Id, block: Option<Block>) returns (s1: S.State)
    requires S.Shape(s) && st in s.sessions && s.sessions[st] == S.Session(role, "", false, [], S.Receiving)
    ensures ServerGoes(s, S.Register(st, id, block), s1) && st in s1.sessions && s1.sessions[st].phase == S.Acking
    ensures s1.(sessions := s1.sessions[st := s1.sessions[st].(phase := S.Receiving)])
         == Enrolled(s, st, role, id, block)
  {
    s1 := S.Apply(s, S.Register(st, id, block));
    S.StepKeepsShape(s, S.Register(st, id, block));
    assert [] + [id] == [id];
    hide S.Shape;
    assert s1.sessions[st := s1.sessions[st].(phase := S.Receiving)] == Enrolled(s, st, role, id, block).sessions;
  }

  lemma Acknowledged(s: S.State, st: Stream) returns (s1: S.State)
    requires S.Shape(s) && st in s.sessions && s.sessions[st].phase == S.Acking
    ensures ServerGoes(s, S.Acked(st, true), s1)
    ensures s1 == s.(sessions := s.sessions[st := s.sessions[st].(phase := S.Receiving)])
  {
    s1 := S.Apply(s, S.Acked(st, true));
    S.StepKeepsShape(s, S.Acked(st, true));
  }

  /** A new stream opens a session and registers. */
  lemma ServerJoins(s: S.State, st: Stream, role: Role, id: Id, block: Option<Block>)
    returns (s1: S.State, s2: S.State, s3: S.State)
    requires S.Shape(s) && st !in s.sessions
    ensures ServerGoes(s, S.Open(st, role), s1) && ServerGoes(s1, S.Register(st, id, block), s2)
    ensures ServerGoes(s2, S.Acked(st, true), s3) && s3 == Enrolled(s, st, role, id, block)
  {
    hide S.Shape, S.Apply, S.Enabled;
    s1 := Opens(s, st, role);
    s2 := Registers(s1, st, role, id, block);
    s3 := Acknowledged(s2, st);
    assert Enrolled(s1, st, role, id, block).sessions == Enrolled(s, st, role, id, block).sessions;
  }

  // ---------------------------------------------------------------- in the whole system

  ghost predicate Step(y: System, e: Event, y': System) {
    Shape(y) && Enabled(y, e) && Shape(y') && y' == Apply(y, e)
  }

  lemma Applied(y: System, e: Event) returns (y': System)
    requires Shape(y) && Enabled(y, e)
    ensures Step(y, e, y') && y' == Apply(y, e)
  {
    hide Shape, Enabled, Apply;
    StepKeepsShape(y, e);
    y' := Apply(y, e);
  }

  lemma ServerOf(y: System)
    requires Shape(y)
    ensures S.Shape(y.server)
  {
    hide S.Shape, P.Shape;
  }

  lemma ProcessOf(y: System, st: Stream)
    requires Shape(y) && st in y.procs
    ensures P.Shape(y.procs[st])
  {
    hide S.Shape, P.Shape;
  }

  /** The queues but for one are the same; that one is `now`. */
  ghost predicate OnlyQueue(
    before: map<Stream, seq<Packet>>, after: map<Stream, seq<Packet>>, st: Stream, now: seq<Packet>)
  {
    forall x: Stream :: Queued(after, x) == if x == st then now else Queued(before, x)
  }

  lemma TakesUp(y: System, st: Stream, choice: Option<Id>, pkt: Packet, rest: seq<Packet>) returns (y': System)
    requires Shape(y) && Queued(y.up, st) == [pkt] + rest && S.Enabled(y.server, S.Receive(st, pkt, choice))
    ensures Step(y, Take(st, choice), y') && y'.procs == y.procs && y'.down == y.down
    ensures OnlyQueue(y.up, y'.up, st, rest)
    ensures S.Shape(y.server) && y'.server == S.Apply(y.server, S.Receive(st, pkt, choice))
  {
    hide S.Shape, S.Apply, S.Enabled, P.Shape, P.Enabled, P.Apply, Pop;
    ServerOf(y);
    y' := Applied(y, Take(st, choice));
    TakeEffect(y, Take(st, choice));
    forall x: Stream ensures Queued(y'.up, x) == if x == st then rest else Queued(y.up, x) { PopPart(y.up, st, x); }
  }

  lemma Counts(y: System, st: Stream) returns (y': System)
    requires Shape(y) && S.Enabled(y.server, S.Count(st))
    ensures Step(y, Relay(S.Count(st)), y') && y'.procs == y.procs && y'.up == y.up && y'.down == y.down
    ensures S.Shape(y.server) && y'.server == S.Apply(y.server, S.Count(st))
  {
    hide S.Shape, S.Apply, S.Enabled, P.Shape, P.Enabled, P.Apply;
    ServerOf(y);
    y' := Applied(y, Relay(S.Count(st)));
    RelayEffect(y, Relay(S.Count(st)));
  }

  lemma SendsDown(y: System, st: Stream) returns (y': System)
    requires Shape(y) && S.Enabled(y.server, S.Sent(st))
    ensures Step(y, Deliver(st, false), y') && y'.procs == y.procs && y'.up == y.up
    ensures S.Shape(y.server) && y'.server == S.Apply(y.server, S.Sent(st))
    ensures st in y.server.sessions && y.server.sessions[st].Calling()
    ensures var call := y.server.sessions[st].phase.call;
      OnlyQueue(y.down, y'.down, call.dest, Queued(y.down, call.dest) + [call.pkt])
  {
    hide S.Shape, S.Apply, S.Enabled, P.Shape, P.Enabled, P.Apply, Push;
    ServerOf(y);
    y' := Applied(y, Deliver(st, false));
    DeliverEffect(y, Deliver(st, false));
    var call := y.server.sessions[st].phase.call;
    forall x: Stream
      ensures Queued(y'.down, x) == if x == call.dest then Queued(y.down, x) + [call.pkt] else Queued(y.down, x)
    {
      PushPart(y.down, call.dest, call.pkt, x);
    }
  }

  /** The oldest packet that has come up goes down to its target. */
  lemma Relays(y: System, st: Stream, choice: Option<Id>, pkt: Packet, rest: seq<Packet>)
    returns (y1: System, y2: System, y3: System)
    requires Shape(y) && Queued(y.up, st) == [pkt] + rest
    requires S.Enabled(y.server, S.Receive(st, pkt, choice)) && S.Target(y.server, st, pkt, choice).Some?
    ensures Step(y, Take(st, choice), y1) && Step(y1, Relay(S.Count(st)), y2) && Step(y2, Deliver(st, false), y3)
    ensures y3.procs == y.procs && AfterRelay(y.server, y3.server, st, pkt, choice) && OnlyQueue(y.up, y3.up, st, rest)
    ensures var d := S.Target(y.server, st, pkt, choice).value;
      OnlyQueue(y.down, y3.down, d, Queued(y.down, d) + [pkt])
  {
    hide Shape, S.Shape, S.Apply, S.Enabled, S.Target, AfterRelay, OnlyQueue, Enabled, Apply;
    ServerOf(y);
    var s1, s2, s3 := ServerRelays(y.server, st, pkt, choice);
    y1 := TakesUp(y, st, choice, pkt, rest);
    y2 := Counts(y1, st);
    y3 := SendsDown(y2, st);
  }

  lemma ServerSteps(y: System, se: S.Event, s: S.State) returns (y': System)
    requires Shape(y) && ServerGoes(y.server, se, s) && !se.Receive? && !se.Sent?
    requires se.Open? ==> se.st in y.procs && y.procs[se.st].role == se.role
    ensures Step(y, Relay(se), y') && y' == y.(server := s)
  {
    hide S.Shape, S.Apply, S.Enabled, P.Shape, P.Enabled, P.Apply;
    y' := Applied(y, Relay(se));
  }

  /** A process starts on a free stream, and is registered there under its ID, or refused. */
  lemma Joins(y: System, st: Stream, role: Role, clock: Time, id: Id, block: Option<Block>)
    returns (y1: System, y2: System, y3: System, y4: System)
    requires Shape(y) && st !in y.procs && st !in y.server.sessions
    ensures Step(y, Start(st, role, clock), y1) && Step(y1, Relay(S.Open(st, role)), y2)
    ensures Step(y2, Relay(S.Register(st, id, block)), y3) && Step(y3, Relay(S.Acked(st, true)), y4)
    ensures y4 == y.(procs := y.procs[st := P.Init(role, st, clock)], server := Enrolled(y.server, st, role, id, block))
  {
    hide S.Shape, S.Apply, S.Enabled, P.Shape, P.Init, Enrolled;
    ServerOf(y);
    var s1, s2, s3 := ServerJoins(y.server, st, role, id, block);
    y1 := Starts(y, st, role, clock);
    y2 := ServerSteps(y1, S.Open(st, role), s1);
    y3 := ServerSteps(y2, S.Register(st, id, block), s2);
    y4 := ServerSteps(y3, S.Acked(st, true), s3);
  }

  lemma Starts(y: System, st: Stream, role: Role, clock: Time) returns (y': System)
    requires Shape(y) && st !in y.procs
    ensures Step(y, Start(st, role, clock), y') && y' == y.(procs := y.procs[st := P.Init(role, st, clock)])
    ensures P.Init(role, st, clock).role == role
  {
    hide S.Shape, P.Shape;
    y' := Applied(y, Start(st, role, clock));
  }

  lemma Arrives(y: System, st: Stream, dials: bool, pkt: Packet, rest: seq<Packet>, s: P.State) returns (y': System)
    requires Shape(y) && st in y.procs && Goes(y.procs[st], P.Receive(pkt, dials), s)
    requires Queued(y.down, st) == [pkt] + rest
    ensures Step(y, Arrive(st, dials), y') && y'.server == y.server && y'.up == y.up
    ensures y'.procs == y.procs[st := s] && OnlyQueue(y.down, y'.down, st, rest)
  {
    hide S.Shape, P.Shape, P.Enabled, P.Apply, Pop;
    y' := Applied(y, Arrive(st, dials));
    ArriveEffect(y, Arrive(st, dials));
    InsideStep(y, Arrive(st, dials));
    forall x: Stream ensures Queued(y'.down, x) == if x == st then rest else Queued(y.down, x) {
      PopPart(y.down, st, x);
    }
  }

  lemma Moves(y: System, st: Stream, pe: P.Event, s: P.State) returns (y': System)
    requires Shape(y) && st in y.procs && Goes(y.procs[st], pe, s) && !pe.Emit? && !pe.Receive?
    ensures Step(y, Internal(st, pe), y') && y'.procs == y.procs[st := s]
    ensures y'.server == y.server && y'.up == y.up && y'.down == y.down
  {
    hide S.Shape, P.Shape, P.Enabled, P.Apply;
    y' := Applied(y, Internal(st, pe));
  }

  lemma Emits(y: System, st: Stream, s: P.State) returns (y': System)
    requires Shape(y) && st in y.procs && Goes(y.procs[st], P.Emit, s)
    ensures y.procs[st].outHand.Some?
    ensures Step(y, Emit(st, false), y') && y'.procs == y.procs[st := s]
    ensures y'.server == y.server && y'.down == y.down
    ensures OnlyQueue(y.up, y'.up, st, Queued(y.up, st) + [P.Image(y.procs[st])])
  {
    hide S.Shape, P.Shape, P.Apply, P.Image, Push;
    y' := Applied(y, Emit(st, false));
    EmitEffect(y, Emit(st, false));
    InsideStep(y, Emit(st, false));
    forall x: Stream
      ensures Queued(y'.up, x) == if x == st then Queued(y.up, x) + [P.Image(y.procs[st])] else Queued(y.up, x)
    {
      PushPart(y.up, st, P.Image(y.procs[st]), x);
    }
  }

  /** The oldest packet a process has queued goes up its stream. */
  lemma SendsUp(y: System, st: Stream) returns (y1: System, y2: System)
    requires Shape(y) && st in y.procs && P.Shape(y.procs[st]) && y.procs[st].outHand.None? && y.procs[st].queue != []
    ensures Step(y, Internal(st, P.Take), y1) && Step(y1, Emit(st, false), y2)
    ensures y2.server == y.server && y2.down == y.down
    ensures y2.procs == y.procs[st := y.procs[st].(queue := y.procs[st].queue[1..])]
    ensures OnlyQueue(y.up, y2.up, st, Queued(y.up, st) + [NextOut(y.procs[st])])
  {
    hide *;
    var s1, s2 := Sends(y.procs[st]);
    y1 := Moves(y, st, P.Take, s1);
    Shaped(y, Internal(st, P.Take), y1);
    y2 := Emits(y1, st, s2);
    LastUpdate(y.procs, st, s1, s2);
  }

  lemma Shaped(y: System, e: Event, y': System)
    requires Step(y, e, y')
    ensures Shape(y')
  {
  }

  lemma LastQueue(
      a: map<Stream, seq<Packet>>, b: map<Stream, seq<Packet>>, c: map<Stream, seq<Packet>>, st: Stream,
      u: seq<Packet>, v: seq<Packet>)
    requires OnlyQueue(a, b, st, u) && OnlyQueue(b, c, st, v)
    ensures OnlyQueue(a, c, st, v)
  {
  }

  lemma LastUpdate<T>(m: map<Stream, T>, st: Stream, a: T, b: T)
    ensures m[st := a][st := b] == m[st := b]
  {
  }

  /** A response that has come down to its client is written to the socket its ID leads to. */
  lemma ResponseWritten(y: System, st: Stream, pkt: Packet, rest: seq<Packet>)
    returns (y1: System, y2: System, y3: System)
    requires Shape(y) && st in y.procs && P.Shape(y.procs[st]) && Queued(y.down, st) == [pkt] + rest
    requires y.procs[st].role.ClientRole? && y.procs[st].inHand.Nothing? && Reaches(y.procs[st], pkt.connId)
    ensures Step(y, Arrive(st, false), y1)
    ensures Step(y1, Internal(st, P.TouchIn), y2) && Step(y2, Internal(st, P.Write), y3)
    ensures y3.server == y.server && y3.up == y.up && OnlyQueue(y.down, y3.down, st, rest)
    ensures y3.procs == y.procs[st := Appended(y.procs[st], pkt)]
  {
    hide *;
    var s1, s2, s3 := ClientWrites(y.procs[st], pkt, false);
    y1 := Arrives(y, st, false, pkt, rest, s1);
    Shaped(y, Arrive(st, false), y1);
    y2 := Moves(y1, st, P.TouchIn, s2);
    Shaped(y1, Internal(st, P.TouchIn), y2);
    y3 := Moves(y2, st, P.Write, s3);
    LastUpdate(y.procs, st, s1, s2);
    LastUpdate(y.procs, st, s2, s3);
  }

  /** What a packet with nothing in its way leaves of its proxy. */
  function Forwarded(s: P.State, pkt: Packet): P.State
    requires P.Shape(s)
  {
    if pkt.connId in s.table.connections then Appended(s, pkt) else Dialed(s, pkt)
  }

  lemma ProxyForwards(s: P.State, pkt: Packet) returns (s1: P.State, s2: P.State)
    requires P.Shape(s) && s.role.ProxyRole? && s.inHand.Nothing?
    requires pkt.connId in s.table.connections ==> Reaches(s, pkt.connId)
    ensures Goes(s, P.Receive(pkt, true), s1) && Goes(s1, P.Write, s2) && s2 == Forwarded(s, pkt)
  {
    hide P.Shape, Goes, Appended, Dialed, Reaches;
    if pkt.connId in s.table.connections {
      s1, s2 := ProxyWrites(s, pkt, true);
    } else {
      s1, s2 := ProxyDials(s, pkt);
    }
  }

  /** A packet that has come down to its proxy is written to the target its ID leads to. */
  lemma PacketWritten(y: System, st: Stream, pkt: Packet, rest: seq<Packet>) returns (y1: System, y2: System)
    requires Shape(y) && st in y.procs && P.Shape(y.procs[st]) && Queued(y.down, st) == [pkt] + rest
    requires y.procs[st].role.ProxyRole? && y.procs[st].inHand.Nothing?
    requires pkt.connId in y.procs[st].table.connections ==> Reaches(y.procs[st], pkt.connId)
    ensures Step(y, Arrive(st, true), y1) && Step(y1, Internal(st, P.Write), y2)
    ensures y2.server == y.server && y2.up == y.up && OnlyQueue(y.down, y2.down, st, rest)
    ensures y2.procs == y.procs[st := Forwarded(y.procs[st], pkt)]
  {
    hide *;
    var s1, s2 := ProxyForwards(y.procs[st], pkt);
    y1 := Arrives(y, st, true, pkt, rest, s1);
    Shaped(y, Arrive(st, true), y1);
    y2 := Moves(y1, st, P.Write, s2);
    LastUpdate(y.procs, st, s1, s2);
  }

  // ---------------------------------------------------------------- all the way from a stream

  /** The session of stream `st` is registered and receives, and the oldest packet that has come
      up to it has target `d`, whose process has nothing else to deliver. */
  ghost predicate Clear(y: System, st: Stream, choice: Option<Id>, pkt: Packet, rest: seq<Packet>, d: Stream) {
    && Shape(y) && Queued(y.up, st) == [pkt] + rest && S.Enabled(y.server, S.Receive(st, pkt, choice))
    && S.Target(y.server, st, pkt, choice) == Some(d)
    && d in y.procs && P.Shape(y.procs[d]) && y.procs[d].inHand.Nothing? && Queued(y.down, d) == []
  }

  /** A response whose client is registered and tracks its connection, with nothing in the way, is
      written to that connection: six steps do it. */
  lemma ResponseReachesItsSocket(y: System, st: Stream, choice: Option<Id>, pkt: Packet, rest: seq<Packet>, d: Stream)
    returns (ys: seq<System>)
    requires Clear(y, st, choice, pkt, rest, d) && y.procs[d].role.ClientRole? && Reaches(y.procs[d], pkt.connId)
    ensures Paths.Path(
      Step, ys, [Take(st, choice), Relay(S.Count(st)), Deliver(st, false),
                 Arrive(d, false), Internal(d, P.TouchIn), Internal(d, P.Write)])
    ensures ys[6].procs == y.procs[d := Appended(y.procs[d], pkt)]
    ensures ys[0] == y && AfterRelay(y.server, ys[6].server, st, pkt, choice)
    ensures OnlyQueue(y.up, ys[6].up, st, rest) && OnlyQueue(y.down, ys[6].down, d, [])
  {
    hide Shape, S.Shape, S.Apply, S.Enabled, S.Target, AfterRelay, P.Shape, Appended, Reaches, Enabled, Apply, Step;
    var y1, y2, y3 := Relays(y, st, choice, pkt, rest);
    Shaped(y2, Deliver(st, false), y3);
    assert Queued(y3.down, d) == [pkt] + [];
    var y4, y5, y6 := ResponseWritten(y3, d, pkt, []);
    LastQueue(y.down, y3.down, y6.down, d, [pkt], []);
    ys := [y, y1, y2, y3, y4, y5, y6];
  }

  /** A packet with a target, and with nothing in the way, is written there, to a connection held
      already or dialed for it: five steps do it. */
  lemma PacketReachesItsTarget(y: System, st: Stream, choice: Option<Id>, pkt: Packet, rest: seq<Packet>, d: Stream)
    returns (ys: seq<System>)
    requires Clear(y, st, choice, pkt, rest, d) && y.procs[d].role.ProxyRole?
    requires pkt.connId in y.procs[d].table.connections ==> Reaches(y.procs[d], pkt.connId)
    ensures Paths.Path(
      Step, ys, [Take(st, choice), Relay(S.Count(st)), Deliver(st, false), Arrive(d, true), Internal(d, P.Write)])
    ensures ys[5].procs == y.procs[d := Forwarded(y.procs[d], pkt)]
    ensures ys[0] == y && AfterRelay(y.server, ys[5].server, st, pkt, choice)
    ensures OnlyQueue(y.up, ys[5].up, st, rest) && OnlyQueue(y.down, ys[5].down, d, [])
  {
    hide Shape, S.Shape, S.Apply, S.Enabled, S.Target, AfterRelay, P.Shape, Forwarded, Reaches, Enabled, Apply, Step;
    var y1, y2, y3 := Relays(y, st, choice, pkt, rest);
    Shaped(y2, Deliver(st, false), y3);
    assert Queued(y3.down, d) == [pkt] + [];
    var y4, y5 := PacketWritten(y3, d, pkt, []);
    LastQueue(y.down, y3.down, y5.down, d, [pkt], []);
    ys := [y, y1, y2, y3, y4, y5];
  }
}
