/** The whole relay: any number of clients and proxies, each with one stream to the server, and
    the server between them. A stream is a pair of queues, `up` towards the server and `down`
    from it, whose messages may also be lost (when the stream fails or ends). */
module EndToEnd {
  import opened Wire
  import opened Pipeline
  import opened Carriage
  import P = Process
  import S = Server

  datatype System = System(
    procs: map<Stream, P.State>, server: S.State, up: map<Stream, seq<Packet>>, down: map<Stream, seq<Packet>>)

  function Init(clock: Time): System {
    System(map[], S.Init(clock), map[], map[])
  }

  function Queued(channel: map<Stream, seq<Packet>>, st: Stream): seq<Packet> {
    if st in channel then channel[st] else []
  }

  function Push(channel: map<Stream, seq<Packet>>, st: Stream, p: Packet): map<Stream, seq<Packet>> {
    channel[st := Queued(channel, st) + [p]]
  }

  function Pop(channel: map<Stream, seq<Packet>>, st: Stream): map<Stream, seq<Packet>>
    requires Queued(channel, st) != []
  {
    channel[st := channel[st][1..]]
  }

  /** `Emit`, `Arrive`, `Take` and `Deliver` are the four ends of the two queues; `lost` says
      that the send failed. */
  datatype Event =
    | Start(st: Stream, role: Role, clock: Time)
    | Internal(st: Stream, pe: P.Event)
    | Emit(st: Stream, lost: bool)
    | Arrive(st: Stream, dials: bool)
    | Relay(se: S.Event)
    | Take(st: Stream, choice: Option<Id>)
    | Deliver(st: Stream, lost: bool)
    | LoseUp(st: Stream)
    | LoseDown(st: Stream)

  predicate Shape(y: System) {
    && (forall st :: st in y.procs ==> P.Shape(y.procs[st]) && Carries(y.procs[st]) && y.procs[st].stream == st)
    && S.Shape(y.server)
  }

  predicate Enabled(y: System, e: Event)
    requires Shape(y)
  {
    match e
    case Start(st, _, _) => st !in y.procs
    case Internal(st, pe) => st in y.procs && !pe.Emit? && !pe.Receive? && P.Enabled(y.procs[st], pe)
    case Emit(st, _) => st in y.procs && P.Enabled(y.procs[st], P.Emit)
    case Arrive(st, dials) =>
      st in y.procs && Queued(y.down, st) != [] && P.Enabled(y.procs[st], P.Receive(y.down[st][0], dials))
    case Relay(se) =>
      && S.Enabled(y.server, se) && !se.Receive? && !se.Sent?
      && (se.Open? ==> se.st in y.procs && y.procs[se.st].role == se.role)
    case Take(st, choice) => Queued(y.up, st) != [] && S.Enabled(y.server, S.Receive(st, y.up[st][0], choice))
    case Deliver(st, _) => S.Enabled(y.server, S.Sent(st))
    case LoseUp(st) => Queued(y.up, st) != []
    case LoseDown(st) => Queued(y.down, st) != []
  }

  function Apply(y: System, e: Event): System
    requires Shape(y) && Enabled(y, e)
  {
    match e
    case Start(st, role, clock) => y.(procs := y.procs[st := P.Init(role, st, clock)])
    case Internal(st, pe) => y.(procs := y.procs[st := P.Apply(y.procs[st], pe)])
    case Emit(st, lost) =>
      y.(procs := y.procs[st := P.Apply(y.procs[st], P.Emit)],
         up := if lost then y.up else Push(y.up, st, P.Image(y.procs[st])))
    case Arrive(st, dials) =>
      y.(procs := y.procs[st := P.Apply(y.procs[st], P.Receive(y.down[st][0], dials))], down := Pop(y.down, st))
    case Relay(se) => y.(server := S.Apply(y.server, se))
    case Take(st, choice) =>
      y.(server := S.Apply(y.server, S.Receive(st, y.up[st][0], choice)), up := Pop(y.up, st))
    case Deliver(st, lost) =>
      var call := y.server.sessions[st].phase.call;
      y.(server := S.Apply(y.server, S.Sent(st)), down := if lost then y.down else Push(y.down, call.dest, call.pkt))
    case LoseUp(st) => y.(up := Pop(y.up, st))
    case LoseDown(st) => y.(down := Pop(y.down, st))
  }

  lemma StartFits(role: Role, st: Stream, clock: Time)
    ensures P.Shape(P.Init(role, st, clock)) && Carries(P.Init(role, st, clock))
  {
  }

  lemma StepKeepsShape(y: System, e: Event)
    requires Shape(y) && Enabled(y, e)
    ensures Shape(Apply(y, e))
  {
    hide P.Apply, P.Shape, P.Enabled, Carries, S.Apply, S.Shape, S.Enabled;
    match e
    case Start(st, role, clock) => StartFits(role, st, clock);
    case Internal(st, pe) => StepKeepsCarries(y.procs[st], pe);
    case Emit(st, _) => StepKeepsCarries(y.procs[st], P.Emit);
    case Arrive(st, dials) => StepKeepsCarries(y.procs[st], P.Receive(y.down[st][0], dials));
    case Relay(se) => S.StepKeepsShape(y.server, se);
    case Take(st, choice) => S.StepKeepsShape(y.server, S.Receive(st, y.up[st][0], choice));
    case Deliver(st, _) => S.StepKeepsShape(y.server, S.Sent(st));
    case LoseUp(st) =>
    case LoseDown(st) =>
  }

  // ---------------------------------------------------------------- the way of a packet

  /** The packet the server session of stream `x` is relaying to stream `d`. */
  function Relayed(server: S.State, x: Stream, d: Stream): seq<Packet> {
    if x in server.sessions && server.sessions[x].Calling() && server.sessions[x].phase.call.dest == d
    then [server.sessions[x].phase.call.pkt] else []
  }

  function Outgoing(y: System, o: Origin): seq<Packet> {
    if o.stream in y.procs then OutSide(y.procs[o.stream], o.socket) else []
  }

  function Incoming(y: System, d: Stream, h: nat): seq<Packet>
    requires Shape(y)
  {
    if d in y.procs then InSide(y.procs[d], h) else []
  }

  /** Everything read from the socket `o`, in order. */
  function Log(y: System, o: Origin): seq<Packet> {
    if o.stream in y.procs then Chunks(y.procs[o.stream], o.socket) else []
  }

  predicate FromProxy(y: System, o: Origin) {
    o.stream in y.procs && y.procs[o.stream].role.ProxyRole?
  }

  /** The packets of origin `o` on their way to socket `h` of the process with stream `d`, the
      farthest first: written or in hand there, down its stream, in the server, up the stream
      of their origin, and still in the process that read them. */
  function Pipe(y: System, o: Origin, d: Stream, h: nat): seq<Packet>
    requires Shape(y)
  {
    Front(y, o, d, h) + Of(Outgoing(y, o), o)
  }

  /** All of the pipe but what is still in the process of origin. */
  function Front(y: System, o: Origin, d: Stream, h: nat): seq<Packet>
    requires Shape(y)
  {
    Of(Incoming(y, d, h), o) + Of(Queued(y.down, d), o) + Of(Relayed(y.server, o.stream, d), o)
    + Of(Queued(y.up, o.stream), o)
  }

  /** A stream carries up only what its own process has read. */
  ghost predicate Sourced(y: System) {
    && (forall st: Stream, p :: p in Queued(y.up, st) ==> p.origin.stream == st)
    && (forall st :: st in y.server.sessions && y.server.sessions[st].Calling() ==>
          y.server.sessions[st].phase.call.pkt.origin.stream == st)
  }

  ghost predicate InOrder(y: System, o: Origin, d: Stream, h: nat)
    requires Shape(y)
  {
    Ordered(Pipe(y, o, d, h), Log(y, o), FromProxy(y, o))
  }

  ghost predicate Inv(y: System) {
    Shape(y) && Sourced(y) && forall o, d: Stream, h: nat :: InOrder(y, o, d, h)
  }

  // ---------------------------------------------------------------- sources

  lemma PopPart(channel: map<Stream, seq<Packet>>, st: Stream, x: Stream)
    requires Queued(channel, st) != []
    ensures Queued(Pop(channel, st), x) == if x == st then Queued(channel, st)[1..] else Queued(channel, x)
  {
  }

  lemma PushPart(channel: map<Stream, seq<Packet>>, st: Stream, p: Packet, x: Stream)
    ensures Queued(Push(channel, st, p), x) == if x == st then Queued(channel, x) + [p] else Queued(channel, x)
  {
  }

  /** A server step other than a receive leaves every session's packet alone or puts it down. */
  lemma RelayKeepsCalls(server: S.State, se: S.Event)
    requires S.Shape(server) && S.Enabled(server, se) && !se.Receive?
    ensures var server' := S.Apply(server, se);
      forall x :: x in server'.sessions && server'.sessions[x].Calling() ==>
        (x in server.sessions && server.sessions[x].Calling()
         && server'.sessions[x].phase.call == server.sessions[x].phase.call)
  {
  }

  lemma ReceiveTakesCall(server: S.State, st: Stream, pkt: Packet, choice: Option<Id>)
    requires S.Shape(server) && S.Enabled(server, S.Receive(st, pkt, choice))
    ensures var server' := S.Apply(server, S.Receive(st, pkt, choice));
      && (forall d: Stream :: Relayed(server, st, d) == [])
      && (forall x :: x in server'.sessions && server'.sessions[x].Calling() ==>
            if x == st then server'.sessions[x].phase.call.pkt == pkt
            else x in server.sessions && server'.sessions[x] == server.sessions[x])
      && (forall x: Stream, d: Stream :: x != st ==> Relayed(server', x, d) == Relayed(server, x, d))
  {
  }

  lemma ReceivesRelayed(server: S.State, st: Stream, pkt: Packet, choice: Option<Id>, d: Stream)
    requires S.Shape(server) && S.Enabled(server, S.Receive(st, pkt, choice))
    ensures var server' := S.Apply(server, S.Receive(st, pkt, choice));
      Relayed(server', st, d) == [] || Relayed(server', st, d) == [pkt]
  {
    ReceiveTakesCall(server, st, pkt, choice);
    hide S.Apply, S.Shape, S.Enabled;
  }

  lemma SentPutsDown(server: S.State, st: Stream, d: Stream)
    requires S.Shape(server) && S.Enabled(server, S.Sent(st))
    ensures Relayed(S.Apply(server, S.Sent(st)), st, d) == []
    ensures Relayed(server, st, d)
         == if server.sessions[st].phase.call.dest == d then [server.sessions[st].phase.call.pkt] else []
  {
  }

  // ---------------------------------------------------------------- what steps change

  /** The process a step belongs to, if it belongs to one, and the process's own step. */
  function Inside(y: System, e: Event): Option<(Stream, P.Event)>
    requires Shape(y) && Enabled(y, e)
  {
    match e
    case Internal(st, pe) => Some((st, pe))
    case Emit(st, _) => Some((st, P.Emit))
    case Arrive(st, dials) => Some((st, P.Receive(y.down[st][0], dials)))
    case _ => None
  }

  lemma InsideStep(y: System, e: Event)
    requires Shape(y) && Enabled(y, e) && Shape(Apply(y, e))
    ensures match Inside(y, e)
      case Some((st, pe)) =>
        && st in y.procs && P.Shape(y.procs[st]) && Carries(y.procs[st]) && y.procs[st].stream == st
        && P.Enabled(y.procs[st], pe)
        && Apply(y, e).procs == y.procs[st := P.Apply(y.procs[st], pe)]
        && P.Apply(y.procs[st], pe).role == y.procs[st].role
      case None => forall st :: st in y.procs ==> st in Apply(y, e).procs && Apply(y, e).procs[st] == y.procs[st]
  {
    hide P.Shape, P.Enabled, Carries, S.Shape, S.Enabled, S.Apply;
  }

  lemma StartEffect(y: System, e: Event)
    requires Shape(y) && Enabled(y, e) && e.Start?
    ensures var y' := Apply(y, e); y'.server == y.server && y'.up == y.up && y'.down == y.down
  {
    hide P.Init, P.Shape, Carries, S.Shape;
  }

  lemma InternalEffect(y: System, e: Event)
    requires Shape(y) && Enabled(y, e) && e.Internal?
    ensures Inside(y, e) == Some((e.st, e.pe)) && !e.pe.Emit? && !e.pe.Receive?
    ensures var y' := Apply(y, e); y'.server == y.server && y'.up == y.up && y'.down == y.down
  {
    hide P.Apply, P.Shape, P.Enabled, Carries, S.Shape;
  }

  lemma EmitEffect(y: System, e: Event)
    requires Shape(y) && Enabled(y, e) && e.Emit?
    ensures Inside(y, e) == Some((e.st, P.Emit)) && e.st in y.procs && y.procs[e.st].outHand.Some?
    ensures var y' := Apply(y, e);
      && y'.server == y.server && y'.down == y.down
      && y'.up == if e.lost then y.up else Push(y.up, e.st, P.Image(y.procs[e.st]))
  {
    hide P.Apply, P.Shape, Carries, S.Shape, P.Image, Push;
  }

  lemma ArriveEffect(y: System, e: Event)
    requires Shape(y) && Enabled(y, e) && e.Arrive?
    ensures e.st in y.procs && Queued(y.down, e.st) != [] && e.st in y.down
    ensures Inside(y, e) == Some((e.st, P.Receive(y.down[e.st][0], e.dials)))
    ensures var y' := Apply(y, e); y'.server == y.server && y'.up == y.up && y'.down == Pop(y.down, e.st)
  {
    hide P.Apply, P.Shape, P.Enabled, Carries, S.Shape, Pop;
  }

  lemma RelayEffect(y: System, e: Event)
    requires Shape(y) && Enabled(y, e) && e.Relay?
    ensures S.Shape(y.server) && S.Enabled(y.server, e.se) && !e.se.Receive? && !e.se.Sent?
    ensures var y' := Apply(y, e);
      y'.procs == y.procs && y'.up == y.up && y'.down == y.down && y'.server == S.Apply(y.server, e.se)
  {
    hide S.Shape, S.Apply, S.Enabled, P.Shape, Carries;
  }

  lemma TakeEffect(y: System, e: Event)
    requires Shape(y) && Enabled(y, e) && e.Take?
    ensures Queued(y.up, e.st) != [] && e.st in y.up
    ensures S.Shape(y.server) && S.Enabled(y.server, S.Receive(e.st, y.up[e.st][0], e.choice))
    ensures var y' := Apply(y, e);
      && y'.procs == y.procs && y'.up == Pop(y.up, e.st) && y'.down == y.down
      && y'.server == S.Apply(y.server, S.Receive(e.st, y.up[e.st][0], e.choice))
  {
    hide S.Shape, S.Apply, S.Enabled, P.Shape, Carries, Pop;
  }

  lemma DeliverEffect(y: System, e: Event)
    requires Shape(y) && Enabled(y, e) && e.Deliver?
    ensures S.Shape(y.server) && S.Enabled(y.server, S.Sent(e.st))
    ensures e.st in y.server.sessions && y.server.sessions[e.st].Calling()
    ensures var y', call := Apply(y, e), y.server.sessions[e.st].phase.call;
      && y'.procs == y.procs && y'.up == y.up && y'.server == S.Apply(y.server, S.Sent(e.st))
      && y'.down == if e.lost then y.down else Push(y.down, call.dest, call.pkt)
  {
    hide S.Shape, S.Apply, P.Shape, Carries, Push;
  }

  lemma LossEffect(y: System, e: Event)
    requires Shape(y) && Enabled(y, e) && (e.LoseUp? || e.LoseDown?)
    ensures var y' := Apply(y, e);
      && y'.procs == y.procs && y'.server == y.server
      && (if e.LoseUp? then Queued(y.up, e.st) != [] && y'.up == Pop(y.up, e.st) && y'.down == y.down
          else Queued(y.down, e.st) != [] && y'.down == Pop(y.down, e.st) && y'.up == y.up)
  {
    hide S.Shape, P.Shape, Carries, Pop;
  }

  // ---------------------------------------------------------------- sources are kept

  lemma ImageIsLocal(s: P.State)
    requires P.Shape(s) && Carries(s) && s.outHand.Some?
    ensures P.Image(s).origin.stream == s.stream
  {
  }

  lemma UpStaysSourced(y: System, e: Event, x: Stream, p: Packet)
    requires Shape(y) && Sourced(y) && Enabled(y, e) && Shape(Apply(y, e)) && p in Queued(Apply(y, e).up, x)
    ensures p.origin.stream == x
  {
    hide Apply, Shape, Enabled, P.Shape, P.Image, P.Apply, P.Enabled;
    hide Carries, S.Shape, S.Enabled, S.Apply, Queued, Push, Pop;
    match e
    case Start(_, _, _) => StartEffect(y, e);
    case Internal(_, _) => InternalEffect(y, e);
    case Emit(st, lost) =>
      EmitEffect(y, e);
      InsideStep(y, e);
      ImageIsLocal(y.procs[st]);
      PushPart(y.up, st, P.Image(y.procs[st]), x);
    case Arrive(_, _) => ArriveEffect(y, e);
    case Relay(_) => RelayEffect(y, e);
    case Take(st, _) => TakeEffect(y, e); PopPart(y.up, st, x);
    case Deliver(_, _) => DeliverEffect(y, e);
    case LoseUp(st) => LossEffect(y, e); PopPart(y.up, st, x);
    case LoseDown(_) => LossEffect(y, e);
  }

  lemma CallsStaySourced(y: System, e: Event, st: Stream)
    requires Shape(y) && Sourced(y) && Enabled(y, e)
    requires st in Apply(y, e).server.sessions && Apply(y, e).server.sessions[st].Calling()
    ensures Apply(y, e).server.sessions[st].phase.call.pkt.origin.stream == st
  {
    hide Apply, Shape, Enabled, P.Shape, P.Image, P.Apply, P.Enabled, Carries, S.Shape, S.Enabled, S.Apply, Push, Pop;
    match e
    case Start(_, _, _) => StartEffect(y, e);
    case Internal(_, _) => InternalEffect(y, e);
    case Emit(_, _) => EmitEffect(y, e);
    case Arrive(_, _) => ArriveEffect(y, e);
    case Relay(se) => RelayEffect(y, e); RelayKeepsCalls(y.server, se);
    case Take(x, choice) =>
      TakeEffect(y, e);
      assert y.up[x][0] in Queued(y.up, x);
      ReceiveTakesCall(y.server, x, y.up[x][0], choice);
    case Deliver(x, _) => DeliverEffect(y, e); RelayKeepsCalls(y.server, S.Sent(x));
    case LoseUp(_) => LossEffect(y, e);
    case LoseDown(_) => LossEffect(y, e);
  }

  lemma StepKeepsSourced(y: System, e: Event)
    requires Shape(y) && Sourced(y) && Enabled(y, e)
    ensures Sourced(Apply(y, e))
  {
    var y' := Apply(y, e);
    StepKeepsShape(y, e);
    hide Apply, Shape, Enabled, Queued;
    assert Sourced(y);
    forall x: Stream, p | p in Queued(y'.up, x) ensures p.origin.stream == x { UpStaysSourced(y, e, x, p); }
    forall st | st in y'.server.sessions && y'.server.sessions[st].Calling()
      ensures y'.server.sessions[st].phase.call.pkt.origin.stream == st
    {
      CallsStaySourced(y, e, st);
    }
  }

  // ---------------------------------------------------------------- order is kept, step by step

  /** What a step of one process may change. */
  lemma ProcessStep(y: System, y': System, st: Stream, s': P.State, o: Origin, d: Stream, h: nat)
    requires Shape(y) && Shape(y') && st in y.procs && y'.procs == y.procs[st := s'] && s'.role == y.procs[st].role
    ensures P.Shape(y.procs[st]) && P.Shape(s')
    ensures FromProxy(y', o) == FromProxy(y, o)
    ensures if st == d then Incoming(y, d, h) == InSide(y.procs[st], h) && Incoming(y', d, h) == InSide(s', h)
            else Incoming(y', d, h) == Incoming(y, d, h)
    ensures if st == o.stream then
              && Outgoing(y, o) == OutSide(y.procs[st], o.socket) && Outgoing(y', o) == OutSide(s', o.socket)
              && Log(y, o) == Chunks(y.procs[st], o.socket) && Log(y', o) == Chunks(s', o.socket)
            else Outgoing(y', o) == Outgoing(y, o) && Log(y', o) == Log(y, o)
  {
    hide P.Shape, Carries, S.Shape, OutSide, InSide, Chunks;
    assert s' == y'.procs[st];
  }

  lemma SameProcs(y: System, y': System, o: Origin, d: Stream, h: nat)
    requires Shape(y) && Shape(y') && y'.procs == y.procs
    ensures Incoming(y', d, h) == Incoming(y, d, h) && Outgoing(y', o) == Outgoing(y, o)
    ensures Log(y', o) == Log(y, o) && FromProxy(y', o) == FromProxy(y, o)
  {
    hide Shape, InSide, OutSide, Chunks;
  }

  lemma QueuedHead(channel: map<Stream, seq<Packet>>, st: Stream)
    requires st in channel && Queued(channel, st) != []
    ensures channel[st] != [] && Queued(channel, st)[0] == channel[st][0]
  {
  }

  lemma StartMoves(y: System, e: Event, o: Origin, d: Stream, h: nat)
    requires Shape(y) && Enabled(y, e) && e.Start? && Shape(Apply(y, e))
    ensures var y' := Apply(y, e);
      && Incoming(y', d, h) == Incoming(y, d, h) && Outgoing(y', o) == Outgoing(y, o) && Log(y', o) == Log(y, o)
      && y'.server == y.server && y'.up == y.up && y'.down == y.down
      && (FromProxy(y', o) == FromProxy(y, o) || Log(y, o) == [])
  {
    StartIsEmpty(e.role, e.st, e.clock, h);
    StartIsEmpty(e.role, e.st, e.clock, o.socket);
    hide P.Init, P.Shape, Carries, S.Shape, OutSide, InSide, Chunks;
  }

  lemma UnreadIsUnfaithful(p: Packet, exact: bool)
    ensures !Faithful(p, [], exact)
  {
  }

  lemma NothingReadNothingFaithful(xs: seq<Packet>, exact: bool)
    requires Ordered(xs, [], exact)
    ensures xs == [] && Ordered(xs, [], !exact)
  {
    if xs != [] {
      UnreadIsUnfaithful(xs[0], exact);
      assert false;
    }
  }

  lemma StartKeepsOrder(y: System, e: Event, o: Origin, d: Stream, h: nat)
    requires Shape(y) && Enabled(y, e) && e.Start? && InOrder(y, o, d, h) && Shape(Apply(y, e))
    ensures InOrder(Apply(y, e), o, d, h)
  {
    StartMoves(y, e, o, d, h);
    hide Apply, Shape, Enabled, Incoming, Outgoing, Queued, Relayed, Of, Log, FromProxy, Ordered;
    if FromProxy(Apply(y, e), o) != FromProxy(y, o) {
      NothingReadNothingFaithful(Pipe(y, o, d, h), FromProxy(y, o));
    }
  }

  lemma StartIsEmpty(role: Role, st: Stream, clock: Time, k: nat)
    ensures P.Shape(P.Init(role, st, clock))
    ensures var s := P.Init(role, st, clock); InSide(s, k) == [] && OutSide(s, k) == [] && Chunks(s, k) == []
  {
  }

  /** All of the pipe but what is already in the process of destination. */
  function Rear(y: System, o: Origin, d: Stream): seq<Packet> {
    Of(Queued(y.down, d), o) + Of(Relayed(y.server, o.stream, d), o)
    + Of(Queued(y.up, o.stream), o) + Of(Outgoing(y, o), o)
  }

  lemma PipeEndsInRear(y: System, o: Origin, d: Stream, h: nat)
    requires Shape(y)
    ensures Pipe(y, o, d, h) == Of(Incoming(y, d, h), o) + Rear(y, o, d)
  {
    hide Of, Incoming, Outgoing, Queued, Relayed, Shape;
  }

  /** Filtering what lost its last packet. */
  lemma OfInit(xs: seq<Packet>, ys: seq<Packet>, o: Origin)
    requires ys == xs || (xs != [] && ys == xs[..|xs| - 1])
    ensures Of(ys, o) == Of(xs, o) || (Of(xs, o) != [] && Of(ys, o) == Of(xs, o)[..|Of(xs, o)| - 1])
  {
  }

  lemma LastLost(a: seq<Packet>, xs: seq<Packet>, ys: seq<Packet>, b: seq<Packet>)
    requires ys == xs || (xs != [] && ys == xs[..|xs| - 1])
    ensures Shrinks(a + xs + b, a + ys + b)
  {
    if ys != xs {
      DroppedMiddle(a + ys, xs[|xs| - 1], b);
      assert (a + ys) + [xs[|xs| - 1]] + b == a + xs + b;
    }
  }

  /** Steps of a process that neither send nor receive: what they do to what is in it. */
  lemma InternalOutgoing(y: System, pe: P.Event, o: Origin)
    requires Shape(y) && Enabled(y, Internal(o.stream, pe)) && !pe.Read? && Shape(Apply(y, Internal(o.stream, pe)))
    ensures var y' := Apply(y, Internal(o.stream, pe));
      && FromProxy(y', o) == FromProxy(y, o) && Log(y', o) == Log(y, o)
      && (var a, b := Of(Outgoing(y, o), o), Of(Outgoing(y', o), o);
          b == a || (a != [] && b == a[..|a| - 1]))
  {
    hide Apply, Shape, Enabled, P.Apply, P.Shape, P.Enabled, Carries, S.Apply, S.Shape, S.Enabled;
    hide Of, OutSide, Chunks;
    var e := Internal(o.stream, pe);
    InternalEffect(y, e);
    InsideStep(y, e);
    var y', s := Apply(y, e), y.procs[o.stream];
    ProcessStep(y, y', o.stream, P.Apply(s, pe), o, 0, 0);
    if pe.Enqueue? {
      OutSideQueues(s, pe.k, o.socket);
    } else if pe.Drop? || pe.Abandon? {
      OutSideDrops(s, pe, o.socket);
      OfInit(Outgoing(y, o), Outgoing(y', o), o);
    } else if pe.Take? {
      OutSideTakes(s, o.socket);
    } else {
      OutSideKept(s, pe, o.socket);
    }
  }

  lemma ReadIsLogged(y: System, pe: P.Event, o: Origin)
    requires Shape(y) && pe.Read? && Enabled(y, Internal(o.stream, pe))
    requires Shape(Apply(y, Internal(o.stream, pe)))
    ensures pe.k < |y.procs[o.stream].workers| == |y.procs[o.stream].lines|
    ensures var y', c := Apply(y, Internal(o.stream, pe)), P.Chunk(y.procs[o.stream], pe.k, pe.bytes);
      && FromProxy(y', o) == FromProxy(y, o)
      && (if pe.k == o.socket then
            && Of(Outgoing(y', o), o) == Of(Outgoing(y, o), o) + [c]
            && Log(y', o) == Log(y, o) + [c] && Numbered(Log(y', o), o)
          else Of(Outgoing(y', o), o) == Of(Outgoing(y, o), o) && Log(y', o) == Log(y, o))
  {
    var y' := Apply(y, Internal(o.stream, pe));
    var s, s' := y.procs[o.stream], y'.procs[o.stream];
    assert s'.role == s.role && s'.stream == o.stream;
    OutSideReads(s, pe.k, pe.bytes, o.socket);
    if pe.k == o.socket {
      OfSnoc(Outgoing(y, o), P.Chunk(s, pe.k, pe.bytes), o);
      assert LineFits(s', o.socket);
      hide P.Apply, P.Enabled, OutSide, Of, Numbered;
    }
  }

  lemma OrderedWithNext(front: seq<Packet>, out: seq<Packet>, c: Packet, log: seq<Packet>, o: Origin, exact: bool)
    requires Ordered(front + out, log, exact) && Numbered(log + [c], o)
    ensures Ordered(front + (out + [c]), log + [c], exact)
  {
    assert front + (out + [c]) == (front + out) + [c];
    ReadKeepsOrder(front + out, log, c, o, exact);
  }

  lemma OrderedWithoutLast(front: seq<Packet>, out: seq<Packet>, out': seq<Packet>, log: seq<Packet>, exact: bool)
    requires Ordered(front + out, log, exact) && (out' == out || (out != [] && out' == out[..|out| - 1]))
    ensures Ordered(front + out', log, exact)
  {
    LastLost(front, out, out', []);
    assert front + out + [] == front + out && front + out' + [] == front + out';
    ShrinkKeepsOrder(front + out, front + out', log, exact);
  }

  lemma FrontKept(y: System, y': System, o: Origin, d: Stream, h: nat)
    requires Shape(y) && Shape(y') && Incoming(y', d, h) == Incoming(y, d, h)
    requires y'.server == y.server && y'.up == y.up && y'.down == y.down
    ensures Front(y', o, d, h) == Front(y, o, d, h)
  {
    hide Shape, Incoming, Queued, Relayed, Of;
  }

  /** An internal step of the process of origin, seen by a pipe whose other parts it leaves. */
  lemma InternalFromSource(y: System, pe: P.Event, o: Origin, d: Stream, h: nat)
    requires Shape(y) && Enabled(y, Internal(o.stream, pe)) && InOrder(y, o, d, h)
    requires Shape(Apply(y, Internal(o.stream, pe)))
    requires Incoming(Apply(y, Internal(o.stream, pe)), d, h) == Incoming(y, d, h)
    ensures InOrder(Apply(y, Internal(o.stream, pe)), o, d, h)
  {
    hide P.Apply, P.Enabled, P.Shape, Carries, S.Shape, Ordered, Of, Incoming, Outgoing, Queued, Relayed, Front, Log;
    var y' := Apply(y, Internal(o.stream, pe));
    FrontKept(y, y', o, d, h);
    if pe.Read? { ReadIsLogged(y, pe, o); } else { InternalOutgoing(y, pe, o); }
    hide Apply, Shape, Enabled, Outgoing, Incoming, Front, Of, Log, FromProxy, Numbered, Ordered, P.Chunk;
    var front, out := Front(y, o, d, h), Of(Outgoing(y, o), o);
    if !pe.Read? {
      OrderedWithoutLast(front, out, Of(Outgoing(y', o), o), Log(y, o), FromProxy(y, o));
    } else if pe.k == o.socket {
      OrderedWithNext(front, out, P.Chunk(y.procs[o.stream], pe.k, pe.bytes), Log(y, o), o, FromProxy(y, o));
    }
  }

  /** A step of a process on its delivering side. */
  predicate Delivers(pe: P.Event) {
    pe.TouchIn? || pe.Write? || pe.WriteFails? || pe.RemoveBroken?
  }

  lemma InternalAtDestination(y: System, pe: P.Event, o: Origin, d: Stream, h: nat)
    requires Shape(y) && Enabled(y, Internal(d, pe)) && Delivers(pe)
    requires Shape(Apply(y, Internal(d, pe)))
    ensures var y' := Apply(y, Internal(d, pe));
      && FromProxy(y', o) == FromProxy(y, o) && Log(y', o) == Log(y, o) && Rear(y', o, d) == Rear(y, o, d)
      && (var a, b := Incoming(y, d, h), Incoming(y', d, h);
          b == a || (a != [] && b == a[..|a| - 1]))
  {
    hide Apply, Shape, Enabled, P.Apply, P.Shape, P.Enabled, Carries, S.Apply, S.Shape, S.Enabled;
    hide Of, OutSide, InSide, Chunks, Queued, Relayed;
    var e := Internal(d, pe);
    InternalEffect(y, e);
    InsideStep(y, e);
    ProcessStep(y, Apply(y, e), d, P.Apply(y.procs[d], pe), o, d, h);
    OutSideKept(y.procs[d], pe, o.socket);
    InSideDelivers(y.procs[d], pe, h);
  }

  lemma InternalElsewhere(y: System, st: Stream, pe: P.Event, o: Origin, d: Stream, h: nat)
    requires Shape(y) && Enabled(y, Internal(st, pe)) && !Delivers(pe)
    requires Shape(Apply(y, Internal(st, pe)))
    ensures var y' := Apply(y, Internal(st, pe));
      && Incoming(y', d, h) == Incoming(y, d, h)
      && (st != o.stream ==>
            Outgoing(y', o) == Outgoing(y, o) && FromProxy(y', o) == FromProxy(y, o) && Log(y', o) == Log(y, o))
  {
    hide Apply, Shape, Enabled, P.Apply, P.Shape, P.Enabled, Carries, S.Apply, S.Shape, S.Enabled;
    hide OutSide, InSide, Chunks;
    var e := Internal(st, pe);
    InternalEffect(y, e);
    InsideStep(y, e);
    ProcessStep(y, Apply(y, e), st, P.Apply(y.procs[st], pe), o, d, h);
    if st == d {
      InSideKept(y.procs[d], pe, h);
    }
  }

  lemma OrderedWithoutHead(a: seq<Packet>, a': seq<Packet>, rear: seq<Packet>, log: seq<Packet>, exact: bool)
    requires Ordered(a + rear, log, exact) && (a' == a || (a != [] && a' == a[..|a| - 1]))
    ensures Ordered(a' + rear, log, exact)
  {
    LastLost([], a, a', rear);
    assert [] + a + rear == a + rear && [] + a' + rear == a' + rear;
    ShrinkKeepsOrder(a + rear, a' + rear, log, exact);
  }

  lemma DeliveryKeepsOrder(y: System, pe: P.Event, o: Origin, d: Stream, h: nat)
    requires Shape(y) && Enabled(y, Internal(d, pe)) && Delivers(pe) && InOrder(y, o, d, h)
    requires Shape(Apply(y, Internal(d, pe)))
    ensures InOrder(Apply(y, Internal(d, pe)), o, d, h)
  {
    var y' := Apply(y, Internal(d, pe));
    InternalAtDestination(y, pe, o, d, h);
    PipeEndsInRear(y, o, d, h);
    PipeEndsInRear(y', o, d, h);
    hide Apply, Shape, Enabled, Incoming, Rear, Pipe, Of, Log, FromProxy, Ordered;
    OfInit(Incoming(y, d, h), Incoming(y', d, h), o);
    OrderedWithoutHead(Of(Incoming(y, d, h), o), Of(Incoming(y', d, h), o), Rear(y, o, d), Log(y, o), FromProxy(y, o));
  }

  lemma InternalKeepsOrder(y: System, st: Stream, pe: P.Event, o: Origin, d: Stream, h: nat)
    requires Shape(y) && Enabled(y, Internal(st, pe)) && InOrder(y, o, d, h)
    requires Shape(Apply(y, Internal(st, pe)))
    ensures InOrder(Apply(y, Internal(st, pe)), o, d, h)
  {
    hide P.Apply, P.Shape, P.Enabled, Carries, S.Shape, Ordered, OutSide, InSide, Chunks, Of;
    if Delivers(pe) {
      if st == d { DeliveryKeepsOrder(y, pe, o, d, h); } else { DeliveredElsewhere(y, st, pe, o, d, h); }
    } else {
      InternalElsewhere(y, st, pe, o, d, h);
      if st == o.stream { InternalFromSource(y, pe, o, d, h); }
    }
  }

  lemma DeliveredElsewhere(y: System, st: Stream, pe: P.Event, o: Origin, d: Stream, h: nat)
    requires Shape(y) && Enabled(y, Internal(st, pe)) && Delivers(pe) && st != d
    requires Shape(Apply(y, Internal(st, pe)))
    ensures var y' := Apply(y, Internal(st, pe));
      && Pipe(y', o, d, h) == Pipe(y, o, d, h)
      && Log(y', o) == Log(y, o) && FromProxy(y', o) == FromProxy(y, o)
  {
    hide Apply, Shape, Enabled, P.Apply, P.Shape, P.Enabled, Carries, S.Apply, S.Shape, S.Enabled;
    hide Of, OutSide, InSide, Chunks, Queued, Relayed;
    var e := Internal(st, pe);
    InternalEffect(y, e);
    InsideStep(y, e);
    ProcessStep(y, Apply(y, e), st, P.Apply(y.procs[st], pe), o, d, h);
    OutSideKept(y.procs[st], pe, o.socket);
  }

  /** A packet leaves the head of one part of the pipe and joins the end of the part before it,
      perhaps copied out of the buffer again, or it is lost. */
  predicate Advances(
    a: seq<Packet>, b: seq<Packet>, a': seq<Packet>, b': seq<Packet>, log: seq<Packet>, exact: bool)
  {
    || (a' == a && b' == b)
    || (b != [] && b' == b[1..] && (a' == a || Joined(a, b[0], a', log, exact)))
  }

  predicate Joined(a: seq<Packet>, p: Packet, a': seq<Packet>, log: seq<Packet>, exact: bool) {
    && |a'| == |a| + 1 && a'[..|a|] == a
    && a'[|a|].serial == p.serial
    && (a'[|a|] == p || Faithful(a'[|a|], log, exact))
  }

  lemma AdvanceKeepsOrder(
      left: seq<Packet>, a: seq<Packet>, b: seq<Packet>, a': seq<Packet>, b': seq<Packet>, right: seq<Packet>,
      log: seq<Packet>, exact: bool)
    requires Ordered(left + a + b + right, log, exact) && Advances(a, b, a', b', log, exact)
    ensures Ordered(left + a' + b' + right, log, exact)
  {
    hide Faithful;
    if a' != a || b' != b {
      var xs, p := left + a + b + right, b[0];
      assert xs == (left + a) + [p] + (b' + right);
      assert xs[|left + a|] == p;
      if a' == a {
        DroppedMiddle(left + a, p, b' + right);
        assert left + a' + b' + right == (left + a) + (b' + right);
        ShrinkKeepsOrder(xs, left + a' + b' + right, log, exact);
      } else {
        ReplaceKeepsOrder(left + a, p, a'[|a|], b' + right, log, exact);
        assert a' == a + [a'[|a|]];
        assert left + a' + b' + right == (left + a) + [a'[|a|]] + (b' + right);
      }
    }
  }

  lemma NothingAdvances(a: seq<Packet>, b: seq<Packet>, log: seq<Packet>, exact: bool)
    ensures Advances(a, b, a, b, log, exact)
  {
  }

  /** The same, seen through the filter of one origin. */
  lemma HeadMoves(
      a: seq<Packet>, b: seq<Packet>, a': seq<Packet>, o: Origin, log: seq<Packet>, exact: bool)
    requires b != [] && (a' == a || a' == a + [b[0]])
    ensures Advances(Of(a, o), Of(b, o), Of(a', o), Of(b[1..], o), log, exact)
  {
    assert b == [b[0]] + b[1..];
    OfCons(b[0], b[1..], o);
    OfSnoc(a, b[0], o);
    hide Of, Faithful;
  }

  /** The five stretches of a packet's way: in the process of destination, down its stream, in
      the server, up the stream of origin, in the process of origin. */
  function Stretch(y: System, o: Origin, d: Stream, h: nat, k: nat): seq<Packet>
    requires Shape(y) && k < 5
  {
    match k
    case 0 => Incoming(y, d, h)
    case 1 => Queued(y.down, d)
    case 2 => Relayed(y.server, o.stream, d)
    case 3 => Queued(y.up, o.stream)
    case 4 => Outgoing(y, o)
  }

  /** What is of origin `o` there: one of the five parts of the pipe. */
  function Part(y: System, o: Origin, d: Stream, h: nat, k: nat): seq<Packet>
    requires Shape(y) && k < 5
  {
    Of(Stretch(y, o, d, h, k), o)
  }

  /** Where one part meets the next, all that happens is that a packet advances. */
  ghost predicate AdvancesAt(y: System, y': System, o: Origin, d: Stream, h: nat, k: nat)
    requires Shape(y) && Shape(y') && k < 4
  {
    && Log(y', o) == Log(y, o) && FromProxy(y', o) == FromProxy(y, o)
    && (forall j: nat :: j < 5 && j != k && j != k + 1 ==> Part(y', o, d, h, j) == Part(y, o, d, h, j))
    && Advances(Part(y, o, d, h, k), Part(y, o, d, h, k + 1), Part(y', o, d, h, k), Part(y', o, d, h, k + 1),
                Log(y, o), FromProxy(y, o))
  }

  lemma PartsMakePipe(y: System, o: Origin, d: Stream, h: nat)
    requires Shape(y)
    ensures var a, b, c, u, v := Part(y, o, d, h, 0), Part(y, o, d, h, 1), Part(y, o, d, h, 2), Part(y, o, d, h, 3),
      Part(y, o, d, h, 4);
      && Pipe(y, o, d, h) == [] + a + b + (c + u + v)
      && Pipe(y, o, d, h) == a + b + c + (u + v)
      && Pipe(y, o, d, h) == (a + b) + c + u + v
      && Pipe(y, o, d, h) == (a + b + c) + u + v + []
  {
    hide Of, Incoming, Outgoing, Queued, Relayed, Shape;
  }

  lemma AdvanceAtKeepsOrder(y: System, y': System, o: Origin, d: Stream, h: nat, k: nat)
    requires Shape(y) && Shape(y') && k < 4 && AdvancesAt(y, y', o, d, h, k) && InOrder(y, o, d, h)
    ensures InOrder(y', o, d, h)
  {
    PartsMakePipe(y, o, d, h);
    PartsMakePipe(y', o, d, h);
    hide Pipe, Part, Shape, Log, FromProxy, Advances, Ordered;
    var a, b, c, u, v := Part(y, o, d, h, 0), Part(y, o, d, h, 1), Part(y, o, d, h, 2), Part(y, o, d, h, 3),
      Part(y, o, d, h, 4);
    var a', b', c', u', v' := Part(y', o, d, h, 0), Part(y', o, d, h, 1), Part(y', o, d, h, 2), Part(y', o, d, h, 3),
      Part(y', o, d, h, 4);
    var log, exact := Log(y, o), FromProxy(y, o);
    match k
    case 0 => AdvanceKeepsOrder([], a, b, a', b', c + u + v, log, exact);
    case 1 => AdvanceKeepsOrder(a, b, c, b', c', u + v, log, exact);
    case 2 => AdvanceKeepsOrder(a + b, c, u, c', u', v, log, exact);
    case 3 => AdvanceKeepsOrder(a + b + c, u, v, u', v', [], log, exact);
  }

  /** A step that concerns two adjacent stretches only. */
  ghost predicate OnlyAt(y: System, y': System, o: Origin, d: Stream, h: nat, k: nat)
    requires Shape(y) && Shape(y') && k < 4
  {
    && Log(y', o) == Log(y, o) && FromProxy(y', o) == FromProxy(y, o)
    && (k != 0 ==> Incoming(y', d, h) == Incoming(y, d, h))
    && (k != 0 && k != 1 ==> Queued(y'.down, d) == Queued(y.down, d))
    && (k != 1 && k != 2 ==> Relayed(y'.server, o.stream, d) == Relayed(y.server, o.stream, d))
    && (k != 2 && k != 3 ==> Queued(y'.up, o.stream) == Queued(y.up, o.stream))
    && (k != 3 ==> Outgoing(y', o) == Outgoing(y, o))
  }

  lemma AtJoint(y: System, y': System, o: Origin, d: Stream, h: nat, k: nat)
    requires Shape(y) && Shape(y') && k < 4 && OnlyAt(y, y', o, d, h, k)
    requires Advances(Part(y, o, d, h, k), Part(y, o, d, h, k + 1), Part(y', o, d, h, k), Part(y', o, d, h, k + 1),
                      Log(y, o), FromProxy(y, o))
    ensures AdvancesAt(y, y', o, d, h, k)
  {
    hide Shape, Log, FromProxy, Incoming, Queued, Relayed, Outgoing, Advances, Of;
  }

  predicate HeadMoved(a: seq<Packet>, b: seq<Packet>, a': seq<Packet>, b': seq<Packet>) {
    || (a' == a && b' == b)
    || (b != [] && b' == b[1..] && (a' == a || a' == a + [b[0]]))
  }

  /** The head of one stretch moves to the end of the next, or is lost. */
  lemma HeadMovedAt(y: System, y': System, o: Origin, d: Stream, h: nat, k: nat)
    requires Shape(y) && Shape(y') && k < 4 && OnlyAt(y, y', o, d, h, k)
    requires HeadMoved(Stretch(y, o, d, h, k), Stretch(y, o, d, h, k + 1),
                       Stretch(y', o, d, h, k), Stretch(y', o, d, h, k + 1))
    ensures AdvancesAt(y, y', o, d, h, k)
  {
    var a, b := Stretch(y, o, d, h, k), Stretch(y, o, d, h, k + 1);
    var a', b' := Stretch(y', o, d, h, k), Stretch(y', o, d, h, k + 1);
    assert HeadMoved(a, b, a', b');
    assert Advances(Of(a, o), Of(b, o), Of(a', o), Of(b', o), Log(y, o), FromProxy(y, o)) by {
      hide *;
      if a' == a && b' == b {
        NothingAdvances(Of(a, o), Of(b, o), Log(y, o), FromProxy(y, o));
      } else {
        HeadMoves(a, b, a', o, Log(y, o), FromProxy(y, o));
      }
    }
    hide Shape, Log, FromProxy, Stretch, OnlyAt, Advances, AdvancesAt, Of, HeadMoved;
    AtJoint(y, y', o, d, h, k);
  }

  /** A packet lost after it came up a stream, or down one. */
  lemma LossAdvances(y: System, e: Event, o: Origin, d: Stream, h: nat)
    requires Shape(y) && Enabled(y, e) && (e.LoseUp? || e.LoseDown?) && Shape(Apply(y, e))
    ensures AdvancesAt(y, Apply(y, e), o, d, h, if e.LoseUp? then 2 else 0)
  {
    hide Apply, Shape, Enabled, P.Apply, P.Shape, P.Enabled, Carries, S.Apply, S.Shape, S.Enabled;
    hide AdvancesAt, Queued, Relayed, Incoming, Outgoing, Log, FromProxy, Pop;
    LossEffect(y, e);
    SameProcs(y, Apply(y, e), o, d, h);
    if e.LoseUp? {
      PopPart(y.up, e.st, o.stream);
      HeadMovedAt(y, Apply(y, e), o, d, h, 2);
    } else {
      PopPart(y.down, e.st, d);
      HeadMovedAt(y, Apply(y, e), o, d, h, 0);
    }
  }

  /** A packet received from the stream, by the goroutine that delivers. */
  lemma ArrivalMoves(y: System, e: Event, o: Origin, d: Stream, h: nat)
    requires Shape(y) && Enabled(y, e) && e.Arrive? && Shape(Apply(y, e))
    ensures var y' := Apply(y, e);
      && OnlyAt(y, y', o, d, h, 0)
      && HeadMoved(Incoming(y, d, h), Queued(y.down, d), Incoming(y', d, h), Queued(y'.down, d))
  {
    hide Apply, Shape, Enabled, P.Apply, P.Shape, P.Enabled, Carries, S.Apply, S.Shape, S.Enabled;
    hide InSide, OutSide, Chunks, Queued, Relayed, Incoming, Outgoing, Log, FromProxy, Pop;
    ArriveEffect(y, e);
    InsideStep(y, e);
    QueuedHead(y.down, e.st);
    var s, p := y.procs[e.st], y.down[e.st][0];
    OutSideKept(s, P.Receive(p, e.dials), o.socket);
    InSideReceives(s, p, e.dials, h);
    PopPart(y.down, e.st, d);
    ProcessStep(y, Apply(y, e), e.st, P.Apply(s, P.Receive(p, e.dials)), o, d, h);
  }

  lemma ArrivalAdvances(y: System, e: Event, o: Origin, d: Stream, h: nat)
    requires Shape(y) && Enabled(y, e) && e.Arrive? && Shape(Apply(y, e))
    ensures AdvancesAt(y, Apply(y, e), o, d, h, 0)
  {
    ArrivalMoves(y, e, o, d, h);
    hide Apply, Shape, Enabled, OnlyAt, AdvancesAt, HeadMoved, Incoming, Queued;
    HeadMovedAt(y, Apply(y, e), o, d, h, 0);
  }

  // ---- emission

  /** What an emission does to the way of a packet. */
  lemma EmissionMoves(y: System, e: Event, o: Origin, d: Stream, h: nat)
    requires Shape(y) && Enabled(y, e) && e.Emit? && Shape(Apply(y, e))
    ensures e.st in y.procs && y.procs[e.st].outHand.Some?
    ensures var y', p, q := Apply(y, e), y.procs[e.st].outHand.value, P.Image(y.procs[e.st]);
      && OnlyAt(y, y', o, d, h, 3)
      && (if e.st == o.stream then
            && Outgoing(y, o) == [p] + Outgoing(y', o)
            && Queued(y'.up, o.stream) == Queued(y.up, o.stream) + (if e.lost then [] else [q])
          else Queued(y'.up, o.stream) == Queued(y.up, o.stream) && Outgoing(y', o) == Outgoing(y, o))
  {
    hide Apply, Shape, Enabled, P.Apply, P.Shape, P.Enabled, Carries, S.Apply, S.Shape, S.Enabled;
    hide InSide, OutSide, Chunks, Queued, Relayed, Incoming, Outgoing, Log, FromProxy, Push, P.Image;
    EmitEffect(y, e);
    InsideStep(y, e);
    var s := y.procs[e.st];
    OutSideEmits(s, o.socket);
    InSideKept(s, P.Emit, h);
    PushPart(y.up, e.st, P.Image(s), o.stream);
    ProcessStep(y, Apply(y, e), e.st, P.Apply(s, P.Emit), o, d, h);
    assert Queued(y.up, o.stream) + [] == Queued(y.up, o.stream);
  }

  /** The packet emitted is the one in hand, with the bytes its buffer holds now. */
  lemma ImageInPipe(y: System, o: Origin, d: Stream, h: nat)
    requires Shape(y) && o.stream in y.procs && y.procs[o.stream].outHand.Some? && InOrder(y, o, d, h)
    ensures var s := y.procs[o.stream]; P.Image(s).origin == s.outHand.value.origin
    ensures var s := y.procs[o.stream];
      s.outHand.value.origin == o ==>
        P.Image(s).serial == s.outHand.value.serial && Faithful(P.Image(s), Log(y, o), FromProxy(y, o))
  {
    if y.procs[o.stream].outHand.value.origin == o {
      InHandInPipe(y, o, d, h);
      hide P.Shape, S.Shape, Faithful, InOrder, P.Image;
      ImageIsFaithful(y.procs[o.stream], o);
    }
  }

  lemma InHandInPipe(y: System, o: Origin, d: Stream, h: nat)
    requires Shape(y) && o.stream in y.procs && y.procs[o.stream].outHand.Some? && InOrder(y, o, d, h)
    requires y.procs[o.stream].outHand.value.origin == o
    ensures Faithful(y.procs[o.stream].outHand.value, Log(y, o), FromProxy(y, o))
  {
    hide P.Shape, Carries, S.Shape, Faithful;
    var s := y.procs[o.stream];
    var p := s.outHand.value;
    var rest := s.queue + (if o.socket < |s.lines| then Opt(s.lines[o.socket].pending) else []);
    assert Outgoing(y, o) == [p] + rest;
    OfCons(p, rest, o);
    assert Pipe(y, o, d, h)[|Front(y, o, d, h)|] == p;
  }

  /** A packet emitted, or lost in the attempt. */
  lemma EmissionAdvances(y: System, e: Event, o: Origin, d: Stream, h: nat)
    requires Shape(y) && Enabled(y, e) && e.Emit? && Shape(Apply(y, e)) && InOrder(y, o, d, h)
    ensures AdvancesAt(y, Apply(y, e), o, d, h, 3)
  {
    assert e.st in y.procs;
    EmissionMoves(y, e, o, d, h);
    if e.st == o.stream { ImageInPipe(y, o, d, h); }
    hide P.Image, Apply, Enabled, Shape, OnlyAt, AdvancesAt, InOrder, Log, FromProxy, Queued, Outgoing;
    if e.st == o.stream {
      EmittedAt(y, Apply(y, e), y.procs[e.st].outHand.value, P.Image(y.procs[e.st]), e.lost, o, d, h);
    } else {
      HeadMovedAt(y, Apply(y, e), o, d, h, 3);
    }
  }

  lemma EmittedAt(y: System, y': System, p: Packet, q: Packet, lost: bool, o: Origin, d: Stream, h: nat)
    requires Shape(y) && Shape(y') && OnlyAt(y, y', o, d, h, 3)
    requires Outgoing(y, o) == [p] + Outgoing(y', o) && q.origin == p.origin
    requires Queued(y'.up, o.stream) == Queued(y.up, o.stream) + (if lost then [] else [q])
    requires p.origin == o ==> q.serial == p.serial && Faithful(q, Log(y, o), FromProxy(y, o))
    ensures AdvancesAt(y, y', o, d, h, 3)
  {
    hide Shape, Log, FromProxy, OnlyAt, Advances, AdvancesAt, Of, Queued, Outgoing, Faithful;
    ImageAdvances(Queued(y.up, o.stream), Outgoing(y, o), p, q, Outgoing(y', o), lost, o, Log(y, o), FromProxy(y, o));
    AtJoint(y, y', o, d, h, 3);
  }

  lemma ImageAdvances(
      up: seq<Packet>, out: seq<Packet>, p: Packet, q: Packet, out': seq<Packet>, lost: bool,
      o: Origin, log: seq<Packet>, exact: bool)
    requires out == [p] + out' && q.origin == p.origin
    requires p.origin == o ==> q.serial == p.serial && Faithful(q, log, exact)
    ensures Advances(Of(up, o), Of(out, o), Of(up + (if lost then [] else [q]), o), Of(out', o), log, exact)
  {
    hide Of, Faithful;
    OfCons(p, out', o);
    OfSnoc(up, q, o);
    assert up + [] == up;
    assert ([p] + Of(out', o))[1..] == Of(out', o);
  }

  // ---- the server

  /** A packet taken from the stream by its session, to be relayed or not. */
  lemma TakeAdvances(y: System, e: Event, o: Origin, d: Stream, h: nat)
    requires Shape(y) && Enabled(y, e) && e.Take? && Shape(Apply(y, e))
    ensures AdvancesAt(y, Apply(y, e), o, d, h, 2)
  {
    hide Apply, Shape, Enabled, P.Apply, P.Shape, P.Enabled, Carries, S.Apply, S.Shape, S.Enabled;
    hide AdvancesAt, Queued, Relayed, Incoming, Outgoing, Log, FromProxy, Pop;
    TakeEffect(y, e);
    SameProcs(y, Apply(y, e), o, d, h);
    QueuedHead(y.up, e.st);
    ReceiveTakesCall(y.server, e.st, y.up[e.st][0], e.choice);
    PopPart(y.up, e.st, o.stream);
    ReceivesRelayed(y.server, e.st, y.up[e.st][0], e.choice, d);
    HeadMovedAt(y, Apply(y, e), o, d, h, 2);
  }

  /** Without a receive, a session goes on relaying its packet or puts it down. */
  lemma RelayAdvances(y: System, e: Event, o: Origin, d: Stream, h: nat)
    requires Shape(y) && Enabled(y, e) && e.Relay? && Shape(Apply(y, e))
    ensures AdvancesAt(y, Apply(y, e), o, d, h, 1)
  {
    hide Apply, Shape, Enabled, P.Apply, P.Shape, P.Enabled, Carries, S.Apply, S.Shape, S.Enabled;
    hide AdvancesAt, Queued, Incoming, Outgoing, Log, FromProxy;
    RelayEffect(y, e);
    SameProcs(y, Apply(y, e), o, d, h);
    RelayKeepsCalls(y.server, e.se);
    HeadMovedAt(y, Apply(y, e), o, d, h, 1);
  }

  /** A packet sent down the stream found at lookup, or lost in the attempt. A packet of another
      stream leaves the pipe alone. */
  lemma DeliverAdvances(y: System, e: Event, o: Origin, d: Stream, h: nat)
    requires Shape(y) && Sourced(y) && Enabled(y, e) && e.Deliver? && Shape(Apply(y, e))
    ensures AdvancesAt(y, Apply(y, e), o, d, h, 1)
  {
    if e.st == o.stream { OwnDeliverAdvances(y, e, o, d, h); } else { ForeignDeliverAdvances(y, e, o, d, h); }
  }

  lemma OwnDeliverAdvances(y: System, e: Event, o: Origin, d: Stream, h: nat)
    requires Shape(y) && Enabled(y, e) && e.Deliver? && Shape(Apply(y, e)) && e.st == o.stream
    ensures AdvancesAt(y, Apply(y, e), o, d, h, 1)
  {
    hide Apply, Shape, Enabled, P.Apply, P.Shape, P.Enabled, Carries, S.Apply, S.Shape, S.Enabled;
    hide AdvancesAt, Queued, Incoming, Outgoing, Log, FromProxy, Push;
    DeliverEffect(y, e);
    var call := y.server.sessions[e.st].phase.call;
    SameProcs(y, Apply(y, e), o, d, h);
    PushPart(y.down, call.dest, call.pkt, d);
    SentPutsDown(y.server, e.st, d);
    HeadMovedAt(y, Apply(y, e), o, d, h, 1);
  }

  lemma ForeignDeliverMoves(y: System, e: Event, o: Origin, d: Stream, h: nat)
    requires Shape(y) && Sourced(y) && Enabled(y, e) && e.Deliver? && Shape(Apply(y, e)) && e.st != o.stream
    ensures var y' := Apply(y, e);
      && OnlyAt(y, y', o, d, h, 1) && Relayed(y'.server, o.stream, d) == Relayed(y.server, o.stream, d)
      && Of(Queued(y'.down, d), o) == Of(Queued(y.down, d), o)
  {
    hide S.Shape, S.Apply, S.Enabled, P.Shape, Carries, Of, OutSide, InSide, Chunks, Queued, Push, Apply, Enabled;
    DeliverEffect(y, e);
    var call := y.server.sessions[e.st].phase.call;
    assert call.pkt.origin != o && S.Shape(y.server);
    hide Shape, Sourced;
    S.StepFrame(y.server, S.Sent(e.st));
    PushPart(y.down, call.dest, call.pkt, d);
    OfSnoc(Queued(y.down, d), call.pkt, o);
  }

  lemma ForeignDeliverAdvances(y: System, e: Event, o: Origin, d: Stream, h: nat)
    requires Shape(y) && Sourced(y) && Enabled(y, e) && e.Deliver? && Shape(Apply(y, e)) && e.st != o.stream
    ensures AdvancesAt(y, Apply(y, e), o, d, h, 1)
  {
    ForeignDeliverMoves(y, e, o, d, h);
    hide Apply, Enabled, Shape, Sourced, OnlyAt, AdvancesAt, Log, FromProxy, Queued, Outgoing, Incoming, Relayed, Of;
    AtJoint(y, Apply(y, e), o, d, h, 1);
  }

  // ---------------------------------------------------------------- over whole runs

  lemma StepKeepsOrder(y: System, e: Event, o: Origin, d: Stream, h: nat)
    requires Shape(y) && Sourced(y) && Enabled(y, e) && Shape(Apply(y, e)) && InOrder(y, o, d, h)
    ensures InOrder(Apply(y, e), o, d, h)
  {
    var y' := Apply(y, e);
    hide Apply, Shape, Sourced, Enabled, InOrder, AdvancesAt;
    match e
    case Start(_, _, _) => StartKeepsOrder(y, e, o, d, h);
    case Internal(st, pe) => InternalKeepsOrder(y, st, pe, o, d, h);
    case Emit(_, _) => EmissionAdvances(y, e, o, d, h); AdvanceAtKeepsOrder(y, y', o, d, h, 3);
    case Arrive(_, _) => ArrivalAdvances(y, e, o, d, h); AdvanceAtKeepsOrder(y, y', o, d, h, 0);
    case Relay(_) => RelayAdvances(y, e, o, d, h); AdvanceAtKeepsOrder(y, y', o, d, h, 1);
    case Take(_, _) => TakeAdvances(y, e, o, d, h); AdvanceAtKeepsOrder(y, y', o, d, h, 2);
    case Deliver(_, _) => DeliverAdvances(y, e, o, d, h); AdvanceAtKeepsOrder(y, y', o, d, h, 1);
    case LoseUp(_) => LossAdvances(y, e, o, d, h); AdvanceAtKeepsOrder(y, y', o, d, h, 2);
    case LoseDown(_) => LossAdvances(y, e, o, d, h); AdvanceAtKeepsOrder(y, y', o, d, h, 0);
  }

  lemma StepKeepsInv(y: System, e: Event)
    requires Inv(y) && Enabled(y, e)
    ensures Inv(Apply(y, e))
  {
    var y' := Apply(y, e);
    StepKeepsShape(y, e);
    StepKeepsSourced(y, e);
    hide Apply, Shape, Sourced, Enabled, InOrder;
    forall o: Origin, d: Stream, h: nat ensures InOrder(y', o, d, h) { StepKeepsOrder(y, e, o, d, h); }
  }

  lemma InitHolds(clock: Time)
    ensures Inv(Init(clock))
  {
  }

  /** The states a run passes through. */
  ghost predicate Run(states: seq<System>, events: seq<Event>) {
    && |states| == |events| + 1
    && states[0] == Init(states[0].server.clock)
    && forall i :: 0 <= i < |events| ==>
      Shape(states[i]) && Enabled(states[i], events[i]) && states[i + 1] == Apply(states[i], events[i])
  }

  /** The step before state `n`. */
  lemma StepOf(states: seq<System>, events: seq<Event>, n: nat)
    requires Run(states, events) && 0 < n < |states|
    ensures |states| == |events| + 1 && Shape(states[n - 1]) && Enabled(states[n - 1], events[n - 1])
    ensures states[n] == Apply(states[n - 1], events[n - 1]) && Shape(states[n])
  {
    hide Shape, Enabled, Apply, Init;
    assert states[n - 1 + 1] == Apply(states[n - 1], events[n - 1]);
    StepKeepsShape(states[n - 1], events[n - 1]);
  }

  lemma {:induction false} RunKeepsInv(states: seq<System>, events: seq<Event>, n: nat)
    requires Run(states, events) && n < |states|
    ensures Inv(states[n])
  {
    hide Inv, Shape, Enabled, Apply, Init;
    if n == 0 {
      InitHolds(states[0].server.clock);
    } else {
      RunKeepsInv(states, events, n - 1);
      assert states[n - 1 + 1] == Apply(states[n - 1], events[n - 1]);
      StepKeepsInv(states[n - 1], events[n - 1]);
    }
  }
}
