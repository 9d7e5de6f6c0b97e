/** Which way packets go: in every state of every run of the whole system, what a client writes
    was read by a proxy, and what a proxy writes was read by a client. */
module Direction {
  import opened Wire
  import opened Carriage
  import opened EndToEnd
  import opened Delivery
  import P = Process
  import S = Server
  import O = Ownership

  predicate Opposite(y: System, a: Stream, b: Stream) {
    a in y.procs && b in y.procs && y.procs[a].role != y.procs[b].role
  }

  /** The server knows each stream by the role of the process at its other end, and relays only
      between opposite roles. */
  ghost predicate Directed(y: System) {
    && O.Owned(y.server)
    && (forall st :: st in y.server.sessions ==> st in y.procs && y.procs[st].role == y.server.sessions[st].role)
    && (forall st :: st in y.server.sessions && y.server.sessions[st].Calling() ==>
          Opposite(y, st, y.server.sessions[st].phase.call.dest))
  }

  ghost predicate Carried(y: System)
    requires Shape(y)
  {
    && (forall d: Stream, p :: p in Queued(y.down, d) ==> Opposite(y, p.origin.stream, d))
    && (forall d: Stream, h: nat, p :: p in Incoming(y, d, h) ==> Opposite(y, p.origin.stream, d))
  }

  lemma RolesStay(y: System, e: Event)
    requires Shape(y) && Enabled(y, e)
    ensures forall st :: st in y.procs ==> st in Apply(y, e).procs && Apply(y, e).procs[st].role == y.procs[st].role
  {
    hide P.Shape, P.Enabled, Carries, S.Shape, S.Enabled, S.Apply;
  }

  lemma OppositeStays(y: System, e: Event, a: Stream, b: Stream)
    requires Shape(y) && Enabled(y, e) && Opposite(y, a, b)
    ensures Opposite(Apply(y, e), a, b)
  {
    hide Apply, Shape, Enabled;
    RolesStay(y, e);
  }

  // ---------------------------------------------------------------- the server

  /** A lookup that succeeds ends at a stream registered in the opposite role. */
  lemma LookupFindsOpposite(s: S.State, st: Stream, pkt: Packet, choice: Option<Id>)
    requires S.Shape(s) && O.Owned(s) && S.Enabled(s, S.Receive(st, pkt, choice))
    ensures var s' := S.Apply(s, S.Receive(st, pkt, choice));
      st in s'.sessions && (s'.sessions[st].Calling() ==>
        var dest := s'.sessions[st].phase.call.dest;
        dest in s.sessions && s.sessions[dest].role != s.sessions[st].role)
  {
    var s' := S.Apply(s, S.Receive(st, pkt, choice));
    if s'.sessions[st].Calling() {
      var call := s'.sessions[st].phase.call;
      var role := if s.sessions[st].role.ClientRole? then ProxyRole else ClientRole;
      var route := s'.tables.routes[call.route];
      var id := if role.ProxyRole? then route.proxyId else route.clientId;
      assert S.Holder(s.tables, role, id) == Some(call.dest);
      assert O.Pending(s, call.dest, role, id);
    }
  }

  lemma ServerStepKeepsDirected(y: System, y': System, se: S.Event)
    requires Shape(y) && Directed(y) && S.Enabled(y.server, se) && y'.server == S.Apply(y.server, se)
    requires y'.procs == y.procs
    requires se.Open? ==> se.st in y.procs && y.procs[se.st].role == se.role
    ensures Directed(y')
  {
    var s, s' := y.server, y'.server;
    hide S.Apply, S.Shape, S.Enabled, O.Owned, P.Shape, Carries, Shape;
    ServerShape(y);
    O.StepKeepsOwned(s, se);
    SessionsHaveProcs(y, y', se);
    forall st | st in s'.sessions && s'.sessions[st].Calling()
      ensures Opposite(y', st, s'.sessions[st].phase.call.dest)
    {
      CallStaysOpposite(y, y', se, st);
    }
  }

  lemma ServerShape(y: System)
    requires Shape(y)
    ensures S.Shape(y.server)
  {
    hide S.Shape, P.Shape, Carries;
  }

  lemma CallStaysOpposite(y: System, y': System, se: S.Event, st: Stream)
    requires Shape(y) && Directed(y) && S.Enabled(y.server, se) && y'.server == S.Apply(y.server, se)
    requires y'.procs == y.procs && st in y'.server.sessions && y'.server.sessions[st].Calling()
    ensures Opposite(y', st, y'.server.sessions[st].phase.call.dest)
  {
    hide S.Apply, S.Shape, S.Enabled, O.Owned, P.Shape, Carries, Shape;
    ServerShape(y);
    if se.Receive? {
      LookupFindsOpposite(y.server, se.st, se.pkt, se.choice);
      ReceiveTakesCall(y.server, se.st, se.pkt, se.choice);
      ReceiverIsKnown(y.server, se);
    } else {
      RelayKeepsCalls(y.server, se);
    }
  }

  lemma ReceiverIsKnown(s: S.State, se: S.Event)
    requires S.Enabled(s, se) && se.Receive?
    ensures se.st in s.sessions
  {
  }

  lemma SessionsHaveProcs(y: System, y': System, se: S.Event)
    requires Shape(y) && Directed(y) && S.Enabled(y.server, se) && y'.server == S.Apply(y.server, se)
    requires y'.procs == y.procs
    requires se.Open? ==> se.st in y.procs && y.procs[se.st].role == se.role
    ensures forall st :: st in y'.server.sessions ==>
      st in y'.procs && y'.procs[st].role == y'.server.sessions[st].role
  {
    hide P.Shape, Carries, O.Owned;
  }

  // ---------------------------------------------------------------- the processes

  /** What is in a process for a socket was there before, or has just come down its stream. */
  lemma IncomingSources(y: System, e: Event, d: Stream, h: nat)
    requires Shape(y) && Enabled(y, e) && Shape(Apply(y, e))
    ensures forall p :: p in Incoming(Apply(y, e), d, h) ==>
      p in Incoming(y, d, h) || (e.Arrive? && e.st == d && Queued(y.down, d) != [] && p == Queued(y.down, d)[0])
  {
    var y' := Apply(y, e);
    hide Apply, Shape, Enabled, Incoming, Outgoing, Queued, Relayed, Log, FromProxy, Pop;
    match e
    case Start(_, _, _) => StartMoves(y, e, Origin(0, 0), d, h);
    case Internal(st, pe) => InternalSources(y, st, pe, d, h);
    case Emit(_, _) => EmissionMoves(y, e, Origin(0, 0), d, h);
    case Arrive(_, _) => ArrivalSources(y, e, d, h);
    case Relay(_) => RelayEffect(y, e); SameProcs(y, y', Origin(0, 0), d, h);
    case Take(_, _) => TakeEffect(y, e); SameProcs(y, y', Origin(0, 0), d, h);
    case Deliver(_, _) => DeliverEffect(y, e); SameProcs(y, y', Origin(0, 0), d, h);
    case LoseUp(_) => LossEffect(y, e); SameProcs(y, y', Origin(0, 0), d, h);
    case LoseDown(_) => LossEffect(y, e); SameProcs(y, y', Origin(0, 0), d, h);
  }

  lemma ArrivalSources(y: System, e: Event, d: Stream, h: nat)
    requires Shape(y) && Enabled(y, e) && Shape(Apply(y, e)) && e.Arrive?
    ensures forall p :: p in Incoming(Apply(y, e), d, h) ==>
      p in Incoming(y, d, h) || (e.st == d && Queued(y.down, d) != [] && p == Queued(y.down, d)[0])
  {
    hide Apply, Shape, Enabled, Incoming, Outgoing, Queued, Relayed, Log, FromProxy, Pop;
    ArrivalMoves(y, e, Origin(0, 0), d, h);
    ArriveEffect(y, e);
    PopPart(y.down, e.st, d);
  }

  lemma InternalSources(y: System, st: Stream, pe: P.Event, d: Stream, h: nat)
    requires Shape(y) && Enabled(y, Internal(st, pe)) && Shape(Apply(y, Internal(st, pe)))
    ensures forall p :: p in Incoming(Apply(y, Internal(st, pe)), d, h) ==> p in Incoming(y, d, h)
  {
    hide Apply, Shape, Enabled, Incoming, Outgoing, Queued, Relayed, Log, FromProxy, Rear;
    if !Delivers(pe) {
      InternalElsewhere(y, st, pe, Origin(0, 0), d, h);
    } else if st == d {
      InternalAtDestination(y, pe, Origin(0, 0), d, h);
    } else {
      InternalOther(y, st, pe, d, h);
    }
  }

  lemma InternalOther(y: System, st: Stream, pe: P.Event, d: Stream, h: nat)
    requires Shape(y) && Enabled(y, Internal(st, pe)) && Shape(Apply(y, Internal(st, pe))) && st != d
    ensures Incoming(Apply(y, Internal(st, pe)), d, h) == Incoming(y, d, h)
  {
    hide Apply, Shape, Enabled, P.Apply, P.Shape, P.Enabled, Carries, InSide;
    InternalEffect(y, Internal(st, pe));
    InsideStep(y, Internal(st, pe));
    ProcessStep(y, Apply(y, Internal(st, pe)), st, P.Apply(y.procs[st], pe), Origin(0, 0), d, h);
  }

  lemma DownSources(y: System, e: Event, d: Stream)
    requires Shape(y) && Enabled(y, e)
    ensures forall p :: p in Queued(Apply(y, e).down, d) ==>
      || p in Queued(y.down, d)
      || (e.Deliver? && !e.lost && d == y.server.sessions[e.st].phase.call.dest
          && p == y.server.sessions[e.st].phase.call.pkt)
  {
    if e.Deliver? { DeliverEffect(y, e); }
    hide Apply, Shape, Enabled, Queued, Push, Pop;
    match e
    case Start(_, _, _) => StartEffect(y, e);
    case Internal(_, _) => InternalEffect(y, e);
    case Emit(_, _) => EmitEffect(y, e);
    case Arrive(st, _) => ArriveEffect(y, e); PopPart(y.down, st, d);
    case Relay(_) => RelayEffect(y, e);
    case Take(_, _) => TakeEffect(y, e);
    case Deliver(st, _) =>
      PushPart(y.down, y.server.sessions[st].phase.call.dest, y.server.sessions[st].phase.call.pkt, d);
    case LoseUp(_) => LossEffect(y, e);
    case LoseDown(st) => LossEffect(y, e); PopPart(y.down, st, d);
  }

  // ---------------------------------------------------------------- over whole runs

  lemma StepKeepsDirected(y: System, e: Event)
    requires Shape(y) && Directed(y) && Enabled(y, e)
    ensures Directed(Apply(y, e))
  {
    hide P.Shape, Carries, S.Shape, O.Owned, P.Apply, P.Enabled, S.Apply;
    var y' := Apply(y, e);
    match e
    case Relay(se) => ServerStepKeepsDirected(y, y', se);
    case Take(st, choice) => ServerStepKeepsDirected(y, y', S.Receive(st, y.up[st][0], choice));
    case Deliver(st, _) => ServerStepKeepsDirected(y, y', S.Sent(st));
    case _ => RolesStay(y, e);
  }

  lemma DownStaysOpposite(y: System, e: Event, d: Stream, p: Packet)
    requires Shape(y) && Sourced(y) && Directed(y) && Carried(y) && Enabled(y, e) && p in Queued(Apply(y, e).down, d)
    ensures Opposite(y, p.origin.stream, d)
  {
    DownSources(y, e, d);
    if e.Deliver? { DeliversDirected(y, e); }
    hide Apply, Shape, Sourced, Directed, Enabled, Queued, Incoming, Opposite;
  }

  lemma IncomingStaysOpposite(y: System, e: Event, d: Stream, h: nat, p: Packet)
    requires Shape(y) && Carried(y) && Enabled(y, e) && Shape(Apply(y, e)) && p in Incoming(Apply(y, e), d, h)
    ensures Opposite(y, p.origin.stream, d)
  {
    IncomingSources(y, e, d, h);
    hide Apply, Shape, Enabled, Queued, Incoming, Opposite;
  }

  lemma StepKeepsCarried(y: System, e: Event)
    requires Shape(y) && Sourced(y) && Directed(y) && Carried(y) && Enabled(y, e) && Shape(Apply(y, e))
    ensures Carried(Apply(y, e))
  {
    var y' := Apply(y, e);
    hide Apply, Shape, Sourced, Directed, Enabled, Queued, Incoming, Opposite;
    forall d: Stream, p | p in Queued(y'.down, d) ensures Opposite(y', p.origin.stream, d) {
      DownStaysOpposite(y, e, d, p);
      OppositeStays(y, e, p.origin.stream, d);
    }
    forall d: Stream, h: nat, p | p in Incoming(y', d, h) ensures Opposite(y', p.origin.stream, d) {
      IncomingStaysOpposite(y, e, d, h, p);
      OppositeStays(y, e, p.origin.stream, d);
    }
  }

  lemma DeliversDirected(y: System, e: Event)
    requires Shape(y) && Sourced(y) && Directed(y) && Enabled(y, e) && e.Deliver?
    ensures var call := y.server.sessions[e.st].phase.call; Opposite(y, call.pkt.origin.stream, call.dest)
  {
  }

  lemma StepKeepsBoth(y: System, e: Event)
    requires Inv(y) && Shape(y) && Directed(y) && Carried(y) && Enabled(y, e) && Inv(Apply(y, e))
    ensures var y' := Apply(y, e); Shape(y') && Directed(y') && Carried(y')
  {
    hide Inv, Shape, Enabled, Apply, Directed, Carried;
    InvHolds(y, Apply(y, e));
    StepKeepsDirected(y, e);
    StepKeepsCarried(y, e);
  }

  lemma FirstIsDirected(states: seq<System>, events: seq<Event>)
    requires Run(states, events)
    ensures |states| > 0 && Shape(states[0]) && Directed(states[0]) && Carried(states[0])
  {
    InitHolds(states[0].server.clock);
  }

  lemma {:induction false} RunKeepsDirected(states: seq<System>, events: seq<Event>, n: nat)
    requires Run(states, events) && n < |states|
    ensures Inv(states[n]) && Directed(states[n]) && Carried(states[n])
  {
    hide *;
    RunKeepsInv(states, events, n);
    if n == 0 {
      FirstIsDirected(states, events);
    } else {
      StepOf(states, events, n);
      RunKeepsDirected(states, events, n - 1);
      StepKeepsBoth(states[n - 1], events[n - 1]);
    }
  }

  lemma InvHolds(y: System, y': System)
    requires Inv(y) && Inv(y')
    ensures Shape(y) && Sourced(y) && Shape(y')
  {
  }

  /** Whatever is written to a socket was read by a process of the opposite role, from a socket
      of the same connection ID: nothing is echoed, and nothing crosses from one client to
      another or from one proxy to another. */
  lemma WrittenComesFromTheOtherSide(states: seq<System>, events: seq<Event>, n: nat, d: Stream, h: nat, p: Packet)
    requires Run(states, events) && n < |states| && p in Written(states[n], d, h)
    ensures var y, o := states[n], p.origin;
      && Opposite(y, o.stream, d) && h < |y.procs[d].workers| && o.socket < |y.procs[o.stream].workers|
      && y.procs[o.stream].workers[o.socket].connId == y.procs[d].workers[h].connId == p.connId
  {
    var y := states[n];
    RunKeepsDirected(states, events, n);
    NothingCrossesConnections(states, events, n, d, h, p);
    WrittenIsIncoming(y, d, h, p);
    hide Run, Inv, Directed, Shape, Incoming;
  }

  lemma WrittenIsIncoming(y: System, d: Stream, h: nat, p: Packet)
    requires Shape(y) && p in Written(y, d, h)
    ensures p in Incoming(y, d, h)
  {
  }
}
