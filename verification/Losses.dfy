/** Where packets are lost: every chunk ever read is on its way, or written, or was given up at
    one of a few places. */
module Losses {
  import opened Bytes
  import opened Wire
  import opened Pipeline
  import opened Carriage
  import opened EndToEnd
  import opened Delivery
  import P = Process
  import S = Server

  /** `p` is the packet made of the `k`-th chunk read from the socket `o`. */
  predicate Is(p: Packet, o: Origin, k: nat) {
    p.origin == o && p.serial == k
  }

  ghost predicate Has(xs: seq<Packet>, o: Origin, k: nat) {
    exists p :: p in xs && Is(p, o, k)
  }

  /** It is in the process that read it, on the way to, in, or on the way from the server, or it
      has reached a process, to be written there or written already. */
  ghost predicate Live(y: System, o: Origin, k: nat)
    requires Shape(y)
  {
    || Has(Outgoing(y, o), o, k)
    || Has(Queued(y.up, o.stream), o, k)
    || AtServer(y.server, o, k)
    || ComingDown(y, o, k)
    || Arrived(y, o, k)
  }

  ghost predicate AtServer(s: S.State, o: Origin, k: nat) {
    o.stream in s.sessions && s.sessions[o.stream].Calling() && Is(s.sessions[o.stream].phase.call.pkt, o, k)
  }

  ghost predicate ComingDown(y: System, o: Origin, k: nat) {
    exists d: Stream :: Has(Queued(y.down, d), o, k)
  }

  ghost predicate Arrived(y: System, o: Origin, k: nat)
    requires Shape(y)
  {
    exists d: Stream, h: nat :: Has(Incoming(y, d, h), o, k)
  }

  /** The packet a step gives up, if it gives one up: it is dropped on a full queue or at a stop,
      its send or write fails, the server has no route or no registration for it, the process it
      reaches has no connection for it, or the stream ends under it. */
  function GivenUp(y: System, e: Event): Option<Packet>
    requires Shape(y) && Enabled(y, e)
  {
    match e
    case Start(_, _, _) => None
    case Internal(st, pe) => GivenUpInside(y.procs[st], pe)
    case Emit(st, lost) => if lost then y.procs[st].outHand else None
    case Arrive(st, dials) =>
      var p := y.down[st][0];
      if Homeless(y.procs[st], p, dials) then Some(p) else None
    case Relay(_) => None
    case Take(st, choice) =>
      var p := y.up[st][0];
      if S.Target(y.server, st, p, choice).None? then Some(p) else None
    case Deliver(st, lost) => if lost then Some(y.server.sessions[st].phase.call.pkt) else None
    case LoseUp(st) => Some(y.up[st][0])
    case LoseDown(st) => Some(y.down[st][0])
  }

  /** No connection is stored under the packet's ID, and none is dialed. */
  predicate Homeless(s: P.State, pkt: Packet, dials: bool) {
    pkt.connId !in s.table.connections && (s.role.ClientRole? || !dials)
  }

  function GivenUpInside(s: P.State, pe: P.Event): Option<Packet>
    requires P.Shape(s) && P.Enabled(s, pe)
  {
    match pe
    case Drop(k) => s.lines[k].pending
    case Abandon(k) => s.lines[k].pending
    case WriteFails => Some(s.inHand.pkt)
    case _ => None
  }

  predicate Loses(y: System, e: Event, o: Origin, k: nat)
    requires Shape(y) && Enabled(y, e)
  {
    var p := GivenUp(y, e);
    p.Some? && Is(p.value, o, k)
  }

  // ---------------------------------------------------------------- one process

  lemma HasPart(a: seq<Packet>, b: seq<Packet>, o: Origin, k: nat)
    ensures Has(a + b, o, k) <==> Has(a, o, k) || Has(b, o, k)
  {
    if p :| p in a && Is(p, o, k) { assert p in a + b; }
    if p :| p in b && Is(p, o, k) { assert p in a + b; }
  }

  lemma HasOf(xs: seq<Packet>, ys: seq<Packet>, o: Origin, k: nat)
    requires Of(xs, o) == Of(ys, o) && Has(xs, o, k)
    ensures Has(ys, o, k)
  {
    var p :| p in xs && Is(p, o, k);
    KeepsMember(xs, p);
    assert p in ys;
  }

  /** A goroutine gives up its packet, and no other. */
  lemma OutSideGivesUp(s: P.State, e: P.Event, k: nat)
    requires P.Shape(s) && P.Enabled(s, e) && (e.Drop? || e.Abandon?)
    ensures GivenUpInside(s, e).Some?
    ensures OutSide(s, k) == OutSide(P.Apply(s, e), k) + (if e.k == k then [GivenUpInside(s, e).value] else [])
  {
    assert P.WorkerFits(s, e.k);
  }

  /** What is going out of a process stays there, but for what it emits or gives up. */
  lemma OutSideStays(s: P.State, e: P.Event, o: Origin, k: nat)
    requires P.Shape(s) && Carries(s) && P.Enabled(s, e) && !e.Emit? && o.stream == s.stream
    requires Has(OutSide(s, o.socket), o, k)
    ensures Has(OutSide(P.Apply(s, e), o.socket), o, k)
      || (GivenUpInside(s, e).Some? && Is(GivenUpInside(s, e).value, o, k))
  {
    var a, b := OutSide(s, o.socket), OutSide(P.Apply(s, e), o.socket);
    hide P.Shape, Carries, P.Apply, P.Enabled, OutSide, GivenUpInside;
    match e
    case Read(j, bytes) =>
      OutSideReads(s, j, bytes, o.socket);
      HasPart(a, [P.Chunk(s, o.socket, bytes)], o, k);
    case Enqueue(j) => OutSideQueues(s, j, o.socket); HasOf(a, b, o, k);
    case Drop(j) =>
      OutSideGivesUp(s, e, o.socket);
      HasPart(b, if j == o.socket then [GivenUpInside(s, e).value] else [], o, k);
    case Abandon(j) =>
      OutSideGivesUp(s, e, o.socket);
      HasPart(b, if j == o.socket then [GivenUpInside(s, e).value] else [], o, k);
    case Take => OutSideTakes(s, o.socket);
    case _ => OutSideKept(s, e, o.socket);
  }

  lemma InSideFails(s: P.State, h: nat)
    requires P.Shape(s) && P.Enabled(s, P.WriteFails)
    ensures P.Shape(P.Apply(s, P.WriteFails))
    ensures InSide(s, h) == InSide(P.Apply(s, P.WriteFails), h) + Handed(s, h)
  {
    P.StepKeepsShape(s, P.WriteFails);
    WrittenKept(s, P.WriteFails, h);
  }

  /** Updating the activity and writing keep the packet. */
  lemma InSideWrites(s: P.State, e: P.Event, h: nat)
    requires P.Shape(s) && P.Enabled(s, e) && (e.TouchIn? || e.Write? || e.RemoveBroken?)
    ensures P.Shape(P.Apply(s, e)) && InSide(P.Apply(s, e), h) == InSide(s, h)
  {
    P.StepKeepsShape(s, e);
    if e.Write? {
      assert s.workers[P.Target(s)].entry == Some(s.inHand.entry);
    }
  }

  lemma InSideStays(s: P.State, e: P.Event, h: nat, o: Origin, k: nat)
    requires P.Shape(s) && P.Enabled(s, e) && !e.Receive? && Has(InSide(s, h), o, k)
    ensures P.Shape(P.Apply(s, e))
    ensures Has(InSide(P.Apply(s, e), h), o, k) || (GivenUpInside(s, e).Some? && Is(GivenUpInside(s, e).value, o, k))
  {
    if e.WriteFails? {
      InSideFails(s, h);
      HasPart(InSide(P.Apply(s, e), h), Handed(s, h), o, k);
    } else if e.TouchIn? || e.Write? || e.RemoveBroken? {
      hide GivenUpInside, InSide;
      InSideWrites(s, e, h);
    } else {
      hide GivenUpInside, InSide;
      InSideKept(s, e, h);
    }
  }

  /** A packet received for a connection there is, or can be dialed, is on its way to it. */
  lemma InSideTakesIn(s: P.State, pkt: Packet, dials: bool) returns (h: nat)
    requires P.Shape(s) && P.Enabled(s, P.Receive(pkt, dials))
    ensures var s' := P.Apply(s, P.Receive(pkt, dials));
      && P.Shape(s')
      && (forall g: nat :: InSide(s, g) <= InSide(s', g))
      && (!Homeless(s, pkt, dials) ==> pkt in InSide(s', h))
  {
    var e := P.Receive(pkt, dials);
    var s' := P.Apply(s, e);
    P.StepKeepsShape(s, e);
    forall g: nat ensures InSide(s, g) <= InSide(s', g) { InSideReceives(s, pkt, dials, g); }
    h := if s'.inHand.Nothing? then 0 else P.Target(s');
    if !s'.inHand.Nothing? {
      assert Handed(s', h) == [pkt];
      assert InSide(s', h)[|InSide(s', h)| - 1] == pkt;
    }
  }

  // ---------------------------------------------------------------- the whole system

  lemma LossInside(y: System, e: Event, o: Origin, k: nat)
    requires Shape(y) && Enabled(y, e) && Inside(y, e).Some?
    requires P.Enabled(y.procs[Inside(y, e).value.0], Inside(y, e).value.1)
    ensures var (st, pe) := Inside(y, e).value;
      var p := GivenUpInside(y.procs[st], pe);
      p.Some? && Is(p.value, o, k) ==> Loses(y, e, o, k)
  {
    hide P.Shape, P.Enabled, Carries, S.Shape, S.Enabled, S.Apply;
  }

  lemma OutgoingStays(y: System, e: Event, o: Origin, k: nat)
    requires Shape(y) && Enabled(y, e) && Shape(Apply(y, e)) && !Loses(y, e, o, k) && Has(Outgoing(y, o), o, k)
    ensures Has(Outgoing(Apply(y, e), o), o, k) || Has(Queued(Apply(y, e).up, o.stream), o, k)
  {
    var y' := Apply(y, e);
    InsideStep(y, e);
    assert o.stream in y.procs;
    if e.Emit? && e.st == o.stream {
      EmissionGoesUp(y, e, o, k);
    } else if Inside(y, e).Some? {
      var (st, pe) := Inside(y, e).value;
      LossInside(y, e, o, k);
      ProcessStep(y, y', st, P.Apply(y.procs[st], pe), o, 0, 0);
      if st == o.stream {
        assert Carries(y.procs[st]) && y.procs[st].stream == st;
        hide Apply, Shape, Enabled, Loses, Has, Outgoing, OutSide, P.Apply, P.Enabled, P.Shape, Carries, GivenUpInside;
        OutSideStays(y.procs[st], pe, o, k);
      }
    }
  }

  lemma EmissionGoesUp(y: System, e: Event, o: Origin, k: nat)
    requires Shape(y) && Enabled(y, e) && Shape(Apply(y, e)) && !Loses(y, e, o, k) && Has(Outgoing(y, o), o, k)
    requires e.Emit? && e.st == o.stream
    ensures Has(Outgoing(Apply(y, e), o), o, k) || Has(Queued(Apply(y, e).up, o.stream), o, k)
  {
    var y' := Apply(y, e);
    EmissionMoves(y, e, o, 0, 0);
    var p, q := y.procs[e.st].outHand.value, P.Image(y.procs[e.st]);
    assert q.origin == p.origin && q.serial == p.serial;
    assert Is(p, o, k) ==> !e.lost;
    hide Apply, Shape, Enabled, Loses, Has, Outgoing, Queued, P.Image, OnlyAt;
    HasPart([p], Outgoing(y', o), o, k);
    HasOne(p, o, k);
    HasOne(q, o, k);
    if !e.lost { HasPart(Queued(y.up, o.stream), [q], o, k); }
  }

  lemma HasOne(p: Packet, o: Origin, k: nat)
    ensures Has([p], o, k) <==> Is(p, o, k)
  {
    if Is(p, o, k) { assert p in [p]; }
  }

  /** What is queued stays behind the head. */
  lemma HasRest(xs: seq<Packet>, o: Origin, k: nat)
    requires xs != [] && Has(xs, o, k)
    ensures Is(xs[0], o, k) || Has(xs[1..], o, k)
  {
    assert xs == [xs[0]] + xs[1..];
    HasPart([xs[0]], xs[1..], o, k);
    HasOne(xs[0], o, k);
  }

  lemma UpStays(y: System, e: Event, o: Origin, k: nat)
    requires Shape(y) && Enabled(y, e) && !Loses(y, e, o, k) && Has(Queued(y.up, o.stream), o, k)
    ensures Has(Queued(Apply(y, e).up, o.stream), o, k) || AtServer(Apply(y, e).server, o, k)
  {
    var xs := Queued(y.up, o.stream);
    hide P.Shape, P.Apply, Carries, S.Shape, S.Apply, P.Image;
    match e
    case Emit(st, lost) =>
      PushPart(y.up, st, P.Image(y.procs[st]), o.stream);
      HasPart(xs, [P.Image(y.procs[st])], o, k);
    case Take(st, choice) =>
      PopPart(y.up, st, o.stream);
      if st == o.stream {
        HasRest(xs, o, k);
        if Is(xs[0], o, k) { TakenIsCalledOrGivenUp(y.server, st, xs[0], choice); }
      }
    case LoseUp(st) =>
      PopPart(y.up, st, o.stream);
      if st == o.stream { HasRest(xs, o, k); }
    case _ =>
  }

  lemma TakenIsCalledOrGivenUp(s: S.State, st: Stream, pkt: Packet, choice: Option<Id>)
    requires S.Shape(s) && S.Enabled(s, S.Receive(st, pkt, choice))
    ensures st in s.sessions
    ensures var s' := S.Apply(s, S.Receive(st, pkt, choice));
      || S.Target(s, st, pkt, choice).None?
      || (st in s'.sessions && s'.sessions[st].Calling() && s'.sessions[st].phase.call.pkt == pkt)
  {
    S.ReceiveFindsTarget(s, st, pkt, choice);
    hide S.Apply, S.Target;
  }

  /** Between its lookup and its send, a session keeps its packet. */
  lemma CallsStay(s: S.State, se: S.Event, st: Stream)
    requires S.Shape(s) && S.Enabled(s, se) && st in s.sessions && s.sessions[st].Calling() && se != S.Sent(st)
    ensures var s' := S.Apply(s, se);
      st in s'.sessions && s'.sessions[st].Calling() && s'.sessions[st].phase.call == s.sessions[st].phase.call
  {
    S.StepFrame(s, se);
    if S.Actor(se) == Some(st) {
      assert se == S.Count(st);
    }
  }

  lemma ServerStays(y: System, e: Event, o: Origin, k: nat)
    requires Shape(y) && Enabled(y, e) && !Loses(y, e, o, k) && AtServer(y.server, o, k)
    ensures AtServer(Apply(y, e).server, o, k) || ComingDown(Apply(y, e), o, k)
  {
    hide P.Shape, P.Apply, P.Enabled, Carries, S.Shape, S.Apply;
    match e
    case Relay(se) => CallsStay(y.server, se, o.stream);
    case Take(st, choice) => CallsStay(y.server, S.Receive(st, y.up[st][0], choice), o.stream);
    case Deliver(st, lost) =>
      if st == o.stream {
        var call := y.server.sessions[st].phase.call;
        PushPart(y.down, call.dest, call.pkt, call.dest);
        HasPart(Queued(y.down, call.dest), [call.pkt], o, k);
        HasOne(call.pkt, o, k);
      } else {
        CallsStay(y.server, S.Sent(st), o.stream);
      }
    case _ =>
  }

  lemma DownStays(y: System, e: Event, d: Stream, o: Origin, k: nat)
    requires Shape(y) && Enabled(y, e) && Shape(Apply(y, e)) && !Loses(y, e, o, k) && Has(Queued(y.down, d), o, k)
    ensures Has(Queued(Apply(y, e).down, d), o, k) || Arrived(Apply(y, e), o, k)
  {
    var xs := Queued(y.down, d);
    hide P.Shape, P.Apply, P.Enabled, Carries, S.Shape, S.Apply, Arrived;
    match e
    case Arrive(st, dials) =>
      PopPart(y.down, st, d);
      if st == d {
        HasRest(xs, o, k);
        if Is(xs[0], o, k) { ArrivalTakesIn(y, e, o, k); }
      }
    case Deliver(st, lost) =>
      var call := y.server.sessions[st].phase.call;
      PushPart(y.down, call.dest, call.pkt, d);
      HasPart(xs, [call.pkt], o, k);
    case LoseDown(st) =>
      PopPart(y.down, st, d);
      if st == d { HasRest(xs, o, k); }
    case _ =>
  }

  lemma ArrivalTakesIn(y: System, e: Event, o: Origin, k: nat)
    requires Shape(y) && Enabled(y, e) && Shape(Apply(y, e)) && !Loses(y, e, o, k)
    requires e.Arrive? && Is(y.down[e.st][0], o, k)
    ensures Arrived(Apply(y, e), o, k)
  {
    var y', s, p := Apply(y, e), y.procs[e.st], y.down[e.st][0];
    assert !Homeless(s, p, e.dials);
    var h := InSideTakesIn(s, p, e.dials);
    assert Incoming(y', e.st, h) == InSide(P.Apply(s, P.Receive(p, e.dials)), h);
    assert Has(Incoming(y', e.st, h), o, k);
  }

  lemma IncomingStays(y: System, e: Event, d: Stream, h: nat, o: Origin, k: nat)
    requires Shape(y) && Enabled(y, e) && Shape(Apply(y, e)) && !Loses(y, e, o, k) && Has(Incoming(y, d, h), o, k)
    ensures Has(Incoming(Apply(y, e), d, h), o, k)
  {
    var y' := Apply(y, e);
    InsideStep(y, e);
    assert d in y.procs;
    if Inside(y, e).Some? {
      var (st, pe) := Inside(y, e).value;
      LossInside(y, e, o, k);
      ProcessStep(y, y', st, P.Apply(y.procs[st], pe), o, d, h);
      hide Apply, Shape, Enabled, Loses, Has, Incoming, InSide, P.Apply, P.Enabled, P.Shape, Carries, GivenUpInside;
      if st == d {
        if pe.Receive? {
          var s := y.procs[d];
          var g := InSideTakesIn(s, pe.pkt, pe.dials);
          HasPrefix(InSide(s, h), InSide(P.Apply(s, pe), h), o, k);
        } else {
          InSideStays(y.procs[d], pe, h, o, k);
        }
      }
    }
  }

  lemma HasPrefix(a: seq<Packet>, b: seq<Packet>, o: Origin, k: nat)
    requires a <= b && Has(a, o, k)
    ensures Has(b, o, k)
  {
    assert b == a + b[|a|..];
    HasPart(a, b[|a|..], o, k);
  }

  // ---------------------------------------------------------------- over whole runs

  lemma StepKeepsLive(y: System, e: Event, o: Origin, k: nat)
    requires Shape(y) && Enabled(y, e) && Shape(Apply(y, e)) && Live(y, o, k)
    ensures Live(Apply(y, e), o, k) || Loses(y, e, o, k)
  {
    if !Loses(y, e, o, k) {
      hide Apply, Shape, Enabled, Loses, Has, Outgoing, Incoming, Queued;
      if Has(Outgoing(y, o), o, k) {
        OutgoingStays(y, e, o, k);
      } else if Has(Queued(y.up, o.stream), o, k) {
        UpStays(y, e, o, k);
      } else if AtServer(y.server, o, k) {
        ServerStays(y, e, o, k);
      } else if ComingDown(y, o, k) {
        var d: Stream :| Has(Queued(y.down, d), o, k);
        DownStays(y, e, d, o, k);
      } else {
        var d: Stream, h: nat :| Has(Incoming(y, d, h), o, k);
        IncomingStays(y, e, d, h, o, k);
      }
    }
  }

  lemma ChunksStep(s: P.State, e: P.Event, k: nat)
    requires P.Shape(s) && P.Enabled(s, e)
    ensures Chunks(P.Apply(s, e), k) == Chunks(s, k) + (if e.Read? && e.k == k then [P.Chunk(s, k, e.bytes)] else [])
  {
  }

  /** A chunk that is read joins what is going out. */
  lemma LogStep(y: System, e: Event, o: Origin)
    requires Shape(y) && Enabled(y, e) && Shape(Apply(y, e))
    ensures var y' := Apply(y, e);
      || Log(y', o) == Log(y, o)
      || (|Log(y', o)| == |Log(y, o)| + 1 && Has(Outgoing(y', o), o, |Log(y, o)|))
  {
    var y' := Apply(y, e);
    InsideStep(y, e);
    if e.Start? {
      StartIsEmpty(e.role, e.st, e.clock, o.socket);
    } else if Inside(y, e).Some? {
      var (st, pe) := Inside(y, e).value;
      ProcessStep(y, y', st, P.Apply(y.procs[st], pe), o, 0, 0);
      if st == o.stream {
        ChunksStep(y.procs[st], pe, o.socket);
        if pe.Read? && pe.k == o.socket { ReadJoins(y.procs[st], pe.bytes, o); }
      }
    }
  }

  lemma ReadJoins(s: P.State, bytes: seq<Byte>, o: Origin)
    requires P.Shape(s) && P.Enabled(s, P.Read(o.socket, bytes)) && s.stream == o.stream
    ensures Has(OutSide(P.Apply(s, P.Read(o.socket, bytes)), o.socket), o, |Chunks(s, o.socket)|)
  {
    OutSideReads(s, o.socket, bytes, o.socket);
    var c := P.Chunk(s, o.socket, bytes);
    HasPart(OutSide(s, o.socket), [c], o, c.serial);
    HasOne(c, o, c.serial);
  }

  /** Every chunk ever read, in every state of every run: it is on its way or has arrived, or
      one of the steps so far gave it up. */
  lemma {:induction false} NothingVanishes(states: seq<System>, events: seq<Event>, n: nat, o: Origin, k: nat)
    requires Run(states, events) && n < |states| && Shape(states[n]) && k < |Log(states[n], o)|
    ensures Live(states[n], o, k)
      || exists i ::
        0 <= i < n && Shape(states[i]) && Enabled(states[i], events[i]) && Loses(states[i], events[i], o, k)
  {
    if n > 0 {
      var y, e := states[n - 1], events[n - 1];
      assert Shape(y) && Enabled(y, e) && states[n - 1 + 1] == Apply(y, e);
      hide Apply, Shape, Enabled, Loses, Live, Has, Log, Init;
      LogStep(y, e, o);
      if k < |Log(y, o)| {
        NothingVanishes(states, events, n - 1, o, k);
        if Live(y, o, k) { StepKeepsLive(y, e, o, k); }
      } else {
        JoinedIsLive(states[n], o, k);
      }
    }
  }

  lemma JoinedIsLive(y: System, o: Origin, k: nat)
    requires Shape(y) && Has(Outgoing(y, o), o, k)
    ensures Live(y, o, k)
  {
  }

  /** Nothing is queued, in hand, in a stream or in the server. */
  ghost predicate Quiet(y: System) {
    && (forall st :: st in y.procs ==> QuietProcess(y.procs[st]))
    && (forall st: Stream :: Queued(y.up, st) == [] && Queued(y.down, st) == [])
    && (forall st :: st in y.server.sessions ==> !y.server.sessions[st].Calling())
  }

  predicate QuietProcess(s: P.State) {
    && s.outHand.None? && s.queue == [] && !s.inHand.Looked? && !s.inHand.Touched?
    && (forall k :: 0 <= k < |s.lines| ==> s.lines[k].pending.None?)
  }

  /** Once the system is quiet, every chunk ever read has been written to some socket, or one of
      the steps gave it up. */
  lemma ReadIsWrittenOrGivenUp(states: seq<System>, events: seq<Event>, n: nat, o: Origin, k: nat)
    requires Run(states, events) && n < |states| && Shape(states[n]) && Quiet(states[n]) && k < |Log(states[n], o)|
    ensures (exists d: Stream, h: nat :: Has(Written(states[n], d, h), o, k))
      || exists i ::
        0 <= i < n && Shape(states[i]) && Enabled(states[i], events[i]) && Loses(states[i], events[i], o, k)
  {
    NothingVanishes(states, events, n, o, k);
    if Live(states[n], o, k) { QuietMeansWritten(states[n], o, k); }
  }

  lemma QuietMeansWritten(y: System, o: Origin, k: nat)
    requires Shape(y) && Quiet(y) && Live(y, o, k)
    ensures exists d: Stream, h: nat :: Has(Written(y, d, h), o, k)
  {
    assert Outgoing(y, o) == [];
    var d: Stream, h: nat :| Has(Incoming(y, d, h), o, k);
    assert Incoming(y, d, h) == Written(y, d, h);
  }
}
