/** Every chunk has one fate: it is on its way or has arrived, in one place, or it was given up,
    once and for all. */
module Fate {
  import opened Bytes
  import opened Wire
  import opened Pipeline
  import opened Carriage
  import opened EndToEnd
  import opened Delivery
  import opened Direction
  import opened Losses
  import opened Once
  import P = Process
  import S = Server

  // ---------------------------------------------------------------- one place

  lemma OutExcludes(
      i: seq<Packet>, n: seq<Packet>, r: seq<Packet>, u: seq<Packet>, out: seq<Packet>,
      log: seq<Packet>, exact: bool, o: Origin, k: nat)
    requires Ordered((i + n) + (r + u + out), log, exact)
    ensures Has(out, o, k) ==> !Has(i, o, k) && !Has(n, o, k) && !Has(r, o, k) && !Has(u, o, k)
    ensures Has(u, o, k) ==> !Has(i, o, k) && !Has(n, o, k) && !Has(r, o, k)
  {
    hide *;
    HasPart(i, n, o, k);
    HasPart(i + n, r, o, k);
    HasPart((i + n) + r, u, o, k);
    HasPart(u, out, o, k);
    assert (i + n) + (r + u + out) == ((i + n) + r) + (u + out) == (((i + n) + r) + u) + out;
    if Has((i + n) + r, o, k) { OrderedParts((i + n) + r, u + out, log, exact, o, k); }
    if Has(((i + n) + r) + u, o, k) { OrderedParts(((i + n) + r) + u, out, log, exact, o, k); }
  }

  /** In each pipe, what is still in its process of origin or coming up is nowhere farther. */
  lemma PipeExcludes(y: System, o: Origin, d: Stream, h: nat, k: nat)
    requires Inv(y) && Shape(y)
    ensures var below :=
        Has(Queued(y.down, d), o, k) || Has(Incoming(y, d, h), o, k) || Has(Relayed(y.server, o.stream, d), o, k);
      && (Has(Outgoing(y, o), o, k) ==> !below && !Has(Queued(y.up, o.stream), o, k))
      && (Has(Queued(y.up, o.stream), o, k) ==> !below)
  {
    assert InOrder(y, o, d, h);
    assert Ordered(Pipe(y, o, d, h), Log(y, o), FromProxy(y, o));
    hide Inv, Shape, Of, Has, Incoming, Queued, Relayed, Outgoing, Pipe, Ordered, Log, FromProxy, InOrder;
    PipeMeetsAtServer(y, o, d, h);
    OutExcludes(
      Of(Incoming(y, d, h), o), Of(Queued(y.down, d), o), Of(Relayed(y.server, o.stream, d), o),
      Of(Queued(y.up, o.stream), o), Of(Outgoing(y, o), o), Log(y, o), FromProxy(y, o), o, k);
    OfHas(Incoming(y, d, h), o, k);
    OfHas(Queued(y.down, d), o, k);
    OfHas(Relayed(y.server, o.stream, d), o, k);
    OfHas(Queued(y.up, o.stream), o, k);
    OfHas(Outgoing(y, o), o, k);
  }

  lemma AtServerIsRelayed(y: System, o: Origin, k: nat) returns (d: Stream)
    requires AtServer(y.server, o, k)
    ensures Has(Relayed(y.server, o.stream, d), o, k)
  {
    d := y.server.sessions[o.stream].phase.call.dest;
    HasOne(y.server.sessions[o.stream].phase.call.pkt, o, k);
  }

  /** A chunk is in its process of origin, or coming up, or at the server, or it has come down
      one stream: in one of them only. */
  lemma OnePlace(y: System, o: Origin, k: nat)
    requires Inv(y) && Shape(y) && Single(y, o, k)
    ensures Has(Outgoing(y, o), o, k) ==> !Has(Queued(y.up, o.stream), o, k)
    ensures Has(Outgoing(y, o), o, k) || Has(Queued(y.up, o.stream), o, k) ==>
      !AtServer(y.server, o, k) && forall d: Stream :: !Below(y, d, o, k)
    ensures AtServer(y.server, o, k) ==> forall d: Stream :: !Below(y, d, o, k)
  {
    hide Inv, Shape, Has, Incoming, Queued, Outgoing, Relayed, AtServer;
    PipeExcludes(y, o, 0, 0, k);
    if Has(Outgoing(y, o), o, k) || Has(Queued(y.up, o.stream), o, k) {
      if AtServer(y.server, o, k) {
        var d := AtServerIsRelayed(y, o, k);
        PipeExcludes(y, o, d, 0, k);
        assert false;
      }
      forall d: Stream ensures !Below(y, d, o, k) {
        forall h: nat ensures !Has(Queued(y.down, d), o, k) && !Has(Incoming(y, d, h), o, k) {
          PipeExcludes(y, o, d, h, k);
        }
        PipeExcludes(y, o, d, 0, k);
      }
    }
  }

  lemma PipeIsOrdered(y: System, o: Origin, d: Stream, h: nat)
    requires Inv(y) && Shape(y)
    ensures Ordered(Pipe(y, o, d, h), Log(y, o), FromProxy(y, o))
  {
    assert InOrder(y, o, d, h);
    hide Shape, Pipe, Log, FromProxy, Ordered;
  }

  /** What is in one part of a pipe is in order by itself. */
  lemma PartIsOrdered(y: System, o: Origin, d: Stream, h: nat, j: nat)
    requires Inv(y) && Shape(y) && j < 5
    ensures Ordered(Part(y, o, d, h, j), Log(y, o), FromProxy(y, o))
  {
    hide *;
    PipeIsOrdered(y, o, d, h);
    PartsMakePipe(y, o, d, h);
    FiveParts(
      Part(y, o, d, h, 0), Part(y, o, d, h, 1), Part(y, o, d, h, 2), Part(y, o, d, h, 3), Part(y, o, d, h, 4),
      Log(y, o), FromProxy(y, o));
    assert j == 0 || j == 1 || j == 2 || j == 3 || j == 4;
  }

  lemma StretchesAreOrdered(y: System, o: Origin, d: Stream, h: nat)
    requires Inv(y) && Shape(y)
    ensures Ordered(Of(Outgoing(y, o), o), Log(y, o), FromProxy(y, o))
    ensures Ordered(Of(Queued(y.up, o.stream), o), Log(y, o), FromProxy(y, o))
    ensures Ordered(Of(Queued(y.down, d), o), Log(y, o), FromProxy(y, o))
    ensures Ordered(Of(Incoming(y, d, h), o), Log(y, o), FromProxy(y, o))
  {
    hide Inv, Shape, Ordered, Of, Outgoing, Queued, Incoming, Log, FromProxy;
    PartIsOrdered(y, o, d, h, 0);
    PartIsOrdered(y, o, d, h, 1);
    PartIsOrdered(y, o, d, h, 3);
    PartIsOrdered(y, o, d, h, 4);
  }

  lemma FiveParts(
      a: seq<Packet>, b: seq<Packet>, c: seq<Packet>, u: seq<Packet>, v: seq<Packet>, log: seq<Packet>, exact: bool)
    requires Ordered(a + b + c + (u + v), log, exact)
    ensures Ordered(a, log, exact) && Ordered(b, log, exact) && Ordered(c, log, exact)
    ensures Ordered(u, log, exact) && Ordered(v, log, exact)
  {
    hide *;
    var xs := a + b + c + (u + v);
    assert xs == [] + a + (b + c + (u + v)) == a + b + (c + (u + v)) == (a + b) + c + (u + v);
    assert xs == (a + b + c) + u + v == (a + b + c + u) + v + [];
    MiddleIsOrdered([], a, b + c + (u + v), log, exact);
    MiddleIsOrdered(a, b, c + (u + v), log, exact);
    MiddleIsOrdered(a + b, c, u + v, log, exact);
    MiddleIsOrdered(a + b + c, u, v, log, exact);
    MiddleIsOrdered(a + b + c + u, v, [], log, exact);
  }

  lemma MiddleIsOrdered(a: seq<Packet>, x: seq<Packet>, b: seq<Packet>, log: seq<Packet>, exact: bool)
    requires Ordered(a + x + b, log, exact)
    ensures Ordered(x, log, exact)
  {
    hide Faithful;
    assert forall i :: 0 <= i < |x| ==> (a + x + b)[|a| + i] == x[i];
    forall i, j | 0 <= i < j < |x| ensures x[i].serial < x[j].serial {
      assert (a + x + b)[|a| + i] == x[i] && (a + x + b)[|a| + j] == x[j];
    }
    forall i | 0 <= i < |x| ensures Faithful(x[i], log, exact) { assert (a + x + b)[|a| + i] == x[i]; }
  }

  lemma HeadIsOnly(p: Packet, rest: seq<Packet>, log: seq<Packet>, exact: bool, o: Origin, k: nat)
    requires Ordered(Of([p] + rest, o), log, exact) && Is(p, o, k)
    ensures !Has(rest, o, k)
  {
    assert p.origin == o;
    OfCons(p, rest, o);
    HasOne(p, o, k);
    OfHas(rest, o, k);
    hide Of, Ordered, Has, Is;
    OrderedParts([p], Of(rest, o), log, exact, o, k);
  }

  lemma LastIsOnly(p: Packet, rest: seq<Packet>, log: seq<Packet>, exact: bool, o: Origin, k: nat)
    requires Ordered(Of(rest + [p], o), log, exact) && Is(p, o, k)
    ensures !Has(rest, o, k)
  {
    assert p.origin == o;
    OfSnoc(rest, p, o);
    HasOne(p, o, k);
    OfHas(rest, o, k);
    hide Of, Ordered, Has, Is;
    if Has(Of(rest, o), o, k) { OrderedParts(Of(rest, o), [p], log, exact, o, k); }
  }

  // ---------------------------------------------------------------- what steps add

  lemma OutSideGains(s: P.State, e: P.Event, o: Origin, k: nat)
    requires P.Shape(s) && Carries(s) && P.Enabled(s, e) && !e.Emit? && o.stream == s.stream
    requires Has(OutSide(P.Apply(s, e), o.socket), o, k)
    ensures Has(OutSide(s, o.socket), o, k) || k == |Chunks(s, o.socket)|
  {
    var a, b := OutSide(s, o.socket), OutSide(P.Apply(s, e), o.socket);
    hide P.Shape, Carries, P.Apply, P.Enabled, OutSide, GivenUpInside, Chunks;
    match e
    case Read(j, bytes) =>
      OutSideReads(s, j, bytes, o.socket);
      if j == o.socket {
        HasPart(a, [P.Chunk(s, o.socket, bytes)], o, k);
        HasOne(P.Chunk(s, o.socket, bytes), o, k);
        ChunkSerial(s, o.socket, bytes);
      }
    case Enqueue(j) => OutSideQueues(s, j, o.socket); HasOf(b, a, o, k);
    case Drop(j) =>
      OutSideGivesUp(s, e, o.socket);
      HasPart(b, if j == o.socket then [GivenUpInside(s, e).value] else [], o, k);
    case Abandon(j) =>
      OutSideGivesUp(s, e, o.socket);
      HasPart(b, if j == o.socket then [GivenUpInside(s, e).value] else [], o, k);
    case Take => OutSideTakes(s, o.socket);
    case _ => OutSideKept(s, e, o.socket);
  }

  lemma ChunkSerial(s: P.State, j: nat, bytes: seq<Byte>)
    requires j < |s.workers| && j < |s.lines|
    ensures P.Chunk(s, j, bytes).serial == |Chunks(s, j)|
  {
  }

  lemma NewOutgoing(y: System, e: Event, o: Origin, k: nat)
    requires Shape(y) && Enabled(y, e) && Shape(Apply(y, e)) && Has(Outgoing(Apply(y, e), o), o, k)
    ensures Has(Outgoing(y, o), o, k) || k == |Log(y, o)|
  {
    var y' := Apply(y, e);
    InsideStep(y, e);
    hide Apply, Shape, Enabled, Has, Outgoing, OutSide, Incoming;
    hide P.Apply, P.Enabled, P.Shape, Carries, Log, FromProxy, Chunks;
    if e.Start? {
      StartMoves(y, e, o, 0, 0);
    } else if e.Emit? {
      EmissionMoves(y, e, o, 0, 0);
      if e.st == o.stream { HasPart([y.procs[e.st].outHand.value], Outgoing(y', o), o, k); }
    } else if Inside(y, e).Some? {
      var (st, pe) := Inside(y, e).value;
      ProcessStep(y, y', st, P.Apply(y.procs[st], pe), o, 0, 0);
      if st == o.stream { OutSideGains(y.procs[st], pe, o, k); }
    } else {
      QuietProcs(y, e, o);
    }
  }

  lemma QuietProcs(y: System, e: Event, o: Origin)
    requires Shape(y) && Enabled(y, e) && Shape(Apply(y, e)) && !e.Start? && Inside(y, e).None?
    ensures Outgoing(Apply(y, e), o) == Outgoing(y, o)
  {
    hide P.Shape, Carries, S.Shape, S.Enabled, S.Apply, OutSide;
  }

  lemma NewUp(y: System, e: Event, o: Origin, k: nat)
    requires Shape(y) && Enabled(y, e) && Shape(Apply(y, e)) && Has(Queued(Apply(y, e).up, o.stream), o, k)
    ensures Has(Queued(y.up, o.stream), o, k) || (e.Emit? && !e.lost && Has(Outgoing(y, o), o, k))
  {
    var y' := Apply(y, e);
    hide Apply, Shape, Enabled, Has, Outgoing, Queued, P.Image, P.Shape;
    hide P.Apply, P.Enabled, Carries, S.Shape, S.Enabled, S.Apply, Push, Pop, OnlyAt;
    match e
    case Start(_, _, _) => StartEffect(y, e);
    case Internal(_, _) => InternalEffect(y, e);
    case Emit(st, lost) =>
      EmissionMoves(y, e, o, 0, 0);
      var p, q := y.procs[st].outHand.value, P.Image(y.procs[st]);
      ImageIsSame(y.procs[st]);
      HasPart(Queued(y.up, o.stream), if lost then [] else [q], o, k);
      HasNone(o, k);
      HasOne(q, o, k);
      HasOne(p, o, k);
      HasPart([p], Outgoing(y', o), o, k);
    case Arrive(_, _) => ArriveEffect(y, e);
    case Relay(_) => RelayEffect(y, e);
    case Take(st, _) => TakeEffect(y, e); PopPart(y.up, st, o.stream); RestHas(Queued(y.up, o.stream), o, k);
    case Deliver(_, _) => DeliverEffect(y, e);
    case LoseUp(st) => LossEffect(y, e); PopPart(y.up, st, o.stream); RestHas(Queued(y.up, o.stream), o, k);
    case LoseDown(_) => LossEffect(y, e);
  }

  lemma ImageIsSame(s: P.State)
    requires s.outHand.Some?
    ensures P.Image(s).origin == s.outHand.value.origin && P.Image(s).serial == s.outHand.value.serial
  {
  }

  lemma HasNone(o: Origin, k: nat)
    ensures !Has([], o, k)
  {
  }

  lemma RestHas(xs: seq<Packet>, o: Origin, k: nat)
    ensures xs != [] && Has(xs[1..], o, k) ==> Has(xs, o, k)
  {
    if xs != [] {
      assert xs == [xs[0]] + xs[1..];
      HasPart([xs[0]], xs[1..], o, k);
    }
  }

  // ---------------------------------------------------------------- what a loss leaves

  /** Where a chunk can be after a step, it was before, or it has just moved there. */
  lemma LiveAfter(y: System, e: Event, o: Origin, k: nat)
    requires Shape(y) && Sourced(y) && Enabled(y, e) && Shape(Apply(y, e)) && k < |Log(y, o)|
    ensures var y' := Apply(y, e);
      && (Has(Outgoing(y', o), o, k) ==> Has(Outgoing(y, o), o, k))
      && (Has(Queued(y'.up, o.stream), o, k) ==>
            Has(Queued(y.up, o.stream), o, k) || (e.Emit? && !e.lost && Has(Outgoing(y, o), o, k)))
      && (AtServer(y'.server, o, k) ==>
            (AtServer(y.server, o, k) && !(e.Deliver? && e.st == o.stream))
            || (e.Take? && Has(Queued(y.up, o.stream), o, k)))
      && (forall d: Stream :: Below(y', d, o, k) ==>
            Below(y, d, o, k) || (e.Deliver? && !e.lost && AtServer(y.server, o, k)))
  {
    var y' := Apply(y, e);
    if e.Deliver? { DeliveredWasAtServer(y, e, o, k); }
    hide Apply, Shape, Sourced, Enabled, Has, Outgoing, Queued, AtServer, Below, Log;
    if Has(Outgoing(y', o), o, k) { NewOutgoing(y, e, o, k); }
    if Has(Queued(y'.up, o.stream), o, k) { NewUp(y, e, o, k); }
    if AtServer(y'.server, o, k) { NewAtServer(y, e, o, k); }
    forall d: Stream | Below(y', d, o, k)
      ensures Below(y, d, o, k) || (e.Deliver? && !e.lost && AtServer(y.server, o, k))
    {
      NewBelow(y, e, d, o, k);
    }
  }

  /** In none of the places. */
  lemma NowhereIsDead(y: System, o: Origin, k: nat)
    requires Shape(y)
    ensures Live(y, o, k)
      <==> (Has(Outgoing(y, o), o, k) || Has(Queued(y.up, o.stream), o, k) || AtServer(y.server, o, k)
            || exists d: Stream :: Below(y, d, o, k))
  {
    hide Has, Outgoing, Incoming, Queued, AtServer;
    if ComingDown(y, o, k) {
      var d: Stream :| Has(Queued(y.down, d), o, k);
      assert Below(y, d, o, k);
    }
    if Arrived(y, o, k) {
      var d: Stream, h: nat :| Has(Incoming(y, d, h), o, k);
      assert Below(y, d, o, k);
    }
  }

  lemma StepKeepsDead(y: System, e: Event, o: Origin, k: nat)
    requires Shape(y) && Sourced(y) && Enabled(y, e) && Shape(Apply(y, e)) && k < |Log(y, o)| && !Live(y, o, k)
    ensures !Live(Apply(y, e), o, k)
  {
    hide Apply, Shape, Sourced, Enabled, Has, Outgoing, Queued, AtServer, Below, Log, Live;
    NowhereIsDead(y, o, k);
    NowhereIsDead(Apply(y, e), o, k);
    LiveAfter(y, e, o, k);
  }

  /** A chunk is dead once it is gone from the one place it was in. */
  lemma GoneIsDead(y: System, e: Event, o: Origin, k: nat)
    requires Inv(y) && Shape(y) && Sourced(y) && Single(y, o, k) && Enabled(y, e) && Shape(Apply(y, e))
    requires k < |Log(y, o)|
    requires var y' := Apply(y, e);
      || (Has(Outgoing(y, o), o, k) && !Has(Outgoing(y', o), o, k) && !(e.Emit? && !e.lost))
      || (Has(Queued(y.up, o.stream), o, k) && !Has(Queued(y'.up, o.stream), o, k) && !AtServer(y'.server, o, k))
      || (AtServer(y.server, o, k) && e.Deliver? && e.lost && e.st == o.stream)
      || (exists d: Stream :: Below(y, d, o, k) && !Below(y', d, o, k))
    ensures !Live(Apply(y, e), o, k)
  {
    hide Apply, Inv, Shape, Sourced, Enabled, Has, Outgoing, Queued, AtServer, Below, Log, Live;
    NowhereIsDead(Apply(y, e), o, k);
    LiveAfter(y, e, o, k);
    OnePlace(y, o, k);
  }

  /** A packet gone from the process that read it. */
  lemma GoneFromOutgoing(y: System, e: Event, o: Origin, k: nat, p: Packet)
    requires Inv(y) && Shape(y) && Sourced(y) && Single(y, o, k) && Enabled(y, e) && Shape(Apply(y, e))
    requires k < |Log(y, o)|
    requires Is(p, o, k) && !(e.Emit? && !e.lost)
    requires var rest := Outgoing(Apply(y, e), o); Outgoing(y, o) == [p] + rest || Outgoing(y, o) == rest + [p]
    ensures !Live(Apply(y, e), o, k) && Live(y, o, k)
  {
    hide *;
    var rest := Outgoing(Apply(y, e), o);
    StretchesAreOrdered(y, o, 0, 0);
    if Outgoing(y, o) == [p] + rest {
      HeadIsOnly(p, rest, Log(y, o), FromProxy(y, o), o, k);
    } else {
      LastIsOnly(p, rest, Log(y, o), FromProxy(y, o), o, k);
    }
    HasPart(rest, [p], o, k);
    HasPart([p], rest, o, k);
    HasOne(p, o, k);
    NowhereIsDead(y, o, k);
    GoneIsDead(y, e, o, k);
  }

  lemma PendingIsOwn(s: P.State, e: P.Event)
    requires P.Shape(s) && Carries(s) && P.Enabled(s, e) && (e.Drop? || e.Abandon?)
    ensures GivenUpInside(s, e).Some? && GivenUpInside(s, e).value.origin == Origin(s.stream, e.k)
  {
    assert P.WorkerFits(s, e.k) && LineFits(s, e.k);
  }

  lemma DropMoves(y: System, e: Event, o: Origin, k: nat) returns (p: Packet)
    requires Shape(y) && Enabled(y, e) && Shape(Apply(y, e)) && e.Internal? && (e.pe.Drop? || e.pe.Abandon?)
    requires Loses(y, e, o, k)
    ensures Is(p, o, k) && Outgoing(y, o) == Outgoing(Apply(y, e), o) + [p]
  {
    hide Apply, Shape, Enabled, P.Apply, P.Shape, P.Enabled, Carries, OutSide, GivenUpInside;
    InternalEffect(y, e);
    InsideStep(y, e);
    var s := y.procs[e.st];
    PendingIsOwn(s, e.pe);
    p := GivenUpInside(s, e.pe).value;
    assert GivenUp(y, e) == Some(p);
    OutSideGivesUp(s, e.pe, o.socket);
    ProcessStep(y, Apply(y, e), e.st, P.Apply(s, e.pe), o, 0, 0);
  }

  lemma LostEmissionMoves(y: System, e: Event, o: Origin, k: nat) returns (p: Packet)
    requires Shape(y) && Enabled(y, e) && Shape(Apply(y, e)) && e.Emit? && Loses(y, e, o, k)
    ensures Is(p, o, k) && e.lost && Outgoing(y, o) == [p] + Outgoing(Apply(y, e), o)
  {
    hide Apply, Shape, Enabled, Outgoing, OnlyAt, P.Shape, P.Image;
    EmitEffect(y, e);
    p := y.procs[e.st].outHand.value;
    assert e.lost && GivenUp(y, e) == Some(p);
    InsideStep(y, e);
    assert o.stream == e.st;
    EmissionMoves(y, e, o, 0, 0);
  }

  // ---- above the server

  /** A packet gone from the stream it was coming up. */
  lemma GoneFromUp(y: System, e: Event, o: Origin, k: nat)
    requires Inv(y) && Shape(y) && Sourced(y) && Single(y, o, k) && Enabled(y, e) && Shape(Apply(y, e))
    requires k < |Log(y, o)|
    requires var xs := Queued(y.up, o.stream);
      xs != [] && Is(xs[0], o, k) && Queued(Apply(y, e).up, o.stream) == xs[1..]
    requires !AtServer(Apply(y, e).server, o, k)
    ensures !Live(Apply(y, e), o, k) && Live(y, o, k)
  {
    hide *;
    var xs := Queued(y.up, o.stream);
    assert xs == [xs[0]] + xs[1..];
    StretchesAreOrdered(y, o, 0, 0);
    HeadIsOnly(xs[0], xs[1..], Log(y, o), FromProxy(y, o), o, k);
    HasPart([xs[0]], xs[1..], o, k);
    HasOne(xs[0], o, k);
    NowhereIsDead(y, o, k);
    GoneIsDead(y, e, o, k);
  }

  lemma LostUpMoves(y: System, e: Event, o: Origin, k: nat)
    requires Shape(y) && Sourced(y) && Enabled(y, e) && (e.LoseUp? || e.Take?) && Loses(y, e, o, k)
    requires Inv(y) && Single(y, o, k)
    ensures var xs := Queued(y.up, o.stream);
      xs != [] && Is(xs[0], o, k) && Queued(Apply(y, e).up, o.stream) == xs[1..]
    ensures !AtServer(Apply(y, e).server, o, k)
  {
    if e.Take? { TakeEffect(y, e); } else { LossEffect(y, e); }
    assert GivenUp(y, e) == Some(y.up[e.st][0]);
    assert y.up[e.st][0] in Queued(y.up, e.st);
    assert o.stream == e.st;
    hide Apply, Inv, Shape, Enabled, S.Apply, S.Shape, S.Enabled, Pop;
    PopPart(y.up, e.st, o.stream);
    if e.LoseUp? {
      HasHead(Queued(y.up, o.stream), o, k);
      OnePlace(y, o, k);
    }
  }

  lemma HasHead(xs: seq<Packet>, o: Origin, k: nat)
    ensures xs != [] && Is(xs[0], o, k) ==> Has(xs, o, k)
  {
  }

  /** A packet gone from the server. */
  lemma LostDelivery(y: System, e: Event, o: Origin, k: nat)
    requires Inv(y) && Shape(y) && Sourced(y) && Single(y, o, k) && Enabled(y, e) && Shape(Apply(y, e))
    requires k < |Log(y, o)|
    requires e.Deliver? && Loses(y, e, o, k)
    ensures !Live(Apply(y, e), o, k) && Live(y, o, k)
  {
    assert e.lost && Is(y.server.sessions[e.st].phase.call.pkt, o, k);
    DeliveredWasAtServer(y, e, o, k);
    hide *;
    GoneIsDead(y, e, o, k);
    NowhereIsDead(y, o, k);
  }

  // ---- below the server

  /** A packet gone from the stream it was coming down, or from the process at its end. */
  lemma GoneFromBelow(y: System, e: Event, o: Origin, k: nat, d: Stream)
    requires Inv(y) && Shape(y) && Sourced(y) && Single(y, o, k) && Enabled(y, e) && Shape(Apply(y, e))
    requires k < |Log(y, o)|
    requires Below(y, d, o, k) && !Below(Apply(y, e), d, o, k)
    ensures !Live(Apply(y, e), o, k) && Live(y, o, k)
  {
    hide *;
    NowhereIsDead(y, o, k);
    GoneIsDead(y, e, o, k);
  }

  lemma HeadComingDown(y: System, o: Origin, k: nat, d: Stream)
    requires Inv(y) && Shape(y) && Queued(y.down, d) != [] && Is(Queued(y.down, d)[0], o, k)
    ensures Below(y, d, o, k) && !Has(Queued(y.down, d)[1..], o, k)
    ensures forall h: nat :: !Has(Incoming(y, d, h), o, k)
  {
    var xs := Queued(y.down, d);
    HasHead(xs, o, k);
    assert xs == [xs[0]] + xs[1..];
    hide Inv, Shape, Queued, Incoming, Has, Is, Log, FromProxy, Ordered, Of;
    forall h: nat ensures !Has(Incoming(y, d, h), o, k) { OrderExcludes(y, o, d, h, k); }
    StretchesAreOrdered(y, o, d, 0);
    HeadIsOnly(xs[0], xs[1..], Log(y, o), FromProxy(y, o), o, k);
  }

  lemma LostComingDown(y: System, e: Event, o: Origin, k: nat)
    requires Inv(y) && Shape(y) && Sourced(y) && Single(y, o, k) && Enabled(y, e) && Shape(Apply(y, e))
    requires k < |Log(y, o)|
    requires (e.LoseDown? || e.Arrive?) && Loses(y, e, o, k)
    ensures !Live(Apply(y, e), o, k) && Live(y, o, k)
  {
    var d, y' := e.st, Apply(y, e);
    LostDownMoves(y, e, o, k);
    hide Apply, Inv, Shape, Sourced, Enabled, Single, Loses, Log, Live, Queued, Incoming, Is, Has;
    HeadComingDown(y, o, k, d);
    GoneFromBelow(y, e, o, k, d);
  }

  lemma LostDownMoves(y: System, e: Event, o: Origin, k: nat)
    requires Shape(y) && Enabled(y, e) && Shape(Apply(y, e)) && (e.LoseDown? || e.Arrive?) && Loses(y, e, o, k)
    ensures var xs := Queued(y.down, e.st);
      xs != [] && Is(xs[0], o, k) && Queued(Apply(y, e).down, e.st) == xs[1..]
    ensures forall h: nat :: Incoming(Apply(y, e), e.st, h) == Incoming(y, e.st, h)
  {
    if e.Arrive? { ArriveEffect(y, e); } else { LossEffect(y, e); }
    assert GivenUp(y, e) == Some(y.down[e.st][0]);
    hide Apply, Shape, Enabled, Pop, Incoming;
    PopPart(y.down, e.st, e.st);
    forall h: nat ensures Incoming(Apply(y, e), e.st, h) == Incoming(y, e.st, h) {
      if e.Arrive? { UnwantedStaysOut(y, e, o, k, h); } else { SameProcs(y, Apply(y, e), o, e.st, h); }
    }
  }

  lemma UnwantedStaysOut(y: System, e: Event, o: Origin, k: nat, h: nat)
    requires Shape(y) && Enabled(y, e) && Shape(Apply(y, e)) && e.Arrive? && Loses(y, e, o, k)
    ensures Incoming(Apply(y, e), e.st, h) == Incoming(y, e.st, h)
  {
    ArriveEffect(y, e);
    InsideStep(y, e);
    var s, pe := y.procs[e.st], P.Receive(y.down[e.st][0], e.dials);
    assert Homeless(s, y.down[e.st][0], e.dials);
    hide Apply, Shape, Enabled, P.Enabled, P.Shape, Carries, InSide, Loses;
    ProcessStep(y, Apply(y, e), e.st, P.Apply(s, pe), o, e.st, h);
    UnwantedStaysOutside(s, y.down[e.st][0], e.dials, h);
  }

  lemma UnwantedStaysOutside(s: P.State, pkt: Packet, dials: bool, h: nat)
    requires P.Shape(s) && P.Enabled(s, P.Receive(pkt, dials)) && Homeless(s, pkt, dials)
    requires P.Shape(P.Apply(s, P.Receive(pkt, dials)))
    ensures InSide(P.Apply(s, P.Receive(pkt, dials)), h) == InSide(s, h)
  {
    WrittenKept(s, P.Receive(pkt, dials), h);
    hide P.TableAfter, P.WorkersAfter, P.LinesAfter, P.Shape, P.Enabled;
  }

  lemma FailedWriteMoves(y: System, e: Event, o: Origin, k: nat) returns (h: nat, p: Packet)
    requires Shape(y) && Enabled(y, e) && Shape(Apply(y, e)) && e.Internal? && e.pe.WriteFails? && Loses(y, e, o, k)
    ensures Is(p, o, k) && Incoming(y, e.st, h) == Incoming(Apply(y, e), e.st, h) + [p]
    ensures Apply(y, e).down == y.down
  {
    InternalEffect(y, e);
    InsideStep(y, e);
    var s := y.procs[e.st];
    assert s.inHand.Touched?;
    h := P.Target(s);
    p := s.inHand.pkt;
    assert GivenUp(y, e) == Some(p) && Handed(s, h) == [p];
    hide Apply, Shape, Enabled, P.Apply, P.Enabled, P.Shape, Carries, InSide, Handed;
    ProcessStep(y, Apply(y, e), e.st, P.Apply(s, e.pe), o, e.st, h);
    InSideFails(s, h);
  }

  lemma LostInWriting(y: System, e: Event, o: Origin, k: nat)
    requires Inv(y) && Shape(y) && Sourced(y) && Single(y, o, k) && Enabled(y, e) && Shape(Apply(y, e))
    requires k < |Log(y, o)|
    requires e.Internal? && e.pe.WriteFails? && Loses(y, e, o, k)
    ensures !Live(Apply(y, e), o, k) && Live(y, o, k)
  {
    var d, y' := e.st, Apply(y, e);
    var h, p := FailedWriteMoves(y, e, o, k);
    hide Apply, Inv, Shape, Sourced, Enabled, Loses, Log, FromProxy;
    hide Live, Queued, Incoming, Is, Has, Ordered, Of, AtServer;
    HasPart(Incoming(y', d, h), [p], o, k);
    HasOne(p, o, k);
    StretchesAreOrdered(y, o, d, h);
    LastIsOnly(p, Incoming(y', d, h), Log(y, o), FromProxy(y, o), o, k);
    OrderExcludes(y, o, d, h, k);
    forall g: nat ensures !Has(Incoming(y', d, g), o, k) {
      if Has(Incoming(y', d, g), o, k) { StillIncoming(y, e, d, g, o, k); }
    }
    GoneFromBelow(y, e, o, k, d);
  }

  lemma StillIncoming(y: System, e: Event, d: Stream, g: nat, o: Origin, k: nat)
    requires Shape(y) && Enabled(y, e) && Shape(Apply(y, e)) && !e.Arrive? && Has(Incoming(Apply(y, e), d, g), o, k)
    ensures Has(Incoming(y, d, g), o, k)
  {
    hide Apply, Shape, Enabled, Incoming, Queued;
    IncomingSources(y, e, d, g);
  }

  // ---------------------------------------------------------------- over whole runs

  /** A step that gives a chunk up finds it alive and leaves it dead. */
  lemma StepKillsLost(y: System, e: Event, o: Origin, k: nat)
    requires Inv(y) && Shape(y) && Sourced(y) && Single(y, o, k) && Enabled(y, e) && Shape(Apply(y, e))
    requires k < |Log(y, o)|
    requires Loses(y, e, o, k)
    ensures !Live(Apply(y, e), o, k) && Live(y, o, k)
  {
    assert e.Internal? ==> e.pe.Drop? || e.pe.Abandon? || e.pe.WriteFails?;
    assert !e.Start? && !e.Relay?;
    hide *;
    match e
    case Internal(_, pe) =>
      if pe.WriteFails? {
        LostInWriting(y, e, o, k);
      } else {
        var p := DropMoves(y, e, o, k);
        GoneFromOutgoing(y, e, o, k, p);
      }
    case Emit(_, _) => var p := LostEmissionMoves(y, e, o, k); GoneFromOutgoing(y, e, o, k, p);
    case Arrive(_, _) => LostComingDown(y, e, o, k);
    case Take(_, _) => LostUpMoves(y, e, o, k); GoneFromUp(y, e, o, k);
    case Deliver(_, _) => LostDelivery(y, e, o, k);
    case LoseUp(_) => LostUpMoves(y, e, o, k); GoneFromUp(y, e, o, k);
    case LoseDown(_) => LostComingDown(y, e, o, k);
    case Start(_, _, _) => assert false;
    case Relay(_) => assert false;
  }

  lemma OrderedIsLogged(xs: seq<Packet>, log: seq<Packet>, exact: bool, o: Origin, k: nat)
    requires Ordered(Of(xs, o), log, exact) && Has(xs, o, k)
    ensures k < |log|
  {
    OfHas(xs, o, k);
    hide Of, Replay;
    var p :| p in Of(xs, o) && Is(p, o, k);
    assert Faithful(p, log, exact);
  }

  lemma LiveIsLogged(y: System, o: Origin, k: nat)
    requires Inv(y) && Shape(y) && Live(y, o, k)
    ensures k < |Log(y, o)|
  {
    hide Inv, Shape, Has, Outgoing, Queued, Incoming, Relayed, Log, FromProxy, Ordered, Of, AtServer, Live;
    NowhereIsDead(y, o, k);
    var log, exact := Log(y, o), FromProxy(y, o);
    StretchesAreOrdered(y, o, 0, 0);
    if Has(Outgoing(y, o), o, k) {
      OrderedIsLogged(Outgoing(y, o), log, exact, o, k);
    } else if Has(Queued(y.up, o.stream), o, k) {
      OrderedIsLogged(Queued(y.up, o.stream), log, exact, o, k);
    } else if AtServer(y.server, o, k) {
      var d := AtServerIsRelayed(y, o, k);
      PartIsOrdered(y, o, d, 0, 2);
      OrderedIsLogged(Relayed(y.server, o.stream, d), log, exact, o, k);
    } else {
      var d: Stream :| Below(y, d, o, k);
      StretchesAreOrdered(y, o, d, 0);
      if Has(Queued(y.down, d), o, k) {
        OrderedIsLogged(Queued(y.down, d), log, exact, o, k);
      } else {
        var h: nat :| Has(Incoming(y, d, h), o, k);
        StretchesAreOrdered(y, o, d, h);
        OrderedIsLogged(Incoming(y, d, h), log, exact, o, k);
      }
    }
  }

  /** Only what is alive can be given up. */
  lemma LosesIsLive(y: System, e: Event, o: Origin, k: nat)
    requires Inv(y) && Shape(y) && Sourced(y) && Single(y, o, k) && Enabled(y, e) && Shape(Apply(y, e))
    requires Loses(y, e, o, k)
    ensures Live(y, o, k)
  {
    assert e.Internal? ==> e.pe.Drop? || e.pe.Abandon? || e.pe.WriteFails?;
    assert !e.Start? && !e.Relay?;
    assert e.Deliver? ==> Is(y.server.sessions[e.st].phase.call.pkt, o, k);
    hide Inv, Shape, Sourced, Single, Enabled, Apply, Loses, Has, Is, Outgoing, Queued, Incoming, AtServer, Live;
    NowhereIsDead(y, o, k);
    match e
    case Internal(st, pe) =>
      if pe.WriteFails? {
        var h, p := FailedWriteMoves(y, e, o, k);
        HasPart(Incoming(Apply(y, e), st, h), [p], o, k);
        HasOne(p, o, k);
        assert Below(y, st, o, k);
      } else {
        var p := DropMoves(y, e, o, k);
        HasPart(Outgoing(Apply(y, e), o), [p], o, k);
        HasOne(p, o, k);
      }
    case Emit(_, _) =>
      var p := LostEmissionMoves(y, e, o, k);
      HasPart([p], Outgoing(Apply(y, e), o), o, k);
      HasOne(p, o, k);
    case Arrive(st, _) => LostDownMoves(y, e, o, k); HasHead(Queued(y.down, st), o, k); assert Below(y, st, o, k);
    case Take(_, _) => LostUpMoves(y, e, o, k); HasHead(Queued(y.up, o.stream), o, k);
    case Deliver(_, _) => DeliveredWasAtServer(y, e, o, k);
    case LoseUp(_) => LostUpMoves(y, e, o, k); HasHead(Queued(y.up, o.stream), o, k);
    case LoseDown(st) => LostDownMoves(y, e, o, k); HasHead(Queued(y.down, st), o, k); assert Below(y, st, o, k);
    case Start(_, _, _) => assert false;
    case Relay(_) => assert false;
  }

  /** The `i`-th step gives the chunk up. */
  ghost predicate GivenUpAt(states: seq<System>, events: seq<Event>, i: nat, o: Origin, k: nat) {
    && i < |events| && i < |states| && Shape(states[i]) && Enabled(states[i], events[i])
    && Loses(states[i], events[i], o, k)
  }

  /** Of the first `n` steps none gives the chunk up and it is alive, if it has been read yet; or
      exactly one has given it up, and it is dead. */
  ghost predicate Fated(states: seq<System>, events: seq<Event>, n: nat, o: Origin, k: nat)
    requires n < |states| && Shape(states[n])
  {
    && (k < |Log(states[n], o)| ==>
          (Live(states[n], o, k) <==> forall i: nat :: i < n ==> !GivenUpAt(states, events, i, o, k)))
    && (forall i: nat :: i < n && GivenUpAt(states, events, i, o, k) ==> k < |Log(states[n], o)|)
    && (forall i: nat, j: nat ::
          i < n && j < n && GivenUpAt(states, events, i, o, k) && GivenUpAt(states, events, j, o, k) ==>
          i == j)
  }

  lemma LogGrows(y: System, e: Event, o: Origin)
    requires Shape(y) && Enabled(y, e) && Shape(Apply(y, e))
    ensures |Log(y, o)| <= |Log(Apply(y, e), o)| <= |Log(y, o)| + 1
  {
    hide Apply, Shape, Enabled, Log;
    LogStep(y, e, o);
  }

  /** What one step does to a chunk. */
  lemma FateOfStep(y: System, e: Event, o: Origin, k: nat)
    requires Inv(y) && Shape(y) && Sourced(y) && Single(y, o, k) && Enabled(y, e) && Shape(Apply(y, e))
    ensures |Log(y, o)| <= |Log(Apply(y, e), o)|
    ensures Loses(y, e, o, k) ==> k < |Log(y, o)| && Live(y, o, k) && !Live(Apply(y, e), o, k)
    ensures !Loses(y, e, o, k) && k < |Log(y, o)| ==> (Live(Apply(y, e), o, k) <==> Live(y, o, k))
    ensures |Log(y, o)| <= k < |Log(Apply(y, e), o)| ==> Live(Apply(y, e), o, k)
  {
    hide *;
    LogGrows(y, e, o);
    if Loses(y, e, o, k) {
      LosesIsLive(y, e, o, k);
      LiveIsLogged(y, o, k);
      StepKillsLost(y, e, o, k);
    } else if k < |Log(y, o)| {
      if Live(y, o, k) { StepKeepsLive(y, e, o, k); } else { StepKeepsDead(y, e, o, k); }
    }
    if |Log(y, o)| <= k < |Log(Apply(y, e), o)| { NewChunkIsLive(y, e, o, k); }
  }

  lemma GivenUpNow(states: seq<System>, events: seq<Event>, n: nat, o: Origin, k: nat)
    requires n < |events| && n < |states| && Shape(states[n]) && Enabled(states[n], events[n])
    ensures GivenUpAt(states, events, n, o, k) <==> Loses(states[n], events[n], o, k)
  {
    hide Shape, Enabled, Loses;
  }

  lemma FateGoesOn(states: seq<System>, events: seq<Event>, n: nat, o: Origin, k: nat)
    requires n < |events| && |states| == |events| + 1
    requires Inv(states[n]) && Shape(states[n]) && Sourced(states[n]) && Single(states[n], o, k)
    requires Enabled(states[n], events[n]) && states[n + 1] == Apply(states[n], events[n]) && Shape(states[n + 1])
    requires Fated(states, events, n, o, k)
    ensures Fated(states, events, n + 1, o, k)
  {
    hide Apply, Inv, Shape, Sourced, Single, Enabled, Loses, Live, Log, GivenUpAt;
    GivenUpNow(states, events, n, o, k);
    FateOfStep(states[n], events[n], o, k);
  }

  lemma NewChunkIsLive(y: System, e: Event, o: Origin, k: nat)
    requires Shape(y) && Enabled(y, e) && Shape(Apply(y, e)) && |Log(y, o)| <= k < |Log(Apply(y, e), o)|
    ensures Live(Apply(y, e), o, k)
  {
    hide Apply, Shape, Enabled, Log, Live;
    LogStep(y, e, o);
    JoinedIsLive(Apply(y, e), o, k);
  }

  lemma {:induction false} RunKeepsFate(states: seq<System>, events: seq<Event>, n: nat, o: Origin, k: nat)
    requires Run(states, events) && n < |states|
    ensures Shape(states[n]) && Fated(states, events, n, o, k)
  {
    hide Inv, Shape, Sourced, Enabled, Apply, Init, Single, Log, Live, GivenUpAt;
    RunKeepsSingle(states, events, n, o, k);
    if n == 0 {
      NothingLogged(states[0].server.clock, o);
    } else {
      RunKeepsFate(states, events, n - 1, o, k);
      RunKeepsSingle(states, events, n - 1, o, k);
      assert states[n - 1 + 1] == Apply(states[n - 1], events[n - 1]);
      InvHolds(states[n - 1], states[n]);
      FateGoesOn(states, events, n - 1, o, k);
    }
  }

  lemma NothingLogged(clock: Time, o: Origin)
    ensures Log(Init(clock), o) == []
  {
  }

  /** In every state of every run, a chunk that has been read is alive exactly when no step so
      far has given it up, and no two steps give it up. */
  lemma ExactlyOneFate(states: seq<System>, events: seq<Event>, n: nat, o: Origin, k: nat)
    requires Run(states, events) && n < |states| && Shape(states[n]) && k < |Log(states[n], o)|
    ensures Live(states[n], o, k) <==> forall i: nat :: i < n ==> !GivenUpAt(states, events, i, o, k)
    ensures forall i: nat, j: nat ::
      i < n && j < n && GivenUpAt(states, events, i, o, k) && GivenUpAt(states, events, j, o, k) ==>
      i == j
  {
    RunKeepsFate(states, events, n, o, k);
  }

  // ---------------------------------------------------------------- written or given up

  lemma WrittenExtends(s: P.State, e: P.Event, h: nat)
    requires P.Shape(s) && P.Enabled(s, e) && h < |s.lines|
    ensures h < |P.Apply(s, e).lines| && s.lines[h].written <= P.Apply(s, e).lines[h].written
  {
    if !e.Write? { WrittenKept(s, e, h); }
  }

  lemma StepKeepsWritten(y: System, e: Event, d: Stream, h: nat, o: Origin, k: nat)
    requires Shape(y) && Enabled(y, e) && Shape(Apply(y, e)) && Has(Written(y, d, h), o, k)
    ensures Has(Written(Apply(y, e), d, h), o, k)
  {
    InsideStep(y, e);
    assert d in y.procs && h < |y.procs[d].lines|;
    hide Shape, Enabled, P.Apply, P.Shape, P.Enabled, Carries, Has;
    if Inside(y, e).Some? && Inside(y, e).value.0 == d {
      var pe := Inside(y, e).value.1;
      WrittenExtends(y.procs[d], pe, h);
      hide Apply;
      HasPrefix(Written(y, d, h), Written(Apply(y, e), d, h), o, k);
    } else if e.Start? {
      StartedElsewhere(y, e, d);
    }
  }

  lemma StartedElsewhere(y: System, e: Event, d: Stream)
    requires Shape(y) && Enabled(y, e) && e.Start? && d in y.procs
    ensures d in Apply(y, e).procs && Apply(y, e).procs[d] == y.procs[d]
  {
    hide P.Init, P.Shape, Carries;
  }

  lemma {:induction false} RunKeepsWritten(
      states: seq<System>, events: seq<Event>, n: nat, m: nat, d: Stream, h: nat, o: Origin, k: nat)
    requires Run(states, events) && n <= m < |states| && Has(Written(states[n], d, h), o, k)
    ensures Has(Written(states[m], d, h), o, k)
    decreases m
  {
    hide Inv, Shape, Enabled, Apply, Init, Written, Has;
    if n < m {
      RunKeepsWritten(states, events, n, m - 1, d, h, o, k);
      RunKeepsInv(states, events, m - 1);
      RunKeepsInv(states, events, m);
      InvHolds(states[m - 1], states[m]);
      assert states[m - 1 + 1] == Apply(states[m - 1], events[m - 1]);
      StepKeepsWritten(states[m - 1], events[m - 1], d, h, o, k);
    }
  }

  lemma WrittenIsLive(y: System, d: Stream, h: nat, o: Origin, k: nat)
    requires Shape(y) && Has(Written(y, d, h), o, k)
    ensures Live(y, o, k)
  {
    var p :| p in Written(y, d, h) && Is(p, o, k);
    WrittenIsIncoming(y, d, h, p);
    assert Has(Incoming(y, d, h), o, k);
    hide Incoming, Written, Shape;
  }

  /** A chunk that some step gives up is not written to any socket, before or after. */
  lemma GivenUpIsNeverWritten(
      states: seq<System>, events: seq<Event>, i: nat, n: nat, o: Origin, k: nat, d: Stream, h: nat)
    requires Run(states, events) && n < |states| && GivenUpAt(states, events, i, o, k)
    ensures !Has(Written(states[n], d, h), o, k)
  {
    var m := if n <= i then i + 1 else n;
    RunKeepsFate(states, events, m, o, k);
    hide Shape, Live, Written, Has, Log, GivenUpAt;
    if Has(Written(states[n], d, h), o, k) {
      RunKeepsWritten(states, events, n, m, d, h, o, k);
      WrittenIsLive(states[m], d, h, o, k);
    }
  }

  /** Once the system is quiet, a chunk has been written exactly when no step gave it up. */
  lemma WrittenExactly(states: seq<System>, events: seq<Event>, n: nat, o: Origin, k: nat)
    requires Run(states, events) && n < |states| && Shape(states[n]) && Quiet(states[n]) && k < |Log(states[n], o)|
    ensures (exists d: Stream, h: nat :: Has(Written(states[n], d, h), o, k))
      <==> (forall i: nat :: i < n ==> !GivenUpAt(states, events, i, o, k))
  {
    hide Shape, Quiet, Live, Written, Has, Log, GivenUpAt;
    ExactlyOneFate(states, events, n, o, k);
    if d: Stream, h: nat :| Has(Written(states[n], d, h), o, k) { WrittenIsLive(states[n], d, h, o, k); }
    if Live(states[n], o, k) { QuietMeansWritten(states[n], o, k); }
  }

  // ---------------------------------------------------------------- complete delivery

  lemma {:induction false} SerialAtLeast(xs: seq<Packet>, log: seq<Packet>, exact: bool, i: nat)
    requires Ordered(xs, log, exact) && i < |xs|
    ensures xs[i].serial >= i
  {
    if i > 0 { SerialAtLeast(xs, log, exact, i - 1); }
  }

  lemma {:induction false} SerialIsPlace(xs: seq<Packet>, log: seq<Packet>, exact: bool, o: Origin, i: nat)
    requires Ordered(xs, log, exact) && (forall k: nat :: k < |log| ==> Has(xs, o, k)) && i < |log|
    ensures i < |xs| && xs[i].serial == i
    decreases i
  {
    hide Faithful;
    assert Has(xs, o, i);
    var p :| p in xs && Is(p, o, i);
    var j :| 0 <= j < |xs| && xs[j] == p;
    SerialAtLeast(xs, log, exact, j);
    if j < i { SerialIsPlace(xs, log, exact, o, j); }
  }

  /** What is in order and has everything is everything, in order. */
  lemma CoveringIsWhole(xs: seq<Packet>, log: seq<Packet>, exact: bool, o: Origin)
    requires Ordered(xs, log, exact) && forall k: nat :: k < |log| ==> Has(xs, o, k)
    ensures if exact then xs == log else Envelopes(xs) == Envelopes(log)
  {
    assert |xs| == |log| by {
      hide Faithful;
      if |xs| > |log| {
        SerialAtLeast(xs, log, exact, |log|);
        SerialIsInLog(xs[|log|], log, exact);
      }
      if |log| > 0 { SerialIsPlace(xs, log, exact, o, |log| - 1); }
    }
    forall i | 0 <= i < |xs| ensures if exact then xs[i] == log[i] else Envelope(xs[i]) == Envelope(log[i]) {
      SerialIsPlace(xs, log, exact, o, i);
      hide Replay;
      assert Faithful(xs[i], log, exact);
      assert SameIdentity(xs[i], log[i]);
    }
  }

  lemma SerialIsInLog(p: Packet, log: seq<Packet>, exact: bool)
    requires Faithful(p, log, exact)
    ensures p.serial < |log|
  {
  }

  /** Nothing read from `o` was given up, and all of it that was written went to one socket. */
  ghost predicate Undisturbed(states: seq<System>, events: seq<Event>, n: nat, o: Origin, d: Stream, h: nat)
    requires n < |states|
  {
    && (forall i: nat, k: nat :: i < n ==> !GivenUpAt(states, events, i, o, k))
    && (forall d': Stream, h': nat, k: nat :: Has(Written(states[n], d', h'), o, k) ==> d' == d && h' == h)
  }

  /** Then, once the system is quiet, that socket has received exactly what was read: byte for
      byte from a proxy's reader, but for the bytes from a client's handler. */
  lemma DeliveryIsComplete(states: seq<System>, events: seq<Event>, n: nat, o: Origin, d: Stream, h: nat)
    requires Run(states, events) && n < |states| && Shape(states[n]) && Quiet(states[n])
    requires Undisturbed(states, events, n, o, d, h)
    ensures var xs, log := Of(Written(states[n], d, h), o), Log(states[n], o);
      if FromProxy(states[n], o) then xs == log else Envelopes(xs) == Envelopes(log)
  {
    var y := states[n];
    var xs, log := Of(Written(y, d, h), o), Log(y, o);
    hide Shape, Quiet, Written, Has, Log, FromProxy, GivenUpAt, Of, Ordered, Inv;
    RunKeepsInv(states, events, n);
    WrittenIsOrdered(y, o, d, h);
    forall k: nat | k < |log| ensures Has(xs, o, k) {
      WrittenExactly(states, events, n, o, k);
      OfHas(Written(y, d, h), o, k);
    }
    CoveringIsWhole(xs, log, FromProxy(y, o), o);
  }
}
