/** No chunk is delivered twice: in every state of every run of the whole system, it is written
    to one socket at most, of one process at most. */
module Once {
  import opened Wire
  import opened Pipeline
  import opened Carriage
  import opened EndToEnd
  import opened Delivery
  import opened Direction
  import opened Losses
  import P = Process
  import S = Server

  /** The `k`-th chunk of `o` is coming down stream `d`, or has come down. */
  ghost predicate Below(y: System, d: Stream, o: Origin, k: nat)
    requires Shape(y)
  {
    Has(Queued(y.down, d), o, k) || exists h: nat :: Has(Incoming(y, d, h), o, k)
  }

  /** It has not come down while it is at the server, it comes down one stream only, and in the
      process at its end it goes to one socket only. */
  ghost predicate Single(y: System, o: Origin, k: nat)
    requires Shape(y)
  {
    && (AtServer(y.server, o, k) ==> forall d: Stream :: !Below(y, d, o, k))
    && (forall d: Stream, d': Stream :: Below(y, d, o, k) && Below(y, d', o, k) ==> d == d')
    && (forall d: Stream, h: nat, h': nat :: Has(Incoming(y, d, h), o, k) && Has(Incoming(y, d, h'), o, k) ==> h == h')
  }

  // ---------------------------------------------------------------- what order excludes

  lemma OrderedParts(a: seq<Packet>, b: seq<Packet>, log: seq<Packet>, exact: bool, o: Origin, k: nat)
    requires Ordered(a + b, log, exact) && Has(a, o, k)
    ensures !Has(b, o, k)
  {
    hide Faithful;
    var xs := a + b;
    assert forall i :: 0 <= i < |a| ==> xs[i] == a[i];
    assert forall j :: |a| <= j < |xs| ==> xs[j] == b[j - |a|];
    var p :| p in a && Is(p, o, k);
    var i :| 0 <= i < |a| && xs[i] == p;
    forall q | q in b ensures q.serial != k {
      var j :| 0 <= j < |b| && b[j] == q;
      assert xs[|a| + j] == q;
    }
  }

  lemma OfHas(xs: seq<Packet>, o: Origin, k: nat)
    ensures Has(Of(xs, o), o, k) <==> Has(xs, o, k)
  {
    if Has(xs, o, k) {
      var p :| p in xs && Is(p, o, k);
      KeepsMember(xs, p);
    }
  }

  lemma PipeMeetsAtServer(y: System, o: Origin, d: Stream, h: nat)
    requires Shape(y)
    ensures Pipe(y, o, d, h) == (Of(Incoming(y, d, h), o) + Of(Queued(y.down, d), o))
      + (Of(Relayed(y.server, o.stream, d), o) + Of(Queued(y.up, o.stream), o) + Of(Outgoing(y, o), o))
  {
    hide Of, Incoming, Outgoing, Queued, Relayed, Shape;
  }

  lemma LastExcludes(
      i: seq<Packet>, n: seq<Packet>, r: seq<Packet>, u: seq<Packet>, out: seq<Packet>,
      log: seq<Packet>, exact: bool, o: Origin, k: nat)
    requires Ordered((i + n) + (r + u + out), log, exact) && Has(u, o, k)
    ensures !Has(i, o, k) && !Has(n, o, k)
  {
    hide *;
    HasPart(i, n, o, k);
    HasPart(r, u, o, k);
    HasPart(r + u, out, o, k);
    if Has(i + n, o, k) { OrderedParts(i + n, r + u + out, log, exact, o, k); }
  }

  lemma SecondExcludes(
      i: seq<Packet>, n: seq<Packet>, rest: seq<Packet>, log: seq<Packet>, exact: bool, o: Origin, k: nat)
    requires Ordered((i + n) + rest, log, exact) && Has(n, o, k)
    ensures !Has(i, o, k)
  {
    hide *;
    assert (i + n) + rest == i + (n + rest);
    HasPart(n, rest, o, k);
    if Has(i, o, k) { OrderedParts(i, n + rest, log, exact, o, k); }
  }

  /** What is still coming up a stream has not come down to a socket, and what is still coming
      down one is not in the process at its end. */
  lemma OrderExcludes(y: System, o: Origin, d: Stream, h: nat, k: nat)
    requires Inv(y) && Shape(y)
    ensures Has(Queued(y.up, o.stream), o, k) ==> !Has(Queued(y.down, d), o, k) && !Has(Incoming(y, d, h), o, k)
    ensures Has(Queued(y.down, d), o, k) ==> !Has(Incoming(y, d, h), o, k)
  {
    assert InOrder(y, o, d, h);
    assert Ordered(Pipe(y, o, d, h), Log(y, o), FromProxy(y, o));
    hide Inv, Shape, Of, Has, Incoming, Queued, Relayed, Outgoing, Pipe, Ordered, Log, FromProxy, InOrder;
    PipeMeetsAtServer(y, o, d, h);
    var i, n := Of(Incoming(y, d, h), o), Of(Queued(y.down, d), o);
    var r, u, out := Of(Relayed(y.server, o.stream, d), o), Of(Queued(y.up, o.stream), o), Of(Outgoing(y, o), o);
    OfHas(Incoming(y, d, h), o, k);
    OfHas(Queued(y.down, d), o, k);
    OfHas(Queued(y.up, o.stream), o, k);
    if Has(u, o, k) { LastExcludes(i, n, r, u, out, Log(y, o), FromProxy(y, o), o, k); }
    if Has(n, o, k) { SecondExcludes(i, n, r + u + out, Log(y, o), FromProxy(y, o), o, k); }
  }

  lemma UpIsNotBelow(y: System, o: Origin, d: Stream, k: nat)
    requires Inv(y) && Shape(y) && Has(Queued(y.up, o.stream), o, k)
    ensures !Below(y, d, o, k)
  {
    hide Inv, Shape, Has, Incoming, Queued;
    OrderExcludes(y, o, d, 0, k);
    forall h: nat ensures !Has(Incoming(y, d, h), o, k) { OrderExcludes(y, o, d, h, k); }
  }

  // ---------------------------------------------------------------- what steps add

  lemma NewBelow(y: System, e: Event, d: Stream, o: Origin, k: nat)
    requires Shape(y) && Enabled(y, e) && Shape(Apply(y, e)) && Below(Apply(y, e), d, o, k)
    ensures Below(y, d, o, k)
      || (e.Deliver? && !e.lost && d == y.server.sessions[e.st].phase.call.dest
          && Is(y.server.sessions[e.st].phase.call.pkt, o, k))
  {
    var y' := Apply(y, e);
    hide Apply, Shape, Enabled, Incoming, Queued;
    if Has(Queued(y'.down, d), o, k) {
      DownSources(y, e, d);
    } else {
      var h: nat :| Has(Incoming(y', d, h), o, k);
      IncomingSources(y, e, d, h);
    }
  }

  /** One receive adds to one socket's side at most. */
  lemma ReceivesOnce(s: P.State, pkt: Packet, dials: bool, h: nat, h': nat)
    requires P.Shape(s) && P.Enabled(s, P.Receive(pkt, dials)) && P.Shape(P.Apply(s, P.Receive(pkt, dials)))
    requires InSide(P.Apply(s, P.Receive(pkt, dials)), h) != InSide(s, h)
    requires InSide(P.Apply(s, P.Receive(pkt, dials)), h') != InSide(s, h')
    ensures h == h'
  {
    HandedReceives(s, pkt, dials, h);
    HandedReceives(s, pkt, dials, h');
    WrittenKept(s, P.Receive(pkt, dials), h);
    WrittenKept(s, P.Receive(pkt, dials), h');
  }

  lemma ArrivesOnce(y: System, e: Event, d: Stream, h: nat, h': nat)
    requires Shape(y) && Enabled(y, e) && Shape(Apply(y, e)) && e.Arrive?
    requires Incoming(Apply(y, e), d, h) != Incoming(y, d, h) && Incoming(Apply(y, e), d, h') != Incoming(y, d, h')
    ensures h == h'
  {
    var s, p, y' := y.procs[e.st], y.down[e.st][0], Apply(y, e);
    InsideStep(y, e);
    var s' := P.Apply(s, P.Receive(p, e.dials));
    ProcessStep(y, y', e.st, s', Origin(0, 0), d, h);
    ProcessStep(y, y', e.st, s', Origin(0, 0), d, h');
    hide P.Apply, P.Shape, P.Enabled, Carries, S.Shape, InSide, Incoming, Apply;
    if e.st == d { ReceivesOnce(s, p, e.dials, h, h'); }
  }

  // ---------------------------------------------------------------- over whole runs

  /** At the server: what a session has just taken was coming up until then. */
  lemma NewAtServer(y: System, e: Event, o: Origin, k: nat)
    requires Shape(y) && Enabled(y, e) && AtServer(Apply(y, e).server, o, k)
    ensures (AtServer(y.server, o, k) && !(e.Deliver? && e.st == o.stream))
      || (e.Take? && Has(Queued(y.up, o.stream), o, k))
  {
    hide P.Shape, P.Apply, P.Enabled, Carries, S.Shape, S.Enabled;
    match e
    case Relay(se) => RelayKeepsCalls(y.server, se);
    case Take(st, choice) =>
      hide S.Apply;
      ReceiveTakesCall(y.server, st, y.up[st][0], choice);
      if st == o.stream { assert y.up[st][0] in Queued(y.up, st); }
    case Deliver(st, _) => RelayKeepsCalls(y.server, S.Sent(st));
    case _ =>
  }

  lemma DeliveredWasAtServer(y: System, e: Event, o: Origin, k: nat)
    requires Shape(y) && Sourced(y) && Enabled(y, e) && e.Deliver?
    ensures Is(y.server.sessions[e.st].phase.call.pkt, o, k) ==> e.st == o.stream && AtServer(y.server, o, k)
  {
  }

  lemma StepKeepsSingle(y: System, e: Event, o: Origin, k: nat)
    requires Inv(y) && Shape(y) && Sourced(y) && Enabled(y, e) && Shape(Apply(y, e)) && Single(y, o, k)
    ensures Single(Apply(y, e), o, k)
  {
    var y' := Apply(y, e);
    if e.Deliver? { DeliveredWasAtServer(y, e, o, k); }
    hide Apply, Inv, Shape, Sourced, Enabled, AtServer, Below, Incoming, Queued;
    forall d: Stream | Below(y', d, o, k) ensures !AtServer(y'.server, o, k) {
      NewBelow(y, e, d, o, k);
      if AtServer(y'.server, o, k) {
        NewAtServer(y, e, o, k);
        if Has(Queued(y.up, o.stream), o, k) { UpIsNotBelow(y, o, d, k); }
        assert false;
      }
    }
    forall d: Stream, d': Stream | Below(y', d, o, k) && Below(y', d', o, k) ensures d == d' {
      NewBelow(y, e, d, o, k);
      NewBelow(y, e, d', o, k);
    }
    forall d: Stream, h: nat, h': nat | Has(Incoming(y', d, h), o, k) && Has(Incoming(y', d, h'), o, k)
      ensures h == h'
    {
      OneSocket(y, e, o, d, h, h', k);
    }
  }

  lemma OneSocket(y: System, e: Event, o: Origin, d: Stream, h: nat, h': nat, k: nat)
    requires Inv(y) && Shape(y) && Enabled(y, e) && Shape(Apply(y, e)) && Single(y, o, k)
    requires Has(Incoming(Apply(y, e), d, h), o, k) && Has(Incoming(Apply(y, e), d, h'), o, k)
    ensures h == h'
  {
    IncomingSources(y, e, d, h);
    IncomingSources(y, e, d, h');
    hide Apply, Inv, Shape, Enabled, AtServer, Below, Incoming, Queued;
    if !Has(Incoming(y, d, h), o, k) || !Has(Incoming(y, d, h'), o, k) {
      assert e.Arrive? && Has(Queued(y.down, d), o, k);
      OrderExcludes(y, o, d, h, k);
      OrderExcludes(y, o, d, h', k);
      ArrivesOnce(y, e, d, h, h');
    }
  }

  lemma InitIsSingle(clock: Time, o: Origin, k: nat)
    ensures Shape(Init(clock)) && Single(Init(clock), o, k)
  {
  }

  lemma {:induction false} RunKeepsSingle(states: seq<System>, events: seq<Event>, n: nat, o: Origin, k: nat)
    requires Run(states, events) && n < |states|
    ensures Inv(states[n]) && Shape(states[n]) && Single(states[n], o, k)
  {
    hide Inv, Shape, Sourced, Enabled, Apply, Init, Single;
    RunKeepsInv(states, events, n);
    if n == 0 {
      InitIsSingle(states[0].server.clock, o, k);
    } else {
      RunKeepsSingle(states, events, n - 1, o, k);
      assert states[n - 1 + 1] == Apply(states[n - 1], events[n - 1]);
      InvHolds(states[n - 1], states[n]);
      StepKeepsSingle(states[n - 1], events[n - 1], o, k);
    }
  }

  /** A chunk is written to one socket at most, and there once at most. */
  lemma WrittenOnce(
      states: seq<System>, events: seq<Event>, n: nat, d: Stream, h: nat, i: nat, d': Stream, h': nat, i': nat)
    requires Run(states, events) && n < |states|
    requires i < |Written(states[n], d, h)| && i' < |Written(states[n], d', h')|
    requires var p, q := Written(states[n], d, h)[i], Written(states[n], d', h')[i'];
      p.origin == q.origin && p.serial == q.serial
    ensures d == d' && h == h' && i == i'
  {
    var y, p := states[n], Written(states[n], d, h)[i];
    RunKeepsSingle(states, events, n, p.origin, p.serial);
    WrittenIsIncoming(y, d, h, p);
    WrittenIsIncoming(y, d', h', Written(y, d', h')[i']);
    assert Has(Incoming(y, d, h), p.origin, p.serial) && Has(Incoming(y, d', h'), p.origin, p.serial);
    assert Below(y, d, p.origin, p.serial) && Below(y, d', p.origin, p.serial);
    hide Run, Inv, Shape, Incoming, Below;
    WrittenAtOnePlace(y, d, h, i, i');
  }

  lemma WrittenAtOnePlace(y: System, d: Stream, h: nat, i: nat, j: nat)
    requires Inv(y) && i < |Written(y, d, h)| && j < |Written(y, d, h)|
    requires Written(y, d, h)[i].origin == Written(y, d, h)[j].origin
    requires Written(y, d, h)[i].serial == Written(y, d, h)[j].serial
    ensures i == j
  {
    var xs, o := Written(y, d, h), Written(y, d, h)[i].origin;
    WrittenIsOrdered(y, o, d, h);
    hide Inv, Written, Faithful;
    if i < j { PlacesDiffer(xs, i, j, o); }
    if j < i { PlacesDiffer(xs, j, i, o); }
  }

  /** Two places of one origin in a sequence are two places among the packets of that origin. */
  lemma PlacesDiffer(xs: seq<Packet>, i: nat, j: nat, o: Origin)
    requires i < j < |xs| && xs[i].origin == xs[j].origin == o && xs[i].serial == xs[j].serial
    ensures exists a, b :: 0 <= a < b < |Of(xs, o)| && Of(xs, o)[a].serial == Of(xs, o)[b].serial
  {
    hide Of;
    var left, right := xs[..j], xs[j..];
    assert xs == left + right && xs[i] == left[i] && xs[j] == right[0];
    OfConcat(left, right, o);
    KeepsMember(left, xs[i]);
    KeepsMember(right, xs[j]);
    var a :| 0 <= a < |Of(left, o)| && Of(left, o)[a] == xs[i];
    var b :| 0 <= b < |Of(right, o)| && Of(right, o)[b] == xs[j];
    assert Of(xs, o)[a] == xs[i] && Of(xs, o)[|Of(left, o)| + b] == xs[j];
  }
}
