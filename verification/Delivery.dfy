/** What the relay delivers, in every state of every run: responses in order and unchanged,
    forwarded packets in order, and nothing on a connection of another ID. */
module Delivery {
  import opened Bytes
  import opened Wire
  import opened Pipeline
  import opened Carriage
  import opened EndToEnd
  import P = Process

  /** Everything written to socket `h` of the process with stream `d`, in order. */
  function Written(y: System, d: Stream, h: nat): seq<Packet> {
    if d in y.procs && h < |y.procs[d].lines| then y.procs[d].lines[h].written else []
  }

  /** `xs` is found in `ys` at increasing places: in order, nothing twice, nothing else. */
  ghost predicate Subsequence(xs: seq<Packet>, ys: seq<Packet>) {
    exists at: seq<nat> :: Places(at, xs, ys)
  }

  ghost predicate Places(at: seq<nat>, xs: seq<Packet>, ys: seq<Packet>) {
    && |at| == |xs|
    && (forall i, j :: 0 <= i < j < |at| ==> at[i] < at[j])
    && (forall i :: 0 <= i < |at| ==> at[i] < |ys| && xs[i] == ys[at[i]])
  }

  /** A packet without its bytes, but for their number. */
  function Envelope(p: Packet): Packet {
    p.(data := Zeros(|p.data|), stamp := 0)
  }

  function Envelopes(xs: seq<Packet>): (r: seq<Packet>)
    ensures |r| == |xs| && forall i :: 0 <= i < |xs| ==> r[i] == Envelope(xs[i])
  {
    seq(|xs|, i requires 0 <= i < |xs| => Envelope(xs[i]))
  }

  // ---------------------------------------------------------------- from the invariant

  /** What is written comes first in the pipe. */
  lemma WrittenComesFirst(y: System, o: Origin, d: Stream, h: nat) returns (rest: seq<Packet>)
    requires Shape(y)
    ensures Of(Incoming(y, d, h), o) == Of(Written(y, d, h), o) + rest
  {
    hide P.Shape, Carries, EndToEnd.S.Shape, Of, Handed;
    if d in y.procs {
      rest := Of(Handed(y.procs[d], h), o);
      OfConcat(Written(y, d, h), Handed(y.procs[d], h), o);
    } else {
      rest := [];
    }
  }

  lemma FirstIsOrdered(xs: seq<Packet>, rest: seq<Packet>, rear: seq<Packet>, log: seq<Packet>, exact: bool)
    requires Ordered((xs + rest) + rear, log, exact)
    ensures Ordered(xs, log, exact)
  {
    hide *;
    assert (xs + rest) + rear == xs + (rest + rear);
    PartKeepsOrder(xs, rest + rear, log, exact);
  }

  lemma WrittenIsOrdered(y: System, o: Origin, d: Stream, h: nat)
    requires Inv(y)
    ensures Ordered(Of(Written(y, d, h), o), Log(y, o), FromProxy(y, o))
  {
    assert InOrder(y, o, d, h);
    assert Ordered(Pipe(y, o, d, h), Log(y, o), FromProxy(y, o));
    hide Inv, InOrder, Of, Rear, Pipe, Written, Log, FromProxy, Ordered, Incoming, Shape;
    PipeEndsInRear(y, o, d, h);
    var rest := WrittenComesFirst(y, o, d, h);
    FirstIsOrdered(Of(Written(y, d, h), o), rest, Rear(y, o, d), Log(y, o), FromProxy(y, o));
  }

  lemma OrderedIsSubsequence(xs: seq<Packet>, log: seq<Packet>, exact: bool)
    requires Ordered(xs, log, exact)
    ensures if exact then Subsequence(xs, log) else Subsequence(Envelopes(xs), Envelopes(log))
  {
    var at := seq(|xs|, i requires 0 <= i < |xs| => xs[i].serial);
    hide Replay;
    assert forall i :: 0 <= i < |xs| ==> Faithful(xs[i], log, exact);
    if exact {
      assert Places(at, xs, log);
    } else {
      forall i | 0 <= i < |xs| ensures Envelope(xs[i]) == Envelope(log[xs[i].serial]) {
        assert SameIdentity(xs[i], log[xs[i].serial]);
      }
      assert Places(at, Envelopes(xs), Envelopes(log));
    }
  }

  // ---------------------------------------------------------------- order

  /** Responses: of what a proxy's reader read from its target, every socket of every other
      process receives a subsequence, packet by packet and byte by byte. */
  lemma ResponsesArriveInOrder(states: seq<System>, events: seq<Event>, n: nat, o: Origin, d: Stream, h: nat)
    requires Run(states, events) && n < |states| && FromProxy(states[n], o)
    ensures Subsequence(Of(Written(states[n], d, h), o), Log(states[n], o))
  {
    RunKeepsInv(states, events, n);
    WrittenIsOrdered(states[n], o, d, h);
    OrderedIsSubsequence(Of(Written(states[n], d, h), o), Log(states[n], o), true);
  }

  /** Forwarded packets, from either kind of process: the same but for the bytes. */
  lemma PacketsArriveInOrder(states: seq<System>, events: seq<Event>, n: nat, o: Origin, d: Stream, h: nat)
    requires Run(states, events) && n < |states|
    ensures Subsequence(Envelopes(Of(Written(states[n], d, h), o)), Envelopes(Log(states[n], o)))
  {
    RunKeepsInv(states, events, n);
    WrittenIsOrdered(states[n], o, d, h);
    var xs, log := Of(Written(states[n], d, h), o), Log(states[n], o);
    assert Ordered(xs, log, false);
    OrderedIsSubsequence(xs, log, false);
  }

  // ---------------------------------------------------------------- bytes

  /** The last of the first `n` reads long enough to have byte `i` is read `j`. */
  predicate LastReadOf(log: seq<Packet>, n: nat, i: nat, j: nat) {
    && j < n <= |log| && i < |log[j].data|
    && forall k :: j < k < n ==> |log[k].data| <= i
  }

  lemma {:induction false} BufferHoldsLastRead(log: seq<Packet>, n: nat, i: nat, j: nat)
    requires (forall k :: 0 <= k < |log| ==> |log[k].data| <= P.BUFFER) && LastReadOf(log, n, i, j)
    ensures i < |Replay(log[..n])| && Replay(log[..n])[i] == log[j].data[i]
  {
    assert log[..n][..n - 1] == log[..n - 1];
    ReplayLength(log[..n - 1]);
    if j < n - 1 {
      BufferHoldsLastRead(log, n - 1, i, j);
    }
  }

  lemma {:induction false} SomeLastRead(log: seq<Packet>, s: nat, n: nat, i: nat) returns (j: nat)
    requires s < n <= |log| && i < |log[s].data|
    ensures s <= j && LastReadOf(log, n, i, j)
    decreases n
  {
    if i < |log[n - 1].data| {
      j := n - 1;
    } else {
      j := SomeLastRead(log, s, n - 1, i);
    }
  }

  lemma LastReadIsUnique(log: seq<Packet>, n: nat, i: nat, j: nat, k: nat)
    requires LastReadOf(log, n, i, j) && LastReadOf(log, n, i, k)
    ensures j == k
  {
  }

  /** Every byte written was read by the packet's own handler, from its own socket: byte `i` is
      byte `i` of the last read, up to the moment of sending, that was long enough. */
  lemma EveryByteIsTheLastRead(y: System, d: Stream, h: nat, p: Packet, i: nat) returns (j: nat)
    requires Inv(y) && p in Written(y, d, h) && i < |p.data|
    ensures var log := Log(y, p.origin);
      && p.serial < p.stamp <= |log| && SameIdentity(p, log[p.serial])
      && p.serial <= j && LastReadOf(log, p.stamp, i, j) && p.data[i] == log[j].data[i]
  {
    var log := Log(y, p.origin);
    WrittenIsFaithful(y, d, h, p);
    LogIsNumbered(y, p.origin);
    j := SomeLastRead(log, p.serial, p.stamp, i);
    BufferHoldsLastRead(log, p.stamp, i, j);
    ReplayLength(log[..p.stamp]);
  }

  lemma WrittenIsFaithful(y: System, d: Stream, h: nat, p: Packet)
    requires Inv(y) && p in Written(y, d, h)
    ensures Faithful(p, Log(y, p.origin), FromProxy(y, p.origin))
  {
    WrittenIsOrdered(y, p.origin, d, h);
    KeepsMember(Written(y, d, h), p);
    hide Inv, Faithful, Of, Written;
  }

  lemma LogIsNumbered(y: System, o: Origin)
    requires Shape(y)
    ensures Numbered(Log(y, o), o)
  {
    if o.stream in y.procs && o.socket < |y.procs[o.stream].lines| {
      assert LineFits(y.procs[o.stream], o.socket);
    }
  }

  /** A forwarded packet arrives with the bytes of its own read exactly when, at each of its
      bytes, the reads that followed before it was sent left that byte as it was. */
  lemma BytesArriveExactly(y: System, d: Stream, h: nat, p: Packet)
    requires Inv(y) && p in Written(y, d, h)
    ensures var log := Log(y, p.origin);
      && p.serial < p.stamp <= |log| && |p.data| == |log[p.serial].data|
      && (p.data == log[p.serial].data <==> UntouchedSince(log, p.serial, p.stamp))
  {
    var log := Log(y, p.origin);
    WrittenIsFaithful(y, d, h, p);
    var own := log[p.serial].data;
    if UntouchedSince(log, p.serial, p.stamp) {
      forall i | 0 <= i < |own| ensures p.data[i] == own[i] {
        var j := EveryByteIsTheLastRead(y, d, h, p, i);
      }
    } else {
      var i: nat, j: nat :| i < |own| && LastReadOf(log, p.stamp, i, j) && log[j].data[i] != own[i];
      var k := EveryByteIsTheLastRead(y, d, h, p, i);
      LastReadIsUnique(log, p.stamp, i, j, k);
    }
  }

  ghost predicate UntouchedSince(log: seq<Packet>, s: nat, n: nat)
    requires s < |log|
  {
    forall i, j: nat :: 0 <= i < |log[s].data| && LastReadOf(log, n, i, j) ==> log[j].data[i] == log[s].data[i]
  }

  /** In particular when it was sent before its handler's next read. */
  lemma SentPromptlyArrivesExactly(states: seq<System>, events: seq<Event>, n: nat, d: Stream, h: nat, p: Packet)
    requires Run(states, events) && n < |states| && p in Written(states[n], d, h) && p.stamp == p.serial + 1
    ensures var log := Log(states[n], p.origin); p.serial < |log| && p == log[p.serial]
  {
    RunKeepsInv(states, events, n);
    WrittenIsFaithful(states[n], d, h, p);
    LogIsNumbered(states[n], p.origin);
    PromptlySentIsExact(p, Log(states[n], p.origin), p.origin);
  }

  // ---------------------------------------------------------------- isolation

  /** A packet made from a chunk carries the ID and the tuple of the connection it was read from,
      and there is a tuple when a client read it. */
  lemma FaithfulFits(y: System, p: Packet)
    requires Shape(y) && Faithful(p, Log(y, p.origin), FromProxy(y, p.origin))
    ensures var o := p.origin;
      && o.stream in y.procs && o.socket < |y.procs[o.stream].workers|
      && y.procs[o.stream].workers[o.socket].entry.Some?
      && y.procs[o.stream].workers[o.socket].connId == p.connId && y.procs[o.stream].workers[o.socket].flow == p.flow
      && (y.procs[o.stream].role.ClientRole? ==> p.flow.Some?)
  {
    hide P.Shape, S.Shape, Replay;
    var o := p.origin;
    assert Log(y, o)[p.serial] in y.procs[o.stream].lines[o.socket].chunks;
    LineOf(y, o);
  }

  lemma LineOf(y: System, o: Origin)
    requires Shape(y) && o.stream in y.procs && o.socket < |y.procs[o.stream].lines|
    ensures o.socket < |y.procs[o.stream].workers| == |y.procs[o.stream].lines| && LineFits(y.procs[o.stream], o.socket)
  {
    hide S.Shape;
  }

  /** What is written to a socket was read from a socket of the same connection ID, and carries
      that socket's tuple. */
  lemma NothingCrossesConnections(states: seq<System>, events: seq<Event>, n: nat, d: Stream, h: nat, p: Packet)
    requires Run(states, events) && n < |states| && p in Written(states[n], d, h)
    ensures var y, o := states[n], p.origin;
      && d in y.procs && h < |y.procs[d].workers| && o.stream in y.procs && o.socket < |y.procs[o.stream].workers|
      && y.procs[d].workers[h].connId == p.connId == y.procs[o.stream].workers[o.socket].connId
      && p.flow == y.procs[o.stream].workers[o.socket].flow
  {
    var y, o := states[n], p.origin;
    RunKeepsInv(states, events, n);
    WrittenIsFaithful(y, d, h, p);
    assert LineFits(y.procs[d], h);
    FaithfulFits(y, p);
  }
}
