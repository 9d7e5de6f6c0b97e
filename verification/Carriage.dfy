/** What one process carries: the packets it has read and not yet sent, and the packets it has
    received and written or is about to write. */
module Carriage {
  import opened Bytes
  import opened Wire
  import opened Process
  import opened Pipeline

  // ---------------------------------------------------------------- invariant

  predicate LineFits(s: State, k: nat)
    requires k < |s.lines| == |s.workers|
  {
    var line := s.lines[k];
    && Numbered(line.chunks, Origin(s.stream, k))
    && line.buf == Replay(line.chunks)
    && (forall c :: c in line.chunks ==> c.connId == s.workers[k].connId && c.flow == s.workers[k].flow)
    && (s.role.ClientRole? && s.workers[k].entry.Some? ==> s.workers[k].flow.Some?)
    && (forall p :: p in line.written ==> p.connId == s.workers[k].connId)
    && (line.pending.Some? ==> line.pending.value.origin == Origin(s.stream, k))
    && (s.workers[k].entry.None? ==> line.chunks == [] && line.written == [])
  }

  predicate Local(s: State, p: Packet) {
    p.origin.stream == s.stream && p.origin.socket < |s.lines|
  }

  predicate Carries(s: State)
    requires Shape(s)
  {
    && (forall k :: 0 <= k < |s.lines| ==> LineFits(s, k))
    && (forall p :: p in s.queue ==> Local(s, p))
    && (s.outHand.Some? ==> Local(s, s.outHand.value))
  }

  // ---------------------------------------------------------------- lines

  lemma ReadKeepsLine(s: State, k: nat, bytes: seq<Byte>)
    requires Shape(s) && Carries(s) && Enabled(s, Read(k, bytes))
    ensures Numbered(s.lines[k].chunks + [Chunk(s, k, bytes)], Origin(s.stream, k))
    ensures Overwritten(s.lines[k].buf, bytes) == Replay(s.lines[k].chunks + [Chunk(s, k, bytes)])
  {
    var chunks, c := s.lines[k].chunks, Chunk(s, k, bytes);
    assert LineFits(s, k);
    assert (chunks + [c])[..|chunks|] == chunks;
    forall i | 0 <= i < |chunks + [c]| ensures (chunks + [c])[i].connId == (chunks + [c])[0].connId {
      if i < |chunks| { assert chunks[i] in chunks; }
      if |chunks| > 0 { assert chunks[0] in chunks; }
    }
  }

  lemma ReadLineFits(s: State, k: nat, bytes: seq<Byte>)
    requires Shape(s) && Carries(s) && Enabled(s, Read(k, bytes))
    ensures var s' := Apply(s, Read(k, bytes)); k < |s'.lines| == |s'.workers| && LineFits(s', k)
  {
    assert WorkerFits(s, k);
    assert LineFits(s, k);
    ReadKeepsLine(s, k, bytes);
    WorkersStep(s, Read(k, bytes));
    hide Numbered, Replay, Overwritten, TableAfter, WorkersAfter;
  }

  lemma TrackLineFits(s: State, e: Event)
    requires Shape(s) && Carries(s) && Enabled(s, e) && e.Track?
    ensures var s' := Apply(s, e); e.k < |s'.lines| == |s'.workers| && LineFits(s', e.k)
  {
    assert WorkerFits(s, e.k);
    assert LineFits(s, e.k);
    hide Numbered, Replay, Overwritten, TableAfter;
  }

  /** What the other steps of a goroutine leave of it and its line. */
  lemma OwnStep(s: State, e: Event, k: nat)
    requires Shape(s) && Enabled(s, e) && WorkerOf(e) == Some(k) && !e.Read? && !e.Track?
    ensures var ws, ls := WorkersAfter(s, e), LinesAfter(s, e);
      && k < |s.workers| == |s.lines| == |ws| == |ls| && ws[k] == s.workers[k].(phase := ws[k].phase)
      && (ls[k] == s.lines[k] || ls[k] == s.lines[k].(pending := None))
  {
  }

  lemma OwnLineFits(s: State, e: Event, k: nat)
    requires Shape(s) && Carries(s) && Enabled(s, e) && WorkerOf(e) == Some(k)
    ensures k < |Apply(s, e).lines| == |Apply(s, e).workers| && LineFits(Apply(s, e), k)
  {
    if e.Read? {
      ReadLineFits(s, k, e.bytes);
    } else if e.Track? {
      TrackLineFits(s, e);
    } else {
      OwnStep(s, e, k);
      assert LineFits(s, k);
      hide Shape, Enabled, Numbered, Replay, Overwritten, TableAfter, WorkersAfter, LinesAfter;
    }
  }

  lemma WriteKeepsLine(s: State, k: nat)
    requires Shape(s) && Carries(s) && Enabled(s, Write) && k < |s.lines|
    ensures k < |Apply(s, Write).lines| == |Apply(s, Write).workers| && LineFits(Apply(s, Write), k)
  {
    assert LineFits(s, k);
    var t := Target(s);
    assert s.workers[t].entry == Some(s.inHand.entry);
    assert WorkerFits(s, t);
    hide Numbered, Replay;
  }

  lemma OtherLineFits(s: State, e: Event, k: nat)
    requires Shape(s) && Carries(s) && Enabled(s, e) && k < |s.lines| && WorkerOf(e) != Some(k) && !e.Write?
    ensures k < |Apply(s, e).lines| == |Apply(s, e).workers| && LineFits(Apply(s, e), k)
  {
    assert LineFits(s, k);
    WorkersStep(s, e);
    assert LinesAfter(s, e)[k] == s.lines[k];
    hide Numbered, Replay, TableAfter, WorkersAfter, LinesAfter;
  }

  lemma NewLineFits(s: State, e: Event)
    requires Shape(s) && Enabled(s, e) && Opens(s, e)
    ensures |Apply(s, e).lines| == |Apply(s, e).workers| == |s.lines| + 1
    ensures LineFits(Apply(s, e), |s.lines|)
  {
  }

  lemma QueueStep(s: State, e: Event)
    requires Shape(s) && Carries(s) && Enabled(s, e)
    ensures forall p :: p in QueueAfter(s, e) ==> Local(s, p)
    ensures OutHandAfter(s, e).Some? ==> Local(s, OutHandAfter(s, e).value)
  {
    if e.Enqueue? {
      assert WorkerFits(s, e.k) && LineFits(s, e.k);
    }
    hide TableAfter, WorkersAfter, LinesAfter, LineFits;
  }

  lemma LineStep(s: State, e: Event, k: nat)
    requires Shape(s) && Carries(s) && Enabled(s, e) && k < |Apply(s, e).lines|
    ensures |Apply(s, e).lines| == |Apply(s, e).workers| && LineFits(Apply(s, e), k)
  {
    WorkersStep(s, e);
    hide TableAfter, WorkersAfter, LinesAfter, LineFits, WorkerFits;
    if k >= |s.lines| { NewLineFits(s, e); }
    else if e.Write? { WriteKeepsLine(s, k); }
    else if WorkerOf(e) == Some(k) { OwnLineFits(s, e, k); }
    else { OtherLineFits(s, e, k); }
  }

  lemma StepKeepsCarries(s: State, e: Event)
    requires Shape(s) && Carries(s) && Enabled(s, e)
    ensures Shape(Apply(s, e)) && Carries(Apply(s, e))
    ensures Apply(s, e).stream == s.stream && Apply(s, e).role == s.role
  {
    StepKeepsShape(s, e);
    QueueStep(s, e);
    WorkersStep(s, e);
    forall k | 0 <= k < |Apply(s, e).lines| ensures LineFits(Apply(s, e), k) {
      LineStep(s, e, k);
    }
    hide TableAfter, WorkersAfter, LinesAfter, QueueAfter, OutHandAfter, InHandAfter, Shape, Enabled, LineFits;
  }

  // ---------------------------------------------------------------- the two sides of a process

  function Opt(x: Option<Packet>): seq<Packet> {
    if x.Some? then [x.value] else []
  }

  function Chunks(s: State, k: nat): seq<Packet> {
    if k < |s.lines| then s.lines[k].chunks else []
  }

  /** Read from socket `k` or queued, and not yet sent; the oldest first. */
  function OutSide(s: State, k: nat): seq<Packet> {
    Opt(s.outHand) + s.queue + (if k < |s.lines| then Opt(s.lines[k].pending) else [])
  }

  /** The packet on its way to socket `h`. */
  function Handed(s: State, h: nat): seq<Packet>
    requires Shape(s)
  {
    if (s.inHand.Looked? || s.inHand.Touched?) && Target(s) == h then [s.inHand.pkt] else []
  }

  /** Written to socket `h`, or received for it and about to be written. */
  function InSide(s: State, h: nat): seq<Packet>
    requires Shape(s)
  {
    (if h < |s.lines| then s.lines[h].written else []) + Handed(s, h)
  }

  /** Steps on the reading side leave the delivering side alone. */
  lemma InSideKept(s: State, e: Event, h: nat)
    requires Shape(s) && Enabled(s, e) && !e.Receive? && !e.TouchIn? && !e.Write? && !e.WriteFails? && !e.RemoveBroken?
    ensures Shape(Apply(s, e)) && InSide(Apply(s, e), h) == InSide(s, h)
  {
    StepKeepsShape(s, e);
    TableStep(s, e);
    WrittenKept(s, e, h);
    hide TableAfter, WorkersAfter, LinesAfter, Shape, Enabled;
  }

  lemma WrittenKept(s: State, e: Event, h: nat)
    requires Shape(s) && Enabled(s, e) && !e.Write?
    ensures var ls := LinesAfter(s, e);
      && |s.lines| <= |ls|
      && (h < |s.lines| ==> ls[h].written == s.lines[h].written)
      && (|s.lines| <= h < |ls| ==> ls[h].written == [])
  {
  }

  lemma HandedReceives(s: State, pkt: Packet, dials: bool, h: nat)
    requires Shape(s) && Enabled(s, Receive(pkt, dials))
    ensures var s' := Apply(s, Receive(pkt, dials));
      Shape(s') && Handed(s, h) == [] && (Handed(s', h) == [pkt] || Handed(s', h) == [])
  {
    StepKeepsShape(s, Receive(pkt, dials));
    hide TableAfter, WorkersAfter, LinesAfter;
  }

  /** A packet received goes to one socket's side at most; nothing else changes there. */
  lemma InSideReceives(s: State, pkt: Packet, dials: bool, h: nat)
    requires Shape(s) && Enabled(s, Receive(pkt, dials))
    ensures var s' := Apply(s, Receive(pkt, dials));
      Shape(s') && (InSide(s', h) == InSide(s, h) + [pkt] || InSide(s', h) == InSide(s, h))
  {
    HandedReceives(s, pkt, dials, h);
    WrittenKept(s, Receive(pkt, dials), h);
    hide TableAfter, WorkersAfter, LinesAfter, InHandAfter, Handed, Shape, Enabled;
  }

  /** Writing moves the packet within its side, or fails and loses it. */
  lemma InSideDelivers(s: State, e: Event, h: nat)
    requires Shape(s) && Enabled(s, e) && (e.TouchIn? || e.Write? || e.WriteFails? || e.RemoveBroken?)
    ensures Shape(Apply(s, e))
    ensures var a, b := InSide(s, h), InSide(Apply(s, e), h);
      b == a || (a != [] && b == a[..|a| - 1])
  {
    StepKeepsShape(s, e);
    if !e.Write? { WrittenKept(s, e, h); }
  }

  /** Steps on the delivering side leave the reading side alone. */
  lemma OutSideKept(s: State, e: Event, k: nat)
    requires Shape(s) && Enabled(s, e)
    requires !e.Read? && !e.Enqueue? && !e.Drop? && !e.Abandon? && !e.Take? && !e.Emit?
    ensures OutSide(Apply(s, e), k) == OutSide(s, k) && Chunks(Apply(s, e), k) == Chunks(s, k)
  {
  }

  lemma OutSideReads(s: State, j: nat, bytes: seq<Byte>, k: nat)
    requires Shape(s) && Enabled(s, Read(j, bytes))
    ensures var s' := Apply(s, Read(j, bytes));
      if j == k then
        OutSide(s', k) == OutSide(s, k) + [Chunk(s, k, bytes)] && Chunks(s', k) == Chunks(s, k) + [Chunk(s, k, bytes)]
      else OutSide(s', k) == OutSide(s, k) && Chunks(s', k) == Chunks(s, k)
  {
    assert WorkerFits(s, j);
  }

  /** Queueing moves a goroutine's packet to the queue; for another socket's goroutine it puts a
      packet of foreign origin there. */
  lemma OutSideQueues(s: State, j: nat, k: nat)
    requires Shape(s) && Carries(s) && Enabled(s, Enqueue(j))
    ensures var s', o := Apply(s, Enqueue(j)), Origin(s.stream, k);
      Of(OutSide(s', k), o) == Of(OutSide(s, k), o) && Chunks(s', k) == Chunks(s, k)
  {
    var s', o := Apply(s, Enqueue(j)), Origin(s.stream, k);
    assert WorkerFits(s, j) && LineFits(s, j);
    var p := s.lines[j].pending.value;
    if j == k {
      assert OutSide(s', k) == OutSide(s, k);
    } else {
      var front, rest := Opt(s.outHand) + s.queue, if k < |s.lines| then Opt(s.lines[k].pending) else [];
      assert OutSide(s, k) == front + rest;
      assert OutSide(s', k) == (front + [p]) + rest;
      OfConcat(front, rest, o);
      OfConcat(front + [p], rest, o);
      OfSnoc(front, p, o);
    }
  }

  /** A packet that is not queued is lost, and no other. */
  lemma OutSideDrops(s: State, e: Event, k: nat)
    requires Shape(s) && Enabled(s, e) && (e.Drop? || e.Abandon?)
    ensures var a, b := OutSide(s, k), OutSide(Apply(s, e), k);
      (b == a || (a != [] && b == a[..|a| - 1])) && Chunks(Apply(s, e), k) == Chunks(s, k)
  {
    assert WorkerFits(s, e.k);
  }

  lemma OutSideTakes(s: State, k: nat)
    requires Shape(s) && Enabled(s, Take)
    ensures OutSide(Apply(s, Take), k) == OutSide(s, k) && Chunks(Apply(s, Take), k) == Chunks(s, k)
  {
  }

  lemma OutSideEmits(s: State, k: nat)
    requires Shape(s) && Enabled(s, Emit)
    ensures OutSide(s, k) == [s.outHand.value] + OutSide(Apply(s, Emit), k)
    ensures Chunks(Apply(s, Emit), k) == Chunks(s, k)
  {
  }

  /** What is emitted is the packet taken from the queue, with the bytes the buffer holds now
      (client) or the bytes it was queued with (proxy). */
  lemma ImageIsFaithful(s: State, o: Origin)
    requires Shape(s) && Carries(s) && s.outHand.Some? && s.outHand.value.origin == o
    requires Faithful(s.outHand.value, Chunks(s, o.socket), s.role.ProxyRole?)
    ensures Image(s).origin == o && Image(s).serial == s.outHand.value.serial
    ensures Faithful(Image(s), Chunks(s, o.socket), s.role.ProxyRole?)
  {
    assert LineFits(s, o.socket);
    if s.role.ClientRole? {
      CopiedOutLater(s.outHand.value, Chunks(s, o.socket), o);
    }
  }
}
