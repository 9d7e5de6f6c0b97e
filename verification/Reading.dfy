/** The two reading goroutines as they are written, each a loop over one buffer: `Handle` in
    `internal/client/handler.go` queues slices of the buffer, `readFromTarget` in
    `internal/proxy/forwarder.go` queues copies. Both run here without interruption, and are
    proved to go through steps of `Process`. */
module Reading {
  import opened Bytes
  import opened Wire
  import opened Process
  import opened Pipeline
  import opened ConnectionTable
  import C = Connections
  import opened Steps

  /** `buf[:n]` in a packet: a reference to the buffer, not its bytes. */
  datatype Slice = Slice(connId: Id, buf: array<Byte>, n: nat) {
    /** What the bytes are when somebody looks. */
    function Bytes(): seq<Byte>
      reads buf
    {
      if n <= buf.Length then buf[..n] else buf[..]
    }
  }

  /** A buffered channel; nothing receives from it meanwhile. */
  class Channel<T> {
    var slots: seq<T>

    /** `select` with a default case: never waits. */
    method Offer(x: T) returns (taken: bool)
      modifies this
      ensures taken <==> |old(slots)| < SLOTS
      ensures slots == if taken then old(slots) + [x] else old(slots)
    {
      taken := |slots| < SLOTS;
      if taken { slots := slots + [x]; }
    }
  }

  /** A read, and the time that passes until the activity is updated. */
  datatype Burst = Burst(bytes: seq<Byte>, elapsed: nat)

  /** Empty reads are skipped. */
  function NonEmpty(chunks: seq<Burst>): (r: seq<seq<Byte>>)
    ensures (forall c :: c in chunks ==> |c.bytes| <= BUFFER) ==> forall b :: b in r ==> 0 < |b| <= BUFFER
  {
    if chunks == [] then []
    else
      var last := chunks[|chunks| - 1].bytes;
      NonEmpty(chunks[..|chunks| - 1]) + (if last == [] then [] else [last])
  }

  lemma NonEmptyNext(chunks: seq<Burst>, i: nat)
    requires i < |chunks|
    ensures NonEmpty(chunks[..i + 1])
         == NonEmpty(chunks[..i]) + (if chunks[i].bytes == [] then [] else [chunks[i].bytes])
  {
    assert chunks[..i + 1][..i] == chunks[..i];
  }

  lemma NothingRead(chunks: seq<Burst>)
    ensures NonEmpty(chunks[..0]) == []
  {
  }

  /** The packets built from some reads of one socket. */
  function Packets(id: Id, o: Origin, bytes: seq<seq<Byte>>): (r: seq<Packet>)
    ensures |r| == |bytes|
  {
    seq(|bytes|, i requires 0 <= i < |bytes| => Packet(id, None, bytes[i], o, i, i + 1))
  }

  lemma ReplayNext(id: Id, o: Origin, bytes: seq<seq<Byte>>, b: seq<Byte>)
    ensures Replay(Packets(id, o, bytes + [b])) == Overwritten(Replay(Packets(id, o, bytes)), b)
  {
    assert Packets(id, o, bytes + [b])[..|bytes|] == Packets(id, o, bytes);
  }

  /** How many of `n` packets find a free slot. */
  function Taken(before: nat, n: nat): nat {
    if before >= SLOTS then 0 else if n <= SLOTS - before then n else SLOTS - before
  }

  /** What the client's loop has queued after some reads: a slice of the one buffer for each
      that found a free slot. */
  ghost predicate QueuedSlices(before: seq<Slice>, after: seq<Slice>, id: Id, buf: array<Byte>, bytes: seq<seq<Byte>>) {
    && |after| == |before| + Taken(|before|, |bytes|) && after[..|before|] == before
    && forall i :: 0 <= i < Taken(|before|, |bytes|) ==> after[|before| + i] == Slice(id, buf, |bytes[i]|)
  }

  /** What the proxy's loop has queued: the bytes themselves. */
  ghost predicate QueuedCopies(
    before: seq<(Id, seq<Byte>)>, after: seq<(Id, seq<Byte>)>, id: Id, bytes: seq<seq<Byte>>)
  {
    && |after| == |before| + Taken(|before|, |bytes|) && after[..|before|] == before
    && forall i :: 0 <= i < Taken(|before|, |bytes|) ==> after[|before| + i] == (id, bytes[i])
  }

  lemma SliceQueued(
      before: seq<Slice>, after: seq<Slice>, id: Id, buf: array<Byte>, bytes: seq<seq<Byte>>, b: seq<Byte>)
    requires QueuedSlices(before, after, id, buf, bytes)
    ensures QueuedSlices(before, if |after| < SLOTS then after + [Slice(id, buf, |b|)] else after, id, buf, bytes + [b])
  {
  }

  lemma NoneQueued(before: seq<Slice>, id: Id, buf: array<Byte>)
    ensures QueuedSlices(before, before, id, buf, [])
  {
  }

  lemma CopyQueued(
      before: seq<(Id, seq<Byte>)>, after: seq<(Id, seq<Byte>)>, id: Id, bytes: seq<seq<Byte>>, b: seq<Byte>)
    requires QueuedCopies(before, after, id, bytes)
    ensures QueuedCopies(before, if |after| < SLOTS then after + [(id, b)] else after, id, bytes + [b])
  {
  }

  const HERE := Origin(0, 0)

  /** `conn.Read(buf)`. */
  method Read(buf: array<Byte>, b: seq<Byte>, ghost id: Id, ghost bytes: seq<seq<Byte>>)
    requires buf.Length == BUFFER && |b| <= BUFFER && buf[..] == Replay(Packets(id, HERE, bytes))
    modifies buf
    ensures buf[..] == Replay(Packets(id, HERE, if b == [] then bytes else bytes + [b]))
    ensures buf[..] == Overwritten(old(buf[..]), b) && buf[..|b|] == b
  {
    ReplayNext(id, HERE, bytes, b);
    CopyInto(buf, 0, b);
    hide Replay;
  }

  /** Whatever is queued shows what the buffer holds. */
  lemma SlicesShowBuffer(before: seq<Slice>, after: seq<Slice>, id: Id, buf: array<Byte>, bytes: seq<seq<Byte>>)
    requires QueuedSlices(before, after, id, buf, bytes)
    requires buf.Length == BUFFER && forall b :: b in bytes ==> |b| <= BUFFER
    ensures forall i :: |before| <= i < |after| ==> after[i].Bytes() == Fit(buf[..], after[i].n)
  {
    forall i | |before| <= i < |after| ensures after[i].Bytes() == Fit(buf[..], after[i].n) {
      var j := i - |before|;
      assert after[|before| + j] == Slice(id, buf, |bytes[j]|);
    }
  }

  // ---------------------------------------------------------------- the steps they go through

  /** A queue of the model and the channel it stands for; a slice of `buf` stands for a packet of
      origin `o`. */
  ghost predicate SlotsMatch(queue: seq<Packet>, slots: seq<Slice>, o: Origin, buf: array<Byte>) {
    && |queue| == |slots|
    && forall i :: 0 <= i < |slots| ==>
      && queue[i].connId == slots[i].connId && |queue[i].data| == slots[i].n
      && (slots[i].buf == buf <==> queue[i].origin == o)
  }

  /** The model's goroutine `k` reads in its loop, and its table, buffer and queue are these. */
  ghost predicate Follows(s: State, k: nat, id: Id, now: Time, table: C.Table, buf: seq<Byte>) {
    && Shape(s) && s.In(k, Reading) && s.workers[k].connId == id && s.clock == now && s.table == table
    && s.table.open[k] && k < |s.lines| && s.lines[k].buf == buf
  }

  /** One turn, in the model. */
  lemma TurnFollows(
      was: State, s: State, k: nat, id: Id, now: Time, table: C.Table, buf: seq<Byte>, c: Burst) returns (s': State)
    requires Follows(s, k, id, now, table, buf) && Leads(was, s) && 0 < |c.bytes| <= BUFFER && |buf| == BUFFER
    requires table.Valid() && s.role.ClientRole?
    ensures Follows(s', k, id, now + c.elapsed, C.TouchId(table, id, now + c.elapsed), Overwritten(buf, c.bytes))
    ensures Leads(was, s')
    ensures s'.role == s.role && s'.stream == s.stream && k < |s.workers|
    ensures var n := |s.lines[k].chunks|;
      var p := Packet(id, s.workers[k].flow, c.bytes, Origin(s.stream, k), n, n + 1);
      s'.queue == if |s.queue| < SLOTS then s.queue + [p] else s.queue
  {
    hide Shape, Leads, Overwritten;
    s' := TurnSteps(was, s, k, c.bytes, c.elapsed);
  }

  lemma SlotsMatchNext(queue: seq<Packet>, slots: seq<Slice>, o: Origin, buf: array<Byte>, p: Packet, id: Id)
    requires SlotsMatch(queue, slots, o, buf) && p.connId == id && p.origin == o
    ensures SlotsMatch(queue + [p], slots + [Slice(id, buf, |p.data|)], o, buf)
  {
  }

  /** `Handle` on an accepted connection whose ID can be told, or cannot. Afterwards the ID is
      not in the table, the connection is closed and no other is; every packet queued shows what
      the buffer holds after the last read. In the model, the handler of socket `k` goes from its
      start to its end, to the same table and the same queue. */
  method Handle(
      table: ConnectionTable, id: Option<(Id, Flow)>, conn: Socket, chunks: seq<Burst>, chan: Channel<Slice>,
      start: Time,
      ghost s: State)
    returns (buf: array<Byte>, ghost s': State)
    requires table.Valid() && conn in table.sockets && conn.open && forall c :: c in chunks ==> |c.bytes| <= BUFFER
    requires Shape(s) && s.role.ClientRole? && s.In(conn.number, Starting) && s.clock == start
    requires s.table == table.Value()
    requires conn.number < |s.lines| && s.lines[conn.number] == NewLine()
    requires |s.queue| == |chan.slots|
    requires forall i :: 0 <= i < |s.queue| ==>
      && s.queue[i].connId == chan.slots[i].connId && |s.queue[i].data| == chan.slots[i].n
      && s.queue[i].origin != Origin(s.stream, conn.number)
    modifies table`connections, table`states, table.states, table.sockets`open, chan
    ensures table.Valid() && table.sockets == old(table.sockets) && fresh(buf)
    ensures table.connections == if id.Some? then old(table.connections) - {id.value.0} else old(table.connections)
    ensures forall x :: x in table.sockets ==> x.open == (old(x.open) && x != conn)
    ensures match id
      case None => chan.slots == old(chan.slots)
      case Some((i, _)) =>
        && QueuedSlices(old(chan.slots), chan.slots, i, buf, NonEmpty(chunks))
        && forall k :: |old(chan.slots)| <= k < |chan.slots| ==>
          chan.slots[k].Bytes() == Fit(Replay(Packets(i, HERE, NonEmpty(chunks))), chan.slots[k].n)
    ensures Leads(s, s') && s'.In(conn.number, Done) && s'.table == table.Value()
    ensures SlotsMatch(s'.queue, chan.slots, Origin(s.stream, conn.number), buf)
  {
    buf := new Byte[BUFFER](_ => 0);
    assert buf[..] == Zeros(BUFFER);
    assert forall i :: 0 <= i < |chan.slots| ==> chan.slots[i].buf != buf;
    assert SlotsMatch(s.queue, chan.slots, Origin(s.stream, conn.number), buf);
    LeadsNowhere(s);
    hide QueuedSlices, Replay, NonEmpty, Fit, Leads, Shape, SlotsMatch, Zeros;
    if id.Some? {
      ReplayNothing(id.value.0);
      s' := HandleTracked(table, id.value.0, id.value.1, conn, buf, chunks, chan, start, s);
      SlicesShowBuffer(old(chan.slots), chan.slots, id.value.0, buf, NonEmpty(chunks));
    } else {
      s' := RefuseSteps(s, s, conn.number);
      table.Close(conn);
    }
  }

  lemma ReplayNothing(id: Id)
    ensures Replay(Packets(id, HERE, [])) == Zeros(BUFFER)
  {
  }

  /** From `Track` to the deferred `Remove` and the deferred `Close`. */
  method HandleTracked(
      table: ConnectionTable, id: Id, ghost flow: Flow, conn: Socket, buf: array<Byte>, chunks: seq<Burst>,
      chan: Channel<Slice>, start: Time, ghost s: State)
    returns (ghost s': State)
    requires table.Valid() && conn in table.sockets && conn.open && forall c :: c in chunks ==> |c.bytes| <= BUFFER
    requires buf.Length == BUFFER && buf[..] == Replay(Packets(id, HERE, [])) == Zeros(BUFFER)
    requires Shape(s) && s.role.ClientRole? && s.In(conn.number, Starting) && s.clock == start
    requires s.table == table.Value()
    requires conn.number < |s.lines| && s.lines[conn.number] == NewLine()
    requires SlotsMatch(s.queue, chan.slots, Origin(s.stream, conn.number), buf)
    modifies table`connections, table`states, table.states, table.sockets`open, chan, buf
    ensures table.Valid() && table.sockets == old(table.sockets)
    ensures table.connections == old(table.connections) - {id}
    ensures forall x :: x in table.sockets ==> x.open == (old(x.open) && x != conn)
    ensures buf[..] == Replay(Packets(id, HERE, NonEmpty(chunks)))
    ensures QueuedSlices(old(chan.slots), chan.slots, id, buf, NonEmpty(chunks))
    ensures Leads(s, s') && s'.In(conn.number, Done) && s'.table == table.Value()
    ensures SlotsMatch(s'.queue, chan.slots, Origin(s.stream, conn.number), buf)
  {
    hide QueuedSlices, Replay, NonEmpty, Packets, ConnectionTable.Value,
      C.Insert, C.Remove, C.Closed, Taken, Fit, Zeros,
      Leads, Shape, SlotsMatch, Follows;
    ghost var k := conn.number;
    s' := Begin(table, id, flow, conn, start, s);
    assert Follows(s', k, id, start, table.Value(), buf[..]) by {
      BeginsToFollow(table, conn, s', k, id, start, buf[..]);
    }
    ghost var later;
    s', later := ReadLoop(table, id, buf, chunks, chan, start, k, s, s');
    s' := EndFollows(s, s', k, id, later, table.Value(), buf[..]);
    End(table, id, conn);
  }

  /** `Track`. */
  method Begin(table: ConnectionTable, id: Id, ghost flow: Flow, conn: Socket, start: Time, ghost s: State)
    returns (ghost s': State)
    requires table.Valid() && conn in table.sockets
    requires Shape(s) && s.role.ClientRole? && s.In(conn.number, Starting) && s.clock == start
    requires s.table == table.Value()
    modifies table`connections, table`states
    ensures table.Valid() && table.sockets == old(table.sockets)
    ensures |table.states| == |old(table.states)| + 1 && fresh(table.states[|old(table.states)|])
    ensures table.states[..|old(table.states)|] == old(table.states)
    ensures id in table.connections && table.connections - {id} == old(table.connections) - {id}
    ensures table.connections[id].conn == conn
    ensures Leads(s, s') && Shape(s') && s'.In(conn.number, Reading) && s'.workers[conn.number].connId == id
    ensures s'.table == table.Value() && s'.clock == start && s'.lines == s.lines && s'.queue == s.queue
    ensures s'.role == s.role && s'.stream == s.stream
  {
    LeadsNowhere(s);
    s' := TrackStep(s, s, conn.number, id, flow);
    hide Shape, Leads, C.Insert, ConnectionTable.Value;
    var state := table.Track(id, conn, start);
  }

  lemma BeginsToFollow(table: ConnectionTable, conn: Socket, s: State, k: nat, id: Id, now: Time, buf: seq<Byte>)
    requires table.Valid() && conn in table.sockets && conn.open && conn.number == k
    requires Shape(s) && s.In(k, Reading) && s.workers[k].connId == id && s.clock == now && s.table == table.Value()
    requires k < |s.lines| && s.lines[k].buf == buf
    ensures Follows(s, k, id, now, table.Value(), buf)
  {
    hide Shape;
    var j :| 0 <= j < |table.sockets| && table.sockets[j] == conn;
    assert table.Value().open[j] == conn.open;
  }

  /** The model's goroutine leaves its loop, removes its ID, and closes its socket. */
  lemma EndFollows(was: State, s: State, k: nat, id: Id, now: Time, table: C.Table, buf: seq<Byte>) returns (s': State)
    requires Follows(s, k, id, now, table, buf) && Leads(was, s) && s.role.ClientRole? && table.Valid()
    ensures Leads(was, s') && s'.In(k, Done) && s'.queue == s.queue
    ensures k < |C.Remove(table, id).open| && s'.table == C.Closed(C.Remove(table, id), k)
  {
    s' := LeaveStep(was, s, k);
    s' := EndSteps(was, s', k);
    hide Shape, Leads;
  }

  /** The deferred calls. */
  method End(table: ConnectionTable, id: Id, conn: Socket)
    requires table.Valid() && conn in table.sockets && id in table.connections && table.connections[id].conn == conn
    modifies table`connections, table.sockets`open
    ensures table.Valid() && table.sockets == old(table.sockets) && table.connections == old(table.connections) - {id}
    ensures forall x :: x in table.sockets ==> x.open == (old(x.open) && x != conn)
    ensures conn.number < |C.Remove(old(table.Value()), id).open|
    ensures table.Value() == C.Closed(C.Remove(old(table.Value()), id), conn.number)
  {
    table.Remove(id);
    table.Close(conn);
  }

  method ReadLoop(
      table: ConnectionTable, id: Id, buf: array<Byte>, chunks: seq<Burst>, chan: Channel<Slice>, start: Time,
      ghost k: nat, ghost was: State, ghost s: State)
    returns (ghost s': State, ghost later: Time)
    requires table.Valid() && buf.Length == BUFFER && forall c :: c in chunks ==> |c.bytes| <= BUFFER
    requires buf[..] == Replay(Packets(id, HERE, []))
    requires Follows(s, k, id, start, table.Value(), buf[..]) && Leads(was, s) && s.role.ClientRole?
    requires SlotsMatch(s.queue, chan.slots, Origin(s.stream, k), buf)
    modifies table.states, chan, buf
    ensures table.Valid() && buf[..] == Replay(Packets(id, HERE, NonEmpty(chunks)))
    ensures QueuedSlices(old(chan.slots), chan.slots, id, buf, NonEmpty(chunks))
    ensures Follows(s', k, id, later, table.Value(), buf[..]) && Leads(was, s') && s'.role == s.role
    ensures s'.stream == s.stream
    ensures SlotsMatch(s'.queue, chan.slots, Origin(s.stream, k), buf)
  {
    hide *;
    NothingRead(chunks);
    NoneQueued(chan.slots, id, buf);
    var now := start;
    s' := s;
    for i := 0 to |chunks|
      invariant table.Valid() && buf[..] == Replay(Packets(id, HERE, NonEmpty(chunks[..i])))
      invariant QueuedSlices(old(chan.slots), chan.slots, id, buf, NonEmpty(chunks[..i]))
      invariant Follows(s', k, id, now, table.Value(), buf[..]) && Leads(was, s') && s'.role == s.role
      invariant s'.stream == s.stream
      invariant SlotsMatch(s'.queue, chan.slots, Origin(s.stream, k), buf)
    {
      NonEmptyNext(chunks, i);
      var c := chunks[i];
      s' := Turn(table, id, buf, c, chan, now, old(chan.slots), NonEmpty(chunks[..i]), k, was, s');
      now := now + if c.bytes == [] then 0 else c.elapsed;
    }
    later := now;
    assert chunks[..|chunks|] == chunks;
  }

  /** One turn: a read that is not empty is queued, or dropped exactly when the queue is full. */
  method Turn(
      table: ConnectionTable, id: Id, buf: array<Byte>, c: Burst, chan: Channel<Slice>, now: Time,
      ghost before: seq<Slice>, ghost bytes: seq<seq<Byte>>, ghost k: nat, ghost was: State, ghost s: State)
    returns (ghost s': State)
    requires table.Valid() && buf.Length == BUFFER && |c.bytes| <= BUFFER && buf[..] == Replay(Packets(id, HERE, bytes))
    requires QueuedSlices(before, chan.slots, id, buf, bytes)
    requires Follows(s, k, id, now, table.Value(), buf[..]) && Leads(was, s) && s.role.ClientRole?
    requires SlotsMatch(s.queue, chan.slots, Origin(s.stream, k), buf)
    modifies table.states, chan, buf
    ensures var bytes' := bytes + (if c.bytes == [] then [] else [c.bytes]);
      && table.Valid() && buf[..] == Replay(Packets(id, HERE, bytes'))
      && QueuedSlices(before, chan.slots, id, buf, bytes')
    ensures chan.slots == old(chan.slots)
      + (if c.bytes == [] || |old(chan.slots)| >= SLOTS then [] else [Slice(id, buf, |c.bytes|)])
    ensures buf[..|c.bytes|] == c.bytes
    ensures Follows(s', k, id, now + (if c.bytes == [] then 0 else c.elapsed), table.Value(), buf[..]) && Leads(was, s')
    ensures s'.role == s.role && s'.stream == s.stream && SlotsMatch(s'.queue, chan.slots, Origin(s.stream, k), buf)
  {
    hide QueuedSlices, Replay, Packets, ConnectionTable.Value, Follows, Leads, SlotsMatch, Overwritten, C.TouchId;
    s' := s;
    assert bytes + [] == bytes;
    if c.bytes != [] {
      s' := TurnFollows(was, s, k, id, now, table.Value(), buf[..], c);
      SliceQueued(before, chan.slots, id, buf, bytes, c.bytes);
      SlotsFollow(s.queue, s'.queue, chan.slots, Origin(s.stream, k), buf, id, c.bytes);
    }
    Read(buf, c.bytes, id, bytes);
    if c.bytes == [] { return; }
    table.UpdateActivity(id, now + c.elapsed);
    var taken := chan.Offer(Slice(id, buf, |c.bytes|));
  }

  lemma SlotsFollow(
      queue: seq<Packet>, queue': seq<Packet>, slots: seq<Slice>, o: Origin, buf: array<Byte>, id: Id, b: seq<Byte>)
    requires SlotsMatch(queue, slots, o, buf)
    requires exists p: Packet ::
      && p.connId == id && p.origin == o && p.data == b
      && queue' == if |queue| < SLOTS then queue + [p] else queue
    ensures |queue| == |slots|
    ensures SlotsMatch(queue', if |slots| < SLOTS then slots + [Slice(id, buf, |b|)] else slots, o, buf)
  {
    var p: Packet :|
      && p.connId == id && p.origin == o && p.data == b
      && queue' == if |queue| < SLOTS then queue + [p] else queue;
    if |queue| < SLOTS { SlotsMatchNext(queue, slots, o, buf, p, id); }
  }

  // ---------------------------------------------------------------- the proxy's reader

  /** A queue of the model and the channel of copies it stands for. */
  ghost predicate CopiesMatch(queue: seq<Packet>, slots: seq<(Id, seq<Byte>)>) {
    && |queue| == |slots|
    && forall i :: 0 <= i < |slots| ==> queue[i].connId == slots[i].0 && queue[i].data == slots[i].1
  }

  lemma CopiesMatchNext(queue: seq<Packet>, slots: seq<(Id, seq<Byte>)>, p: Packet)
    requires CopiesMatch(queue, slots)
    ensures CopiesMatch(queue + [p], slots + [(p.connId, p.data)])
  {
  }

  /** The model's goroutine `k` is the reader of entry `e`, in its loop or just out of it. */
  ghost predicate FollowsReader(
    s: State, k: nat, e: nat, id: Id, now: Time, table: C.Table, buf: seq<Byte>, reading: bool)
  {
    && Shape(s) && s.role.ProxyRole? && s.In(k, if reading then Reading else Leaving)
    && s.workers[k].connId == id && s.workers[k].entry == Some(e) && s.clock == now && s.table == table
    && k < |s.lines| && s.lines[k].buf == buf && (reading ==> s.table.open[k])
  }

  /** One turn, in the model; with a full channel, up to the stop. */
  lemma CopyTurnFollows(
      was: State, s: State, k: nat, e: nat, id: Id, now: Time, table: C.Table, buf: seq<Byte>, c: Burst,
      slots: seq<(Id, seq<Byte>)>)
    returns (s': State)
    requires FollowsReader(s, k, e, id, now, table, buf, true) && Leads(was, s) && 0 < |c.bytes| <= BUFFER
    requires |buf| == BUFFER
    requires CopiesMatch(s.queue, slots)
    ensures e < |table.entries| && Leads(was, s')
    ensures var later := now + c.elapsed;
      FollowsReader(s', k, e, id, later, C.Touch(table, e, later), Overwritten(buf, c.bytes), |slots| < SLOTS)
    ensures CopiesMatch(s'.queue, if |slots| < SLOTS then slots + [(id, c.bytes)] else slots)
  {
    var p := Chunk(s, k, c.bytes);
    CopiesMatchNext(s.queue, slots, p);
    hide Shape, Leads, C.Touch, Overwritten;
    if |slots| < SLOTS {
      s' := TurnSteps(was, s, k, c.bytes, c.elapsed);
    } else {
      s' := AbandonSteps(was, s, k, c.bytes, c.elapsed);
    }
  }

  lemma EndFollowsReader(
      was: State, s: State, k: nat, e: nat, id: Id, now: Time, table: C.Table, buf: seq<Byte>, reading: bool)
    returns (s': State)
    requires FollowsReader(s, k, e, id, now, table, buf, reading) && Leads(was, s) && table.Valid()
    ensures Leads(was, s') && s'.In(k, Done) && s'.queue == s.queue && s'.table == C.Remove(table, id)
  {
    s' := s;
    if reading { s' := LeaveStep(was, s, k); }
    s' := EndSteps(was, s', k);
    hide Shape, Leads;
  }

  /** `readFromTarget`, with a stop once the channel is full, as nothing receives from it here:
      what is queued are the bytes read, whatever is read after them. The removal at the end is
      by ID. In the model, the reader of the same entry goes to its end, to the same table and
      the same queue. */
  method ReadFromTarget(
      table: ConnectionTable, state: ConnectionState, chunks: seq<Burst>, chan: Channel<(Id, seq<Byte>)>, start: Time,
      ghost s: State, ghost k: nat)
    returns (ghost s': State)
    requires table.Valid() && state in table.states && forall c :: c in chunks ==> |c.bytes| <= BUFFER
    requires FollowsReader(s, k, state.number, state.connectionID, start, table.Value(), Zeros(BUFFER), true)
    requires CopiesMatch(s.queue, chan.slots)
    modifies table`connections, table.states, table.sockets`open, chan
    ensures table.Valid() && table.connections == old(table.connections) - {state.connectionID}
    ensures forall x :: x in table.sockets ==>
      x.open == (old(x.open) && !(state.connectionID in old(table.connections)
                                  && x == old(table.connections)[state.connectionID].conn))
    ensures QueuedCopies(old(chan.slots), chan.slots, state.connectionID, NonEmpty(chunks))
    ensures Leads(s, s') && s'.In(k, Done) && s'.table == table.Value() && CopiesMatch(s'.queue, chan.slots)
  {
    LeadsNowhere(s);
    hide QueuedCopies, NonEmpty, Replay, ConnectionTable.Value, FollowsReader, CopiesMatch, Leads, C.Remove;
    ghost var later, last, reading;
    s', later, last, reading := CopyLoop(table, state, chunks, chan, start, s, k);
    s' := EndFollowsReader(s, s', k, state.number, state.connectionID, later, table.Value(), last, reading);
    table.Remove(state.connectionID);
  }

  method CopyLoop(
      table: ConnectionTable, state: ConnectionState, chunks: seq<Burst>, chan: Channel<(Id, seq<Byte>)>, start: Time,
      ghost s: State, ghost k: nat)
    returns (ghost s': State, ghost later: Time, ghost last: seq<Byte>, ghost reading: bool)
    requires table.Valid() && state in table.states && forall c :: c in chunks ==> |c.bytes| <= BUFFER
    requires FollowsReader(s, k, state.number, state.connectionID, start, table.Value(), Zeros(BUFFER), true)
    requires CopiesMatch(s.queue, chan.slots)
    modifies state`lastActivity, chan
    ensures table.Valid() && QueuedCopies(old(chan.slots), chan.slots, state.connectionID, NonEmpty(chunks))
    ensures FollowsReader(s', k, state.number, state.connectionID, later, table.Value(), last, reading) && Leads(s, s')
    ensures CopiesMatch(s'.queue, chan.slots)
  {
    var id, buf := state.connectionID, new Byte[BUFFER](_ => 0);
    assert buf[..] == Zeros(BUFFER);
    ReplayNothing(id);
    NothingRead(chunks);
    NoCopies(chan.slots, id);
    LeadsNowhere(s);
    hide *;
    s', later, last, reading := CopyRest(table, state, buf, chunks, chan, start, s, k);
  }

  method CopyRest(
      table: ConnectionTable, state: ConnectionState, buf: array<Byte>, chunks: seq<Burst>,
      chan: Channel<(Id, seq<Byte>)>,
      start: Time, ghost s: State, ghost k: nat)
    returns (ghost s': State, ghost later: Time, ghost last: seq<Byte>, ghost reading: bool)
    requires table.Valid() && state in table.states && forall c :: c in chunks ==> |c.bytes| <= BUFFER
    requires buf.Length == BUFFER && buf[..] == Replay(Packets(state.connectionID, HERE, NonEmpty(chunks[..0])))
    requires QueuedCopies(chan.slots, chan.slots, state.connectionID, NonEmpty(chunks[..0]))
    requires FollowsReader(s, k, state.number, state.connectionID, start, table.Value(), buf[..], true)
    requires CopiesMatch(s.queue, chan.slots) && Leads(s, s)
    modifies state`lastActivity, chan, buf
    ensures table.Valid() && QueuedCopies(old(chan.slots), chan.slots, state.connectionID, NonEmpty(chunks))
    ensures FollowsReader(s', k, state.number, state.connectionID, later, table.Value(), last, reading) && Leads(s, s')
    ensures CopiesMatch(s'.queue, chan.slots)
  {
    hide QueuedCopies, NonEmpty, Replay, Packets, ConnectionTable.Value, FollowsReader, CopiesMatch, Leads;
    var now, i, open := start, 0, true;
    s' := s;
    while i < |chunks| && open
      invariant 0 <= i <= |chunks| && (open || |chan.slots| >= SLOTS)
      invariant table.Valid() && buf[..] == Replay(Packets(state.connectionID, HERE, NonEmpty(chunks[..i])))
      invariant QueuedCopies(old(chan.slots), chan.slots, state.connectionID, NonEmpty(chunks[..i]))
      invariant FollowsReader(s', k, state.number, state.connectionID, now, table.Value(), buf[..], open)
      invariant Leads(s, s')
      invariant CopiesMatch(s'.queue, chan.slots)
      decreases |chunks| - i
    {
      var c := chunks[i];
      NonEmptyNext(chunks, i);
      open, s' := CopyTurn(table, state, buf, c, chan, now, old(chan.slots), NonEmpty(chunks[..i]), s, s', k);
      now := now + if c.bytes == [] then 0 else c.elapsed;
      i := i + 1;
    }
    later, last, reading := now, buf[..], open;
    QueuedSoFar(old(chan.slots), chan.slots, state.connectionID, chunks, i);
  }

  lemma NoCopies(before: seq<(Id, seq<Byte>)>, id: Id)
    ensures QueuedCopies(before, before, id, [])
  {
  }

  method CopyTurn(
      table: ConnectionTable, state: ConnectionState, buf: array<Byte>, c: Burst,
      chan: Channel<(Id, seq<Byte>)>, now: Time,
      ghost before: seq<(Id, seq<Byte>)>, ghost bytes: seq<seq<Byte>>, ghost was: State, ghost s: State, ghost k: nat)
    returns (open: bool, ghost s': State)
    requires table.Valid() && state in table.states && buf.Length == BUFFER && |c.bytes| <= BUFFER
    requires buf[..] == Replay(Packets(state.connectionID, HERE, bytes))
    requires QueuedCopies(before, chan.slots, state.connectionID, bytes)
    requires FollowsReader(s, k, state.number, state.connectionID, now, table.Value(), buf[..], true) && Leads(was, s)
    requires CopiesMatch(s.queue, chan.slots)
    modifies state`lastActivity, chan, buf
    ensures var bytes' := bytes + (if c.bytes == [] then [] else [c.bytes]);
      && table.Valid() && buf[..] == Replay(Packets(state.connectionID, HERE, bytes'))
      && QueuedCopies(before, chan.slots, state.connectionID, bytes')
    ensures !open ==> |chan.slots| >= SLOTS
    ensures chan.slots == old(chan.slots)
      + (if c.bytes == [] || |old(chan.slots)| >= SLOTS then [] else [(state.connectionID, c.bytes)])
    ensures var later := now + (if c.bytes == [] then 0 else c.elapsed);
      FollowsReader(s', k, state.number, state.connectionID, later, table.Value(), buf[..], open) && Leads(was, s')
    ensures CopiesMatch(s'.queue, chan.slots)
  {
    hide QueuedCopies, Replay, Packets, ConnectionTable.Value, FollowsReader, CopiesMatch, Leads, Overwritten, C.Touch;
    hide ConnectionTable.Valid;
    assert bytes + [] == bytes;
    open, s' := true, s;
    if c.bytes != [] {
      s' := CopyTurnFollows(
        was, s, k, state.number, state.connectionID, now, table.Value(), buf[..], c, chan.slots);
      CopyQueued(before, chan.slots, state.connectionID, bytes, c.bytes);
    }
    Read(buf, c.bytes, state.connectionID, bytes);
    if c.bytes == [] { return; }
    table.Touch(state, now + c.elapsed);
    open := chan.Offer((state.connectionID, buf[..|c.bytes|]));
  }

  /** Nothing more finds a free slot once one did not. */
  lemma QueuedSoFar(before: seq<(Id, seq<Byte>)>, after: seq<(Id, seq<Byte>)>, id: Id, chunks: seq<Burst>, k: nat)
    requires k <= |chunks| && QueuedCopies(before, after, id, NonEmpty(chunks[..k]))
    requires k == |chunks| || |after| >= SLOTS
    ensures QueuedCopies(before, after, id, NonEmpty(chunks))
  {
    NonEmptyPrefix(chunks, k);
    assert chunks[..|chunks|] == chunks;
    hide QueuedCopies, NonEmpty;
    if k < |chunks| { FullIsFull(before, after, id, NonEmpty(chunks[..k]), NonEmpty(chunks)); }
  }

  lemma FullIsFull(
      before: seq<(Id, seq<Byte>)>, after: seq<(Id, seq<Byte>)>, id: Id, bytes: seq<seq<Byte>>, more: seq<seq<Byte>>)
    requires QueuedCopies(before, after, id, bytes) && bytes <= more && |after| >= SLOTS
    ensures QueuedCopies(before, after, id, more)
  {
    assert Taken(|before|, |more|) == Taken(|before|, |bytes|);
    forall i | 0 <= i < Taken(|before|, |more|) ensures after[|before| + i] == (id, more[i]) {
      assert more[i] == bytes[i];
    }
  }

  lemma {:induction false} NonEmptyPrefix(chunks: seq<Burst>, k: nat)
    requires k <= |chunks|
    ensures NonEmpty(chunks[..k]) <= NonEmpty(chunks)
  {
    if k < |chunks| {
      NonEmptyPrefix(chunks[..|chunks| - 1], k);
      assert chunks[..|chunks| - 1][..k] == chunks[..k];
    } else {
      assert chunks[..k] == chunks;
    }
  }
}
