/** The client and the proxy as systems of interleaved steps. Both have one goroutine per socket
    that reads chunks and queues them (`Handle` in `internal/client/handler.go`,
    `readFromTarget` in `internal/proxy/forwarder.go`), a loop that sends what is queued and a
    loop that delivers what arrives (`internal/client/server_conn.go`,
    `internal/proxy/server_conn.go`), and a table of connections. They differ in the steps
    their role allows. */
module Process {
  import opened Bytes
  import opened Wire
  import C = Connections

  /** Slots of the outgoing channel, and size of a read buffer. */
  const SLOTS: nat := 100
  const BUFFER: nat := 65535

  /** A goroutine between its start and its return. `Touching`: a chunk is read, the activity
      not yet updated; `Holding`: the packet is built, not yet queued; `Leaving`: the loop is
      left, the deferred removal not yet run. */
  datatype Phase = Starting | Reading | Touching | Holding | Leaving | Removed | Done

  /** The goroutine of one socket; `entry` is the number of its own state object. */
  datatype Worker = Worker(connId: Id, flow: Option<Flow>, entry: Option<nat>, phase: Phase) {
    predicate Active() {
      phase in {Reading, Touching, Holding, Leaving}
    }
  }

  /** The bytes of one socket: what was read from it, the one buffer all reads use, the packet
      built last and not yet queued, and what was written to it. */
  datatype Line = Line(chunks: seq<Packet>, buf: seq<Byte>, pending: Option<Packet>, written: seq<Packet>)

  /** The packet the delivering loop is working on, and the state object it found. `Broken`:
      the write failed and the connection is to be removed. */
  datatype InHand = Nothing | Looked(pkt: Packet, entry: nat) | Touched(pkt: Packet, entry: nat) | Broken(id: Id)

  datatype State = State(
    role: Role, stream: Stream, table: C.Table, workers: seq<Worker>, lines: seq<Line>,
    queue: seq<Packet>, outHand: Option<Packet>, inHand: InHand, clock: Time, stopping: bool)
  {
    predicate In(k: nat, phase: Phase) {
      k < |workers| && workers[k].phase == phase
    }
  }

  function Init(role: Role, stream: Stream, clock: Time): State {
    State(role, stream, C.EMPTY, [], [], [], None, Nothing, clock, false)
  }

  function NewLine(): Line {
    Line([], Zeros(BUFFER), None, [])
  }

  datatype Event =
    | Accept
    | Refuse(k: nat)
    | Track(k: nat, id: Id, flow: Flow)
    | Read(k: nat, bytes: seq<Byte>)
    | Touch(k: nat)
    | Enqueue(k: nat)
    | Drop(k: nat)
    | Abandon(k: nat)
    | Leave(k: nat)
    | Removal(k: nat)
    | Finish(k: nat)
    | Receive(pkt: Packet, dials: bool)
    | TouchIn
    | Write
    | WriteFails
    | RemoveBroken
    | Take
    | Emit
    | Cleanup(maxIdle: Time)
    | Stop
    | Tick(now: Time)

  // ---------------------------------------------------------------- shape

  /** How the tables, the goroutines and the sockets fit together. */
  predicate Shape(s: State) {
    && s.table.Valid()
    && |s.workers| == |s.lines| == |s.table.open|
    && (forall k :: 0 <= k < |s.workers| ==> WorkerFits(s, k))
    && (forall e :: 0 <= e < |s.table.entries| ==> s.workers[s.table.entries[e].socket].entry == Some(e))
    && (s.inHand.Looked? || s.inHand.Touched? ==> HandFits(s))
  }

  predicate WorkerFits(s: State, k: nat)
    requires s.table.Valid() && k < |s.workers| == |s.lines|
  {
    var w := s.workers[k];
    && (w.Active() ==> w.entry.Some?)
    && (w.phase == Starting ==> w.entry.None?)
    && (w.entry.Some? ==> EntryOf(s, k))
    && (s.lines[k].pending.Some? <==> w.phase in {Touching, Holding})
  }

  predicate EntryOf(s: State, k: nat)
    requires k < |s.workers| && s.workers[k].entry.Some?
  {
    var e := s.workers[k].entry.value;
    e < |s.table.entries| && s.table.entries[e].socket == k && s.table.entries[e].connId == s.workers[k].connId
  }

  predicate HandFits(s: State)
    requires s.inHand.Looked? || s.inHand.Touched?
  {
    s.inHand.entry < |s.table.entries| && s.table.entries[s.inHand.entry].connId == s.inHand.pkt.connId
  }

  // ---------------------------------------------------------------- steps

  predicate Enabled(s: State, e: Event)
    requires Shape(s)
  {
    match e
    case Accept => s.role.ClientRole?
    case Refuse(k) => s.role.ClientRole? && s.In(k, Starting)
    case Track(k, _, _) => s.role.ClientRole? && s.In(k, Starting)
    case Read(k, bytes) => s.In(k, Reading) && s.table.open[k] && 0 < |bytes| <= BUFFER
    case Touch(k) => s.In(k, Touching)
    case Enqueue(k) => s.In(k, Holding) && |s.queue| < SLOTS
    case Drop(k) => s.role.ClientRole? && s.In(k, Holding) && |s.queue| >= SLOTS
    case Abandon(k) => s.role.ProxyRole? && s.In(k, Holding) && s.stopping
    case Leave(k) => s.In(k, Reading)
    case Removal(k) => s.In(k, Leaving)
    case Finish(k) => s.In(k, Removed)
    case Receive(_, _) => s.inHand.Nothing?
    case TouchIn => s.inHand.Looked?
    case Write => s.inHand.Touched? && s.table.open[Target(s)]
    case WriteFails => s.inHand.Touched?
    case RemoveBroken => s.inHand.Broken?
    case Take => s.outHand.None? && s.queue != []
    case Emit => s.outHand.Some?
    case Cleanup(_) => true
    case Stop => true
    case Tick(now) => s.clock <= now
  }

  /** The socket of the packet in hand. */
  function Target(s: State): nat
    requires Shape(s) && (s.inHand.Looked? || s.inHand.Touched?)
  {
    s.table.entries[s.inHand.entry].socket
  }

  function Apply(s: State, e: Event): State
    requires Shape(s) && Enabled(s, e)
  {
    s.(table := TableAfter(s, e), workers := WorkersAfter(s, e), lines := LinesAfter(s, e),
       queue := QueueAfter(s, e), outHand := OutHandAfter(s, e), inHand := InHandAfter(s, e),
       clock := if e.Tick? then e.now else s.clock, stopping := s.stopping || e.Stop?)
  }

  /** A packet arrives for an unknown connection and the target can be dialed. */
  predicate Dials(s: State, e: Event) {
    e.Receive? && s.role.ProxyRole? && e.pkt.connId !in s.table.connections && e.dials
  }

  function TableAfter(s: State, e: Event): C.Table
    requires Shape(s) && Enabled(s, e)
  {
    match e
    case Accept => C.Opened(s.table)
    case Track(k, id, _) => C.Insert(s.table, id, k, s.clock)
    case Touch(k) =>
      if s.role.ClientRole? then C.TouchId(s.table, s.workers[k].connId, s.clock)
      else assert WorkerFits(s, k); C.Touch(s.table, s.workers[k].entry.value, s.clock)
    case Removal(k) => C.Remove(s.table, s.workers[k].connId)
    case Finish(k) => if s.role.ClientRole? then C.Closed(s.table, k) else s.table
    case Receive(pkt, dials) =>
      if s.role.ClientRole? then s.table else C.ForwardLookup(s.table, pkt.connId, dials, s.clock)
    case TouchIn => C.Touch(s.table, s.inHand.entry, s.clock)
    case RemoveBroken => C.Remove(s.table, s.inHand.id)
    case Cleanup(maxIdle) => C.Cleanup(s.table, maxIdle, s.clock)
    case _ => s.table
  }

  function WorkersAfter(s: State, e: Event): seq<Worker>
    requires Shape(s) && Enabled(s, e)
  {
    match e
    case Accept => s.workers + [Worker("", None, None, Starting)]
    case Refuse(k) => Moved(s, k, Removed)
    case Track(k, id, flow) => s.workers[k := Worker(id, Some(flow), Some(|s.table.entries|), Reading)]
    case Read(k, _) => Moved(s, k, Touching)
    case Touch(k) => Moved(s, k, Holding)
    case Enqueue(k) => Moved(s, k, Reading)
    case Drop(k) => Moved(s, k, Reading)
    case Abandon(k) => Moved(s, k, Leaving)
    case Leave(k) => Moved(s, k, Leaving)
    case Removal(k) => Moved(s, k, Removed)
    case Finish(k) => Moved(s, k, Done)
    case Receive(pkt, _) =>
      if Dials(s, e) then s.workers + [Worker(pkt.connId, None, Some(|s.table.entries|), Reading)] else s.workers
    case _ => s.workers
  }

  function Moved(s: State, k: nat, phase: Phase): seq<Worker>
    requires k < |s.workers|
  {
    s.workers[k := s.workers[k].(phase := phase)]
  }

  /** The packet a goroutine builds from a chunk; reads of one socket are numbered. */
  function Chunk(s: State, k: nat, bytes: seq<Byte>): Packet
    requires k < |s.workers| && k < |s.lines|
  {
    var serial := |s.lines[k].chunks|;
    Packet(s.workers[k].connId, s.workers[k].flow, bytes, Origin(s.stream, k), serial, serial + 1)
  }

  function LinesAfter(s: State, e: Event): seq<Line>
    requires Shape(s) && Enabled(s, e)
  {
    match e
    case Accept => s.lines + [NewLine()]
    case Read(k, bytes) =>
      var line, p := s.lines[k], Chunk(s, k, bytes);
      s.lines[k := Line(line.chunks + [p], Overwritten(line.buf, bytes), Some(p), line.written)]
    case Enqueue(k) => s.lines[k := s.lines[k].(pending := None)]
    case Drop(k) => s.lines[k := s.lines[k].(pending := None)]
    case Abandon(k) => s.lines[k := s.lines[k].(pending := None)]
    case Receive(_, _) => if Dials(s, e) then s.lines + [NewLine()] else s.lines
    case Write => s.lines[Target(s) := s.lines[Target(s)].(written := s.lines[Target(s)].written + [s.inHand.pkt])]
    case _ => s.lines
  }

  /** A read puts its bytes at the start of the buffer. */
  function Overwritten(buf: seq<Byte>, bytes: seq<Byte>): seq<Byte> {
    if |bytes| <= |buf| then bytes + buf[|bytes|..] else bytes
  }

  function QueueAfter(s: State, e: Event): seq<Packet>
    requires Shape(s) && Enabled(s, e)
  {
    match e
    case Enqueue(k) => assert WorkerFits(s, k); s.queue + [s.lines[k].pending.value]
    case Take => s.queue[1..]
    case _ => s.queue
  }

  function OutHandAfter(s: State, e: Event): Option<Packet>
    requires Shape(s) && Enabled(s, e)
  {
    match e
    case Take => Some(s.queue[0])
    case Emit => None
    case _ => s.outHand
  }

  function InHandAfter(s: State, e: Event): InHand
    requires Shape(s) && Enabled(s, e)
  {
    match e
    case Receive(pkt, dials) =>
      if pkt.connId in s.table.connections then
        var entry := s.table.connections[pkt.connId];
        if s.role.ClientRole? then Looked(pkt, entry) else Touched(pkt, entry)
      else if Dials(s, e) then Touched(pkt, |s.table.entries|)
      else Nothing
    case TouchIn => Touched(s.inHand.pkt, s.inHand.entry)
    case Write => Nothing
    case WriteFails => if s.role.ClientRole? then Nothing else Broken(s.inHand.pkt.connId)
    case RemoveBroken => Nothing
    case _ => s.inHand
  }

  /** What `Emit` puts on the stream. The client queues a slice of the buffer it reads into, so
      what is sent is what the buffer holds by then; the proxy queues a copy. */
  function Image(s: State): Packet
    requires s.outHand.Some?
  {
    var p := s.outHand.value;
    if s.role.ProxyRole? || p.origin.socket >= |s.lines| then p
    else
      var line := s.lines[p.origin.socket];
      p.(data := Fit(line.buf, |p.data|), stamp := |line.chunks|)
  }

  // ---------------------------------------------------------------- shape is kept

  /** State objects keep their ID and their socket, and are only added. */
  predicate EntriesExtend(t: C.Table, t': C.Table) {
    && |t.entries| <= |t'.entries|
    && forall e :: 0 <= e < |t.entries| ==>
      t'.entries[e].socket == t.entries[e].socket && t'.entries[e].connId == t.entries[e].connId
  }

  /** The step adds a state object: it tracks an accepted connection, or dials one. */
  predicate Adds(s: State, e: Event) {
    e.Track? || Dials(s, e)
  }

  /** The step adds a socket. */
  predicate Opens(s: State, e: Event) {
    e.Accept? || Dials(s, e)
  }

  lemma TableStep(s: State, e: Event)
    requires Shape(s) && Enabled(s, e)
    ensures var t := TableAfter(s, e);
      && t.Valid() && EntriesExtend(s.table, t)
      && |t.open| == |s.table.open| + (if Opens(s, e) then 1 else 0)
      && |t.entries| == |s.table.entries| + (if Adds(s, e) then 1 else 0)
  {
    if e.Touch? { assert WorkerFits(s, e.k); }
  }

  lemma NewEntry(s: State, e: Event)
    requires Shape(s) && Enabled(s, e) && Adds(s, e)
    ensures var n, k := |s.table.entries|, if e.Track? then e.k else |s.workers|;
      && k < |WorkersAfter(s, e)| && |TableAfter(s, e).entries| == n + 1
      && TableAfter(s, e).entries[n].socket == k && WorkersAfter(s, e)[k].entry == Some(n)
      && TableAfter(s, e).entries[n].connId == WorkersAfter(s, e)[k].connId
  {
  }

  /** The goroutine a step belongs to. */
  function WorkerOf(e: Event): Option<nat> {
    match e
    case Refuse(k) => Some(k)
    case Track(k, _, _) => Some(k)
    case Read(k, _) => Some(k)
    case Touch(k) => Some(k)
    case Enqueue(k) => Some(k)
    case Drop(k) => Some(k)
    case Abandon(k) => Some(k)
    case Leave(k) => Some(k)
    case Removal(k) => Some(k)
    case Finish(k) => Some(k)
    case _ => None
  }

  /** Other goroutines, and their lines' pending packets, are left alone; a goroutine keeps its
      ID, its tuple and its state object once it has one. */
  lemma WorkersStep(s: State, e: Event)
    requires Shape(s) && Enabled(s, e)
    ensures var ws, ls := WorkersAfter(s, e), LinesAfter(s, e);
      && |ws| == |ls| == |s.workers| + (if Opens(s, e) then 1 else 0)
      && (forall k: nat :: k < |s.workers| && WorkerOf(e) != Some(k) ==>
            ws[k] == s.workers[k] && ls[k].pending == s.lines[k].pending)
      && (forall k: nat :: k < |s.workers| && s.workers[k].entry.Some? ==>
            && ws[k].entry == s.workers[k].entry && ws[k].connId == s.workers[k].connId
            && ws[k].flow == s.workers[k].flow)
  {
    if e.Track? { assert WorkerFits(s, e.k); }
  }

  /** The goroutine that moves fits where it gets. */
  lemma OwnWorkerFits(s: State, e: Event, k: nat)
    requires Shape(s) && Enabled(s, e) && WorkerOf(e) == Some(k)
    ensures k < |Apply(s, e).workers| == |Apply(s, e).lines| && Apply(s, e).table.Valid()
    ensures WorkerFits(Apply(s, e), k)
  {
    assert WorkerFits(s, k);
    OwnPhaseFits(s, e, k);
    hide TableAfter, WorkersAfter, LinesAfter;
    TableStep(s, e);
    WorkersStep(s, e);
    if e.Track? { NewEntry(s, e); }
  }

  /** Its phase fits its pending packet; it has a state object, new if it is being tracked. */
  lemma OwnPhaseFits(s: State, e: Event, k: nat)
    requires Shape(s) && Enabled(s, e) && WorkerOf(e) == Some(k)
    ensures k < |s.workers| && k < |WorkersAfter(s, e)| && k < |LinesAfter(s, e)|
    ensures var w := WorkersAfter(s, e)[k];
      && (LinesAfter(s, e)[k].pending.Some? <==> w.phase in {Touching, Holding})
      && w.phase != Starting && (w.Active() ==> w.entry.Some?)
      && (e.Track? <==> w.entry.Some? && s.workers[k].entry.None?)
  {
    assert WorkerFits(s, k);
    hide TableAfter, EntryOf;
  }

  lemma NewWorkerFits(s: State, e: Event)
    requires Shape(s) && Enabled(s, e) && Opens(s, e)
    ensures |Apply(s, e).workers| == |Apply(s, e).lines| == |s.workers| + 1 && Apply(s, e).table.Valid()
    ensures WorkerFits(Apply(s, e), |s.workers|)
  {
  }

  lemma OtherWorkerFits(s: State, e: Event, k: nat)
    requires Shape(s) && Enabled(s, e) && k < |s.workers| && WorkerOf(e) != Some(k)
    ensures k < |Apply(s, e).workers| == |Apply(s, e).lines| && Apply(s, e).table.Valid()
    ensures WorkerFits(Apply(s, e), k)
  {
    assert WorkerFits(s, k);
    TableStep(s, e);
    WorkersStep(s, e);
    hide TableAfter, WorkersAfter, LinesAfter;
  }

  lemma EntryOwners(s: State, e: Event, i: nat)
    requires Shape(s) && Enabled(s, e) && i < |TableAfter(s, e).entries|
    ensures var k := TableAfter(s, e).entries[i].socket;
      k < |WorkersAfter(s, e)| && WorkersAfter(s, e)[k].entry == Some(i)
  {
    hide TableAfter, WorkersAfter, LinesAfter;
    TableStep(s, e);
    WorkersStep(s, e);
    if i < |s.table.entries| {
      assert s.workers[s.table.entries[i].socket].entry == Some(i);
    } else {
      NewEntry(s, e);
    }
  }

  lemma HandStep(s: State, e: Event)
    requires Shape(s) && Enabled(s, e)
    ensures var s' := Apply(s, e); s'.inHand.Looked? || s'.inHand.Touched? ==> HandFits(s')
  {
    TableStep(s, e);
    if Dials(s, e) { NewEntry(s, e); }
    hide TableAfter, WorkersAfter, LinesAfter;
  }

  lemma StepKeepsShape(s: State, e: Event)
    requires Shape(s) && Enabled(s, e)
    ensures Shape(Apply(s, e))
  {
    var s' := Apply(s, e);
    TableStep(s, e);
    WorkersStep(s, e);
    HandStep(s, e);
    forall k | 0 <= k < |s'.workers| ensures WorkerFits(s', k) {
      if k < |s.workers| && WorkerOf(e) != Some(k) { OtherWorkerFits(s, e, k); }
      else if k < |s.workers| { OwnWorkerFits(s, e, k); }
      else { NewWorkerFits(s, e); }
    }
    forall i | 0 <= i < |s'.table.entries| ensures s'.workers[s'.table.entries[i].socket].entry == Some(i) {
      EntryOwners(s, e, i);
    }
    hide TableAfter, WorkersAfter, LinesAfter, WorkerFits, HandFits;
  }
}
