/** The relay server as a system of interleaved steps: one session per stream
    (`internal/server/grpc_client.go`, `internal/server/grpc_proxy.go`) over the shared tables
    (`internal/server/registry.go`), and the cleanup loop. A step is what happens between two
    points at which another goroutine can run: one locked section, one send, one receive. */
module Server {
  import opened Cidr
  import opened Wire
  import opened Routing

  /** A packet being relayed: who relays it, over which route, to which stream. */
  datatype Call = Call(stream: Stream, route: nat, dest: Stream, toProxy: bool, pkt: Packet)

  /** Where a session's loop stands. `Counting` and `Sending` are between the sections of
      `RouteFromClient` or `RouteFromProxy`; `Unwinding` runs the deferred unregisters. */
  datatype Phase = Receiving | Acking | Counting(call: Call) | Sending(call: Call) | Unwinding | Ended

  /** `id` and `registered` are the loop's variables, `pending` its deferred unregisters, in
      the order in which they were deferred. */
  datatype Session = Session(role: Role, id: Id, registered: bool, pending: seq<Id>, phase: Phase) {
    predicate Calling() {
      phase.Counting? || phase.Sending?
    }
  }

  /** `counted` and `sent` record the calls past the counting section and past the send. */
  datatype State = State(
    tables: Tables, sessions: map<Stream, Session>, clock: Time, counted: seq<Call>, sent: seq<Call>)
  {
    predicate In(st: Stream, phase: Phase) {
      st in sessions && sessions[st].phase == phase
    }

    function WithSession(st: Stream, session: Session): State {
      this.(sessions := sessions[st := session])
    }

    function WithPhase(st: Stream, phase: Phase): State
      requires st in sessions
    {
      WithSession(st, sessions[st].(phase := phase))
    }
  }

  function Init(clock: Time): State {
    State(EMPTY, map[], clock, [], [])
  }

  datatype Event =
    | Open(st: Stream, role: Role)
    | Register(st: Stream, id: Id, block: Option<Block>)
    | Acked(st: Stream, delivered: bool)
    | Receive(st: Stream, pkt: Packet, choice: Option<Id>)
    | Count(st: Stream)
    | Sent(st: Stream)
    | Stop(st: Stream)
    | Unwind(st: Stream)
    | SweepStale
    | Remove(id: Id)
    | Tick(now: Time)

  /** What holds between the tables and the calls under way. */
  predicate Shape(s: State) {
    && s.tables.Valid()
    && forall st :: st in s.sessions && s.sessions[st].Calling() ==> CallFits(s, st, s.sessions[st].phase.call)
  }

  predicate CallFits(s: State, st: Stream, call: Call) {
    && st in s.sessions && call.stream == st && call.toProxy == s.sessions[st].role.ClientRole?
    && call.route < |s.tables.routes| && s.tables.routes[call.route].connId == call.pkt.connId
  }

  predicate Enabled(s: State, e: Event) {
    match e
    case Open(st, _) => st !in s.sessions
    case Register(st, _, _) => s.In(st, Receiving)
    case Acked(st, _) => s.In(st, Acking)
    case Receive(st, pkt, choice) =>
      s.In(st, Receiving) && (pkt.connId !in s.tables.connections ==> Chosen(s.tables.proxys, pkt.Dst(), choice))
    case Count(st) => st in s.sessions && s.sessions[st].phase.Counting?
    case Sent(st) => st in s.sessions && s.sessions[st].phase.Sending?
    case Stop(st) => s.In(st, Receiving)
    case Unwind(st) => s.In(st, Unwinding)
    case SweepStale => true
    case Remove(_) => true
    case Tick(now) => s.clock <= now
  }

  function Apply(s: State, e: Event): State
    requires Shape(s) && Enabled(s, e)
  {
    match e
    case Open(st, role) => s.WithSession(st, Session(role, "", false, [], Receiving))
    case Register(st, id, block) => AfterRegister(s, st, id, block)
    case Acked(st, delivered) => s.WithPhase(st, if delivered then Receiving else Unwinding)
    case Receive(st, pkt, choice) => if s.sessions[st].registered then AfterLookup(s, st, pkt, choice) else s
    case Count(st) => AfterCount(s, st)
    case Sent(st) => s.WithPhase(st, Receiving).(sent := s.sent + [s.sessions[st].phase.call])
    case Stop(st) => s.WithPhase(st, Unwinding)
    case Unwind(st) => AfterUnwind(s, st)
    case SweepStale => s.(tables := Sweep(s.tables, s.clock))
    case Remove(id) => s.(tables := RemoveConnection(s.tables, id))
    case Tick(now) => s.(clock := now)
  }

  /** The ID is remembered and an ack sent even when the registry refuses it. */
  function AfterRegister(s: State, st: Stream, id: Id, block: Option<Block>): State
    requires st in s.sessions
  {
    var session := s.sessions[st];
    var ok := Holder(s.tables, session.role, id).None?;
    var tables := if session.role.ClientRole? then RegisterClient(s.tables, id, st)
                  else RegisterProxy(s.tables, id, st, block);
    s.WithSession(st, session.(
      id := id, registered := session.registered || ok,
      pending := if ok then session.pending + [id] else session.pending, phase := Acking)).(tables := tables)
  }

  function AfterLookup(s: State, st: Stream, pkt: Packet, choice: Option<Id>): State
    requires s.tables.Valid() && st in s.sessions
  {
    var session := s.sessions[st];
    var toProxy := session.role.ClientRole?;
    var (tables, found) := if toProxy then LookupToProxy(s.tables, session.id, pkt, choice, s.clock)
                           else LookupToClient(s.tables, pkt, s.clock);
    var phase := match found
      case Failed => Receiving
      case Found(r, dest) => Counting(Call(st, r, dest, toProxy, pkt));
    s.WithPhase(st, phase).(tables := tables)
  }

  function AfterCount(s: State, st: Stream): State
    requires Shape(s) && st in s.sessions && s.sessions[st].phase.Counting?
  {
    var call := s.sessions[st].phase.call;
    var bytes := |call.pkt.data|;
    var tables := if call.toProxy then CountToProxy(s.tables, call.route, bytes)
                  else CountToClient(s.tables, call.route, bytes);
    s.WithPhase(st, Sending(call)).(tables := tables, counted := s.counted + [call])
  }

  /** Deferred calls run last in, first out. */
  function AfterUnwind(s: State, st: Stream): State
    requires st in s.sessions
  {
    var session := s.sessions[st];
    var n := |session.pending|;
    if n == 0 then s.WithPhase(st, Ended)
    else
      var id := session.pending[n - 1];
      var tables := if session.role.ClientRole? then UnregisterClient(s.tables, id) else UnregisterProxy(s.tables, id);
      s.WithSession(st, session.(pending := session.pending[..n - 1])).(tables := tables)
  }

  /** The stream stored under an ID. */
  function Holder(t: Tables, role: Role, id: Id): Option<Stream> {
    match role
    case ClientRole => if id in t.clients then Some(t.clients[id]) else None
    case ProxyRole => if id in t.proxys then Some(t.proxys[id].stream) else None
  }

  // ---------------------------------------------------------------- what a receive finds

  /** The stream a packet goes to, read off the maps: none for a session that is not registered;
      otherwise that of the proxy, or of the client, that the packet's route names. A client's
      packet without a route gets one to the proxy chosen. */
  function Target(s: State, st: Stream, pkt: Packet, choice: Option<Id>): Option<Stream>
    requires s.tables.Valid() && st in s.sessions
  {
    var t, id := s.tables, pkt.connId;
    if !s.sessions[st].registered then None
    else if s.sessions[st].role.ClientRole? then
      var proxy := if id in t.connections then Some(t.routes[t.connections[id]].proxyId) else choice;
      if proxy.Some? && proxy.value in t.proxys then Some(t.proxys[proxy.value].stream) else None
    else
      var client := if id in t.connections then Some(t.routes[t.connections[id]].clientId) else None;
      if client.Some? && client.value in t.clients then Some(t.clients[client.value]) else None
  }

  /** A packet received is relayed, over the route stored under its ID, exactly when there is a
      stream for it, and then to that stream; otherwise the session goes on receiving. */
  lemma ReceiveFindsTarget(s: State, st: Stream, pkt: Packet, choice: Option<Id>)
    requires Shape(s) && Enabled(s, Receive(st, pkt, choice))
    ensures st in s.sessions
    ensures var s', target := Apply(s, Receive(st, pkt, choice)), Target(s, st, pkt, choice);
      match target
      case None => s'.In(st, Receiving)
      case Some(dest) =>
        && pkt.connId in s'.tables.connections
        && s'.In(st, Counting(
             Call(st, s'.tables.connections[pkt.connId], dest, s.sessions[st].role.ClientRole?, pkt)))
  {
  }

  /** The states a run passes through. */
  ghost predicate Run(states: seq<State>, events: seq<Event>) {
    && |states| == |events| + 1
    && states[0] == Init(states[0].clock)
    && forall i :: 0 <= i < |events| ==>
      Shape(states[i]) && Enabled(states[i], events[i]) && states[i + 1] == Apply(states[i], events[i])
  }

  // ---------------------------------------------------------------- routes over time

  /** Routes keep their binding, and new ones are only added at the end. */
  predicate Extends(old': seq<Route>, new': seq<Route>) {
    |old'| <= |new'| && forall r :: 0 <= r < |old'| ==> new'[r].Binding() == old'[r].Binding()
  }

  lemma StepExtends(s: State, e: Event)
    requires Shape(s) && Enabled(s, e)
    ensures Extends(s.tables.routes, Apply(s, e).tables.routes)
  {
    if e.Receive? {
      LookupExtends(s, e.st, e.pkt, e.choice);
      hide AfterLookup;
    }
  }

  lemma LookupExtends(s: State, st: Stream, pkt: Packet, choice: Option<Id>)
    requires s.tables.Valid() && st in s.sessions
    ensures Extends(s.tables.routes, AfterLookup(s, st, pkt, choice).tables.routes)
  {
  }

  lemma StepKeepsTables(s: State, e: Event)
    requires Shape(s) && Enabled(s, e)
    ensures Apply(s, e).tables.Valid()
  {
    match e
    case Receive(st, pkt, choice) => LookupKeepsTables(s, st, pkt, choice);
    case _ =>
  }

  lemma LookupKeepsTables(s: State, st: Stream, pkt: Packet, choice: Option<Id>)
    requires s.tables.Valid() && st in s.sessions
    ensures var t := AfterLookup(s, st, pkt, choice).tables;
      t.Valid() && t.clients == s.tables.clients && t.proxys == s.tables.proxys
  {
  }

  /** The stream whose session takes the step, if it is a session's step. */
  function Actor(e: Event): Option<Stream> {
    match e
    case Open(st, _) => Some(st)
    case Register(st, _, _) => Some(st)
    case Acked(st, _) => Some(st)
    case Receive(st, _, _) => Some(st)
    case Count(st) => Some(st)
    case Sent(st) => Some(st)
    case Stop(st) => Some(st)
    case Unwind(st) => Some(st)
    case SweepStale => None
    case Remove(_) => None
    case Tick(_) => None
  }

  /** A step changes no session but its own, and no session disappears or changes its role. */
  lemma StepFrame(s: State, e: Event)
    requires Shape(s) && Enabled(s, e)
    ensures var s' := Apply(s, e);
      forall st :: Actor(e) != Some(st) ==>
        (st in s'.sessions <==> st in s.sessions) && (st in s.sessions ==> s'.sessions[st] == s.sessions[st])
    ensures var s' := Apply(s, e);
      forall st :: st in s.sessions ==> st in s'.sessions && s'.sessions[st].role == s.sessions[st].role
  {
  }

  /** A step that leaves its session in a call leaves a call of its own over a known route. */
  lemma OwnCallFits(s: State, e: Event, st: Stream)
    requires Shape(s) && Enabled(s, e) && Actor(e) == Some(st)
    ensures var s' := Apply(s, e);
      st in s'.sessions && (s'.sessions[st].Calling() ==> CallFits(s', st, s'.sessions[st].phase.call))
  {
  }

  lemma StepKeepsShape(s: State, e: Event)
    requires Shape(s) && Enabled(s, e)
    ensures Shape(Apply(s, e))
  {
    var s' := Apply(s, e);
    StepExtends(s, e);
    StepKeepsTables(s, e);
    StepFrame(s, e);
    forall st | st in s'.sessions && s'.sessions[st].Calling() ensures CallFits(s', st, s'.sessions[st].phase.call) {
      if Actor(e) == Some(st) {
        OwnCallFits(s, e, st);
      } else {
        StillFits(s, s', st);
      }
    }
  }

  lemma StillFits(s: State, s': State, st: Stream)
    requires Shape(s) && Extends(s.tables.routes, s'.tables.routes)
    requires st in s.sessions && st in s'.sessions && s'.sessions[st] == s.sessions[st] && s.sessions[st].Calling()
    ensures CallFits(s', st, s'.sessions[st].phase.call)
  {
    var r := s.sessions[st].phase.call.route;
    assert s'.tables.routes[r].Binding() == s.tables.routes[r].Binding();
  }
}
