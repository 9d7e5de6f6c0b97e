/** The receive loop of `Connect`, which `internal/server/grpc_client.go` and
    `internal/server/grpc_proxy.go` share but for the registry calls they make, as it is
    written: local variables, an object it shares with the other sessions, and deferred calls.
    Run without interruption, it is proved to take exactly the steps of `Server` that play its
    inbox, and to leave the registration tables as it found them. */
module Sessions {
  import opened Cidr
  import opened Wire
  import R = Routing
  import Registry
  import S = Server
  import Paths

  /** What `Recv` returns; the time that has passed when a packet is received matters. The end
      of an inbox is the end of the stream. */
  datatype Message =
    | Register(id: Id, block: Option<Block>)
    | Data(pkt: Packet, elapsed: nat)
    | Heartbeat
    | Other

  /** The variables of a session's loop, and its deferred unregisters. */
  datatype Locals = Locals(id: Id, registered: bool, deferred: seq<Id>)

  ghost predicate Step(s: S.State, e: S.Event, s': S.State) {
    S.Shape(s) && S.Enabled(s, e) && s' == S.Apply(s, e)
  }

  /** Some steps lead from one state to the other. */
  ghost predicate Leads(s: S.State, s': S.State) {
    Paths.Leads(Step, s, s')
  }

  lemma OneMore(before: S.State, s: S.State, e: S.Event) returns (s': S.State)
    requires Leads(before, s) && S.Shape(s) && S.Enabled(s, e)
    ensures s' == S.Apply(s, e) && S.Shape(s') && Leads(before, s')
  {
    hide S.Apply, S.Shape, S.Enabled;
    s' := S.Apply(s, e);
    S.StepKeepsShape(s, e);
    assert Step(s, e, s');
    Paths.LeadsOn(Step, before, s, e, s');
  }

  function Sends(calls: seq<S.Call>): (r: seq<(Stream, Packet)>)
    ensures |r| == |calls|
  {
    seq(|calls|, i requires 0 <= i < |calls| => (calls[i].dest, calls[i].pkt))
  }

  lemma SendsOneMore(calls: seq<S.Call>, call: S.Call)
    ensures Sends(calls + [call]) == Sends(calls) + [(call.dest, call.pkt)]
  {
  }

  /** `after` is `before` with the IDs granted since. */
  ghost predicate Grown<V>(before: map<Id, V>, after: map<Id, V>, granted: seq<Id>) {
    && (forall id :: id in after <==> id in before || id in granted)
    && (forall id :: id in before ==> after[id] == before[id] && id !in granted)
    && (forall i, j :: 0 <= i < j < |granted| ==> granted[i] != granted[j])
  }

  lemma GrownByNothing<V>(before: map<Id, V>, after: map<Id, V>)
    requires Grown(before, after, [])
    ensures after == before
  {
  }

  lemma LastUnregistered<V>(before: map<Id, V>, after: map<Id, V>, granted: seq<Id>)
    requires granted != [] && Grown(before, after, granted)
    ensures Grown(before, after - {granted[|granted| - 1]}, granted[..|granted| - 1])
  {
    var n := |granted| - 1;
    assert granted == granted[..n] + [granted[n]];
  }

  /** The tables one session may have changed since it began. */
  ghost predicate OnlyGranted(before: R.Tables, now: R.Tables, role: Role, granted: seq<Id>) {
    && Grown(before.clients, now.clients, if role.ClientRole? then granted else [])
    && Grown(before.proxys, now.proxys, if role.ProxyRole? then granted else [])
  }

  /** The only session there is, in a state of the server. */
  ghost predicate Alone(s: S.State, st: Stream, role: Role, v: Locals, phase: S.Phase) {
    S.Shape(s) && s.sessions == map[st := S.Session(role, v.id, v.registered, v.deferred, phase)]
  }

  // ---------------------------------------------------------------- the loop, in steps

  /** A registration: the tables and the session change, and the ack goes out or is lost. */
  function AfterRegistration(s: S.State, st: Stream, id: Id, block: Option<Block>, delivered: bool): S.State
    requires S.Shape(s) && s.In(st, S.Receiving)
  {
    var e := S.Register(st, id, block);
    S.StepKeepsShape(s, e);
    S.Apply(S.Apply(s, e), S.Acked(st, delivered))
  }

  /** A packet: a lookup, and when it succeeds the counting and the send. */
  function AfterPacket(s: S.State, st: Stream, pkt: Packet, choice: Option<Id>): S.State
    requires S.Shape(s) && S.Enabled(s, S.Receive(st, pkt, choice))
  {
    var e := S.Receive(st, pkt, choice);
    S.StepKeepsShape(s, e);
    var looked := S.Apply(s, e);
    if st in looked.sessions && looked.sessions[st].phase.Counting? then AfterCall(looked, st) else looked
  }

  function AfterCall(s: S.State, st: Stream): S.State
    requires S.Shape(s) && S.Enabled(s, S.Count(st))
  {
    S.StepKeepsShape(s, S.Count(st));
    S.Apply(S.Apply(s, S.Count(st)), S.Sent(st))
  }

  /** The session waits for a message, and `choice` is a proxy its packet may go to if it needs
      a new route. */
  predicate Allowed(s: S.State, st: Stream, m: Message, choice: Option<Id>) {
    s.In(st, S.Receiving) && (m.Data? ==> S.Enabled(s, S.Receive(st, m.pkt, choice)))
  }

  /** One message, of any kind. */
  function AfterMessage(s: S.State, st: Stream, m: Message, delivered: bool, choice: Option<Id>): S.State
    requires S.Shape(s) && Allowed(s, st, m, choice)
  {
    match m
    case Register(id, block) => AfterRegistration(s, st, id, block, delivered)
    case Data(pkt, elapsed) => AfterPacket(s.(clock := s.clock + elapsed), st, pkt, choice)
    case Heartbeat => s
    case Other => s
  }

  ghost predicate Takes(s: S.State, st: Stream, m: Message, delivered: bool, choice: Option<Id>, s': S.State) {
    S.Shape(s) && Allowed(s, st, m, choice) && s' == AfterMessage(s, st, m, delivered, choice)
  }

  /** One message after the other, from the first; a lost ack is the last, because no message is
      allowed after it. */
  ghost predicate Plays(
    states: seq<S.State>, choices: seq<Option<Id>>, st: Stream, inbox: seq<Message>, lost: set<nat>)
  {
    && |states| == |choices| + 1 && |choices| <= |inbox|
    && forall i :: 0 <= i < |choices| ==> Takes(states[i], st, inbox[i], i !in lost, choices[i], states[i + 1])
  }

  /** The deferred calls, to the last. */
  function Unwound(s: S.State, st: Stream): S.State
    requires S.Shape(s) && s.In(st, S.Unwinding)
    decreases |s.sessions[st].pending|
  {
    var s' := S.Apply(s, S.Unwind(st));
    S.StepKeepsShape(s, S.Unwind(st));
    if s.sessions[st].pending == [] then s' else Unwound(s', st)
  }

  /** The end of a session that is still receiving or whose ack was lost. */
  ghost predicate Closes(s: S.State, st: Stream, end: S.State) {
    && S.Shape(s) && (s.In(st, S.Receiving) || s.In(st, S.Unwinding))
    && end == Unwound(if s.In(st, S.Receiving) then s.WithPhase(st, S.Unwinding) else s, st)
  }

  /** The whole session, from its opening. */
  ghost predicate Played(
    start: S.State, role: Role, st: Stream, inbox: seq<Message>, lost: set<nat>, end: S.State,
    states: seq<S.State>, choices: seq<Option<Id>>)
  {
    && S.Shape(start) && S.Enabled(start, S.Open(st, role))
    && Plays(states, choices, st, inbox, lost) && states[0] == S.Apply(start, S.Open(st, role))
    && (states[|choices|].In(st, S.Receiving) ==> |choices| == |inbox|)
    && Closes(states[|choices|], st, end)
  }

  // ---------------------------------------------------------------- what the steps do

  /** What a registration does to the session's variables. */
  function Registered(v: Locals, id: Id, ok: bool): Locals {
    Locals(id, v.registered || ok, if ok then v.deferred + [id] else v.deferred)
  }

  lemma RegisterSteps(
      before: S.State, s: S.State, st: Stream, role: Role, v: Locals, id: Id, block: Option<Block>, delivered: bool)
    returns (s': S.State)
    requires Alone(s, st, role, v, S.Receiving) && Leads(before, s)
    ensures Leads(before, s') && s' == AfterRegistration(s, st, id, block, delivered)
    ensures var ok := S.Holder(s.tables, role, id).None?;
      Alone(s', st, role, Registered(v, id, ok), if delivered then S.Receiving else S.Unwinding)
    ensures s'.clock == s.clock && s'.sent == s.sent
    ensures s'.tables == AfterRegister(s.tables, role, id, st, block)
  {
    s' := OneMore(before, s, S.Register(st, id, block));
    s' := OneMore(before, s', S.Acked(st, delivered));
    hide S.Shape, Leads;
    assert s'.sessions == map[st := s'.sessions[st]];
  }

  function AfterRegister(t: R.Tables, role: Role, id: Id, st: Stream, block: Option<Block>): R.Tables {
    if role.ClientRole? then R.RegisterClient(t, id, st) else R.RegisterProxy(t, id, st, block)
  }

  lemma RegisterGrants(
      before: R.Tables, t: R.Tables, role: Role, granted: seq<Id>, id: Id, st: Stream, block: Option<Block>)
    requires OnlyGranted(before, t, role, granted)
    ensures var ok := S.Holder(t, role, id).None?;
      OnlyGranted(before, AfterRegister(t, role, id, st, block), role, if ok then granted + [id] else granted)
  {
  }

  function Looked(t: R.Tables, role: Role, id: Id, pkt: Packet, choice: Option<Id>, now: Time): (R.Tables, R.Lookup)
    requires t.Valid()
  {
    if role.ClientRole? then R.LookupToProxy(t, id, pkt, choice, now) else R.LookupToClient(t, pkt, now)
  }

  lemma LookupSteps(
      before: S.State, s: S.State, st: Stream, role: Role, v: Locals, pkt: Packet, choice: Option<Id>)
    returns (s': S.State, call: Option<S.Call>)
    requires Alone(s, st, role, v, S.Receiving) && Leads(before, s) && v.registered
    requires S.Enabled(s, S.Receive(st, pkt, choice))
    ensures Leads(before, s') && s'.clock == s.clock && s'.sent == s.sent
    ensures S.Shape(s) && s' == S.Apply(s, S.Receive(st, pkt, choice))
    ensures var (looked, found) := Looked(s.tables, role, v.id, pkt, choice, s.clock);
      && s'.tables == looked
      && match found
         case Failed => call == None && Alone(s', st, role, v, S.Receiving)
         case Found(r, dest) =>
           call == Some(S.Call(st, r, dest, role.ClientRole?, pkt)) && Alone(s', st, role, v, S.Counting(call.value))
  {
    s' := OneMore(before, s, S.Receive(st, pkt, choice));
    assert s'.sessions == map[st := s'.sessions[st]];
    call := if s'.sessions[st].phase.Counting? then Some(s'.sessions[st].phase.call) else None;
    hide S.Shape, S.Enabled, Leads;
  }

  function Counted(t: R.Tables, role: Role, route: nat, bytes: nat): R.Tables
    requires route < |t.routes|
  {
    if role.ClientRole? then R.CountToProxy(t, route, bytes) else R.CountToClient(t, route, bytes)
  }

  lemma CountStep(before: S.State, s: S.State, st: Stream, role: Role, v: Locals, call: S.Call) returns (s': S.State)
    requires Alone(s, st, role, v, S.Counting(call)) && Leads(before, s)
    ensures Leads(before, s') && Alone(s', st, role, v, S.Sending(call)) && s'.clock == s.clock && s'.sent == s.sent
    ensures S.Shape(s) && s' == S.Apply(s, S.Count(st))
    ensures call.route < |s.tables.routes| && s'.tables == Counted(s.tables, role, call.route, |call.pkt.data|)
  {
    assert S.CallFits(s, st, call);
    s' := OneMore(before, s, S.Count(st));
    assert s'.sessions == map[st := s'.sessions[st]];
    hide S.Shape, S.Enabled, Leads;
  }

  lemma CountSteps(before: S.State, s: S.State, st: Stream, role: Role, v: Locals, call: S.Call) returns (s': S.State)
    requires Alone(s, st, role, v, S.Counting(call)) && Leads(before, s)
    ensures Leads(before, s') && Alone(s', st, role, v, S.Receiving) && s'.clock == s.clock
    ensures s'.sent == s.sent + [call]
    ensures S.Shape(s) && S.Enabled(s, S.Count(st)) && s' == AfterCall(s, st)
    ensures call.route < |s.tables.routes| && s'.tables == Counted(s.tables, role, call.route, |call.pkt.data|)
  {
    s' := CountStep(before, s, st, role, v, call);
    s' := OneMore(before, s', S.Sent(st));
    assert s'.sessions == map[st := s'.sessions[st]];
    hide S.Shape, Leads;
  }

  /** What a registered session puts on a stream for a packet, and the tables afterwards. */
  ghost predicate Relays(
    s: S.State, role: Role, id: Id, pkt: Packet, choice: Option<Id>, sent: seq<(Stream, Packet)>, tables: R.Tables)
    requires s.tables.Valid()
  {
    var (looked, found) := Looked(s.tables, role, id, pkt, choice, s.clock);
    match found
    case Failed => sent == [] && tables == looked
    case Found(r, dest) =>
      sent == [(dest, pkt)] && r < |looked.routes| && tables == Counted(looked, role, r, |pkt.data|)
  }

  lemma RelaySteps(
      before: S.State, s: S.State, st: Stream, role: Role, v: Locals, pkt: Packet, choice: Option<Id>)
    returns (s': S.State, sent: seq<(Stream, Packet)>)
    requires Alone(s, st, role, v, S.Receiving) && Leads(before, s) && v.registered
    requires pkt.connId !in s.tables.connections ==> R.Chosen(s.tables.proxys, pkt.Dst(), choice)
    ensures Leads(before, s') && Alone(s', st, role, v, S.Receiving) && s'.clock == s.clock
    ensures S.Shape(s) && S.Enabled(s, S.Receive(st, pkt, choice)) && s' == AfterPacket(s, st, pkt, choice)
    ensures Sends(s'.sent) == Sends(s.sent) + sent && Relays(s, role, v.id, pkt, choice, sent, s'.tables)
  {
    assert S.Enabled(s, S.Receive(st, pkt, choice));
    hide Leads, S.Apply, S.Enabled, S.Shape, R.Chosen, Sends, Looked, Counted, AfterCall;
    var call;
    s', call := LookupSteps(before, s, st, role, v, pkt, choice);
    sent := [];
    if call.Some? {
      SendsOneMore(s.sent, call.value);
      sent := [(call.value.dest, pkt)];
      s' := CountSteps(before, s', st, role, v, call.value);
    }
  }

  lemma IgnoredPacket(s: S.State, st: Stream, role: Role, v: Locals, pkt: Packet, choice: Option<Id>)
    requires Alone(s, st, role, v, S.Receiving) && !v.registered
    requires pkt.connId !in s.tables.connections ==> R.Chosen(s.tables.proxys, pkt.Dst(), choice)
    ensures S.Shape(s) && S.Enabled(s, S.Receive(st, pkt, choice)) && AfterPacket(s, st, pkt, choice) == s
  {
    hide R.Chosen;
  }

  function Popped(v: Locals): Locals
    requires v.deferred != []
  {
    v.(deferred := v.deferred[..|v.deferred| - 1])
  }

  function AfterUnregister(t: R.Tables, role: Role, id: Id): R.Tables {
    if role.ClientRole? then R.UnregisterClient(t, id) else R.UnregisterProxy(t, id)
  }

  lemma UnwindStep(before: S.State, s: S.State, st: Stream, role: Role, v: Locals) returns (s': S.State)
    requires Alone(s, st, role, v, S.Unwinding) && Leads(before, s)
    ensures Leads(before, s') && s'.sent == s.sent
    ensures if v.deferred == [] then s'.tables == s.tables && Alone(s', st, role, v, S.Ended)
            else
              && Alone(s', st, role, Popped(v), S.Unwinding)
              && s'.tables == AfterUnregister(s.tables, role, v.deferred[|v.deferred| - 1])
    ensures S.Shape(s) && s.In(st, S.Unwinding)
    ensures if v.deferred == [] then Unwound(s, st) == s'
            else S.Shape(s') && s'.In(st, S.Unwinding) && Unwound(s, st) == Unwound(s', st)
  {
    s' := OneMore(before, s, S.Unwind(st));
    assert s'.sessions == map[st := s'.sessions[st]];
    hide S.Shape, S.Enabled, Leads;
  }

  lemma OpenStep(t: R.Tables, st: Stream, role: Role, clock: Time) returns (s': S.State)
    requires t.Valid()
    ensures Leads(Before(t, clock), s') && Alone(s', st, role, Locals("", false, []), S.Receiving)
    ensures s'.tables == t && s'.clock == clock && s'.sent == []
    ensures OnlyGranted(t, t, role, [])
    ensures var s := Before(t, clock);
      S.Shape(s) && S.Enabled(s, S.Open(st, role)) && s' == S.Apply(s, S.Open(st, role))
  {
    var s := Before(t, clock);
    Paths.LeadsNowhere(Step, s);
    s' := OneMore(s, s, S.Open(st, role));
  }

  /** The server just before the session begins. */
  function Before(t: R.Tables, clock: Time): S.State {
    S.State(t, map[], clock, [], [])
  }

  // ---------------------------------------------------------------- the loop

  /** The case of a registration; `delivered` says whether the ack can be sent. */
  method ReceiveRegister(
      role: Role, registry: Registry.Registry, st: Stream, id: Id, block: Option<Block>, v: Locals, delivered: bool,
      ghost before: S.State, ghost s: S.State)
    returns (v': Locals, ghost s': S.State)
    requires Kept(registry, st, role, v, S.Receiving, before, s)
    modifies registry
    ensures Kept(registry, st, role, v', if delivered then S.Receiving else S.Unwinding, before, s')
    ensures registry.created == old(registry.created) && s'.clock == s.clock && s'.sent == s.sent
    ensures S.Shape(s) && s.In(st, S.Receiving) && s' == AfterRegistration(s, st, id, block, delivered)
    ensures v' == Registered(v, id, S.Holder(s.tables, role, id).None?)
  {
    RegisterGrants(before.tables, s.tables, role, v.deferred, id, st, block);
    s' := RegisterSteps(before, s, st, role, v, id, block, delivered);
    hide Leads, OnlyGranted, AfterRegistration;
    var ok;
    if role.ClientRole? {
      ok := registry.RegisterClientStream(id, st);
    } else {
      ok := registry.RegisterProxyStream(id, st, block);
    }
    v' := v.(id := id);
    if ok {
      v' := v'.(registered := true, deferred := v'.deferred + [id]);
    }
  }

  /** The call that routes a packet, whichever service makes it. */
  method Relay(role: Role, registry: Registry.Registry, id: Id, pkt: Packet, now: Time)
    returns (target: Option<Stream>, ghost choice: Option<Id>)
    requires registry.Valid()
    modifies registry, registry.created
    ensures registry.Valid() && fresh((set r | r in registry.created) - old(set r | r in registry.created))
    ensures pkt.connId !in old(registry.Tables()).connections ==> R.Chosen(old(registry.proxys), pkt.Dst(), choice)
    ensures registry.clients == old(registry.clients) && registry.proxys == old(registry.proxys)
    ensures var (looked, found) := Looked(old(registry.Tables()), role, id, pkt, choice, now);
      match found
      case Failed => target == None && registry.Tables() == looked
      case Found(r, dest) =>
        target == Some(dest) && r < |looked.routes| && registry.Tables() == Counted(looked, role, r, |pkt.data|)
  {
    if role.ClientRole? {
      target, choice := registry.RouteFromClient(id, pkt, now);
    } else {
      choice := SomeChoice(registry.proxys, pkt.Dst());
      target := registry.RouteFromProxy(pkt, now);
    }
    assert registry.Tables().clients == old(registry.Tables()).clients;
    assert registry.Tables().proxys == old(registry.Tables()).proxys;
  }

  /** The case of a packet: `sent` is what goes out on which stream. */
  method ReceivePacket(
      role: Role, registry: Registry.Registry, st: Stream, pkt: Packet, now: Time, v: Locals,
      ghost before: S.State, ghost s: S.State)
    returns (sent: seq<(Stream, Packet)>, ghost choice: Option<Id>, ghost s': S.State)
    requires Kept(registry, st, role, v, S.Receiving, before, s) && s.clock == now
    modifies registry, registry.created
    ensures Kept(registry, st, role, v, S.Receiving, before, s') && s'.clock == s.clock
    ensures fresh((set r | r in registry.created) - old(set r | r in registry.created))
    ensures pkt.connId !in s.tables.connections ==> R.Chosen(s.tables.proxys, pkt.Dst(), choice)
    ensures if v.registered then Relays(s, role, v.id, pkt, choice, sent, s'.tables) else sent == [] && s' == s
    ensures Sends(s'.sent) == Sends(s.sent) + sent
    ensures S.Shape(s) && S.Enabled(s, S.Receive(st, pkt, choice)) && s' == AfterPacket(s, st, pkt, choice)
  {
    sent, s' := [], s;
    if !v.registered {
      choice := SomeChoice(s.tables.proxys, pkt.Dst());
      IgnoredPacket(s, st, role, v, pkt, choice);
      return;
    }
    hide Leads, Alone, S.Enabled, OnlyGranted, R.Chosen, Looked, Counted, Sends, AfterPacket, S.Shape;
    var target;
    target, choice := Relay(role, registry, v.id, pkt, now);
    ghost var calls;
    s', calls := RelaySteps(before, s, st, role, v, pkt, choice);
    if target.Some? { sent := [(target.value, pkt)]; }
    assert sent == calls;
    SameGranted(before.tables, s.tables, s'.tables, role, v.deferred);
  }

  /** Some proxy can be chosen, or none. */
  lemma SomeChoice(proxys: map<Id, R.ProxyConn>, dst: Option<Address>) returns (choice: Option<Id>)
    ensures R.Chosen(proxys, dst, choice)
  {
    if id :| id in proxys && proxys[id].Serves(dst) { choice := Some(id); } else { choice := None; }
  }

  /** Deferred calls, last in first out. */
  method RunDeferred(
      role: Role, registry: Registry.Registry, st: Stream, v: Locals, ghost before: S.State, ghost s: S.State)
    returns (ghost s': S.State)
    requires Kept(registry, st, role, v, S.Unwinding, before, s)
    modifies registry
    ensures registry.Valid() && s'.tables == registry.Tables() && s'.sent == s.sent
    ensures S.Shape(s) && s.In(st, S.Unwinding) && s' == Unwound(s, st)
    ensures s'.In(st, S.Ended) && Leads(before, s')
    ensures registry.clients == before.tables.clients && registry.proxys == before.tables.proxys
  {
    var rest := v;
    s' := s;
    KeptIn(registry, st, role, v, S.Unwinding, before, s);
    hide Kept, S.Shape, Unwound, Leads;
    while rest.deferred != []
      invariant Kept(registry, st, role, rest, S.Unwinding, before, s') && registry.created == old(registry.created)
      invariant S.Shape(s) && S.Shape(s') && s.In(st, S.Unwinding) && s'.In(st, S.Unwinding)
      invariant s'.sent == s.sent && Unwound(s', st) == Unwound(s, st)
      decreases |rest.deferred|
    {
      s' := RunLast(role, registry, st, rest, before, s');
      rest := Popped(rest);
    }
    s' := EndStep(registry, before, s', st, role, rest);
  }

  /** The deferred call that runs next. */
  method RunLast(
      role: Role, registry: Registry.Registry, st: Stream, v: Locals, ghost before: S.State, ghost s: S.State)
    returns (ghost s': S.State)
    requires Kept(registry, st, role, v, S.Unwinding, before, s) && v.deferred != []
    modifies registry
    ensures Kept(registry, st, role, Popped(v), S.Unwinding, before, s') && registry.created == old(registry.created)
    ensures S.Shape(s) && S.Shape(s') && s.In(st, S.Unwinding) && s'.In(st, S.Unwinding)
    ensures s'.sent == s.sent && Unwound(s', st) == Unwound(s, st)
  {
    var id := v.deferred[|v.deferred| - 1];
    UnregisterGrants(before.tables, s.tables, role, v.deferred);
    s' := UnwindStep(before, s, st, role, v);
    hide Alone, Leads, OnlyGranted, S.Shape, Unwound;
    if role.ClientRole? { registry.UnregisterClient(id); } else { registry.UnregisterProxy(id); }
  }

  /** Nothing is deferred any more: the session ends, and the tables are as before it. */
  lemma EndStep(registry: Registry.Registry, before: S.State, s: S.State, st: Stream, role: Role, v: Locals)
    returns (s': S.State)
    requires Kept(registry, st, role, v, S.Unwinding, before, s) && v.deferred == []
    ensures registry.Valid() && s'.tables == registry.Tables() && s'.sent == s.sent
    ensures S.Shape(s) && s.In(st, S.Unwinding) && s' == Unwound(s, st)
    ensures s'.In(st, S.Ended) && Leads(before, s')
    ensures registry.clients == before.tables.clients && registry.proxys == before.tables.proxys
  {
    hide Leads, Unwound;
    GrownByNothing(before.tables.clients, s.tables.clients);
    GrownByNothing(before.tables.proxys, s.tables.proxys);
    s' := UnwindStep(before, s, st, role, v);
  }

  lemma UnregisterGrants(before: R.Tables, t: R.Tables, role: Role, granted: seq<Id>)
    requires OnlyGranted(before, t, role, granted) && granted != []
    ensures var n := |granted| - 1;
      OnlyGranted(before, AfterUnregister(t, role, granted[n]), role, granted[..n])
  {
    if role.ClientRole? {
      LastUnregistered(before.clients, t.clients, granted);
    } else {
      LastUnregistered(before.proxys, t.proxys, granted);
    }
  }

  /** What the loop keeps: the server is where the steps so far lead, and the registration
      tables have changed by what this session was granted. */
  ghost predicate Kept(
    registry: Registry.Registry, st: Stream, role: Role, v: Locals, phase: S.Phase, before: S.State, s: S.State)
    reads registry, registry.created
  {
    && registry.Valid() && s.tables == registry.Tables()
    && Alone(s, st, role, v, phase) && Leads(before, s) && OnlyGranted(before.tables, s.tables, role, v.deferred)
  }

  /** One turn of the loop. */
  method ReceiveMessage(
      role: Role, registry: Registry.Registry, st: Stream, m: Message, now: Time, v: Locals, delivered: bool,
      ghost before: S.State, ghost s: S.State)
    returns (v': Locals, sent: seq<(Stream, Packet)>, ghost choice: Option<Id>, ghost s': S.State)
    requires Kept(registry, st, role, v, S.Receiving, before, s) && s.clock == now
    modifies registry, registry.created
    ensures Kept(registry, st, role, v', if m.Register? && !delivered then S.Unwinding else S.Receiving, before, s')
    ensures fresh((set r | r in registry.created) - old(set r | r in registry.created))
    ensures s'.clock == now + (if m.Data? then m.elapsed else 0) && Sends(s'.sent) == Sends(s.sent) + sent
    ensures Takes(s, st, m, delivered, choice, s')
  {
    v', sent, choice, s' := v, [], None, s;
    KeptIn(registry, st, role, v, S.Receiving, before, s);
    hide Kept, Takes, AfterRegistration, AfterPacket, S.Shape, S.Enabled, Relays, Registered, Sends;
    match m
    case Register(id, block) =>
      v', s' := ReceiveRegister(role, registry, st, id, block, v, delivered, before, s);
      PlainMessage(s, st, m, delivered, s');
    case Data(pkt, elapsed) =>
      ghost var later := TickStep(registry, before, s, st, role, v, elapsed);
      sent, choice, s' := ReceivePacket(role, registry, st, pkt, now + elapsed, v, before, later);
      DataMessage(s, st, m, later, delivered, choice, s');
    case Heartbeat => PlainMessage(s, st, m, delivered, s');
    case Other => PlainMessage(s, st, m, delivered, s');
  }

  lemma DataMessage(
      s: S.State, st: Stream, m: Message, later: S.State, delivered: bool, choice: Option<Id>, s': S.State)
    requires m.Data? && later == s.(clock := s.clock + m.elapsed)
    requires S.Shape(later) && S.Enabled(later, S.Receive(st, m.pkt, choice))
    requires s' == AfterPacket(later, st, m.pkt, choice)
    ensures Takes(s, st, m, delivered, choice, s')
  {
    hide AfterPacket;
  }

  lemma PlainMessage(s: S.State, st: Stream, m: Message, delivered: bool, s': S.State)
    requires !m.Data? && S.Shape(s) && s.In(st, S.Receiving)
    requires s' == if m.Register? then AfterRegistration(s, st, m.id, m.block, delivered) else s
    ensures Takes(s, st, m, delivered, None, s')
  {
    hide AfterRegistration;
  }

  lemma KeptIn(
      registry: Registry.Registry, st: Stream, role: Role, v: Locals, phase: S.Phase, before: S.State, s: S.State)
    requires Kept(registry, st, role, v, phase, before, s)
    ensures registry.Valid() && S.Shape(s) && s.In(st, phase)
  {
    hide Leads, OnlyGranted;
  }

  lemma StopStep(registry: Registry.Registry, before: S.State, s: S.State, st: Stream, role: Role, v: Locals)
    returns (s': S.State)
    requires Kept(registry, st, role, v, S.Receiving, before, s)
    ensures Kept(registry, st, role, v, S.Unwinding, before, s') && s'.sent == s.sent
    ensures s.In(st, S.Receiving) && s' == s.WithPhase(st, S.Unwinding)
  {
    s' := OneMore(before, s, S.Stop(st));
    hide Leads, OnlyGranted;
    assert s'.sessions == map[st := s'.sessions[st]];
  }

  lemma TickStep(
      registry: Registry.Registry, before: S.State, s: S.State, st: Stream, role: Role, v: Locals, elapsed: nat)
    returns (s': S.State)
    requires Kept(registry, st, role, v, S.Receiving, before, s)
    ensures Kept(registry, st, role, v, S.Receiving, before, s') && s' == s.(clock := s.clock + elapsed)
  {
    s' := OneMore(before, s, S.Tick(s.clock + elapsed));
    hide Leads, OnlyGranted;
  }

  lemma PlaysOn(
      states: seq<S.State>, choices: seq<Option<Id>>, st: Stream, inbox: seq<Message>, lost: set<nat>,
      choice: Option<Id>, s: S.State)
    requires Plays(states, choices, st, inbox, lost) && |choices| < |inbox|
    requires var k := |choices|; Takes(states[k], st, inbox[k], k !in lost, choice, s)
    ensures Plays(states + [s], choices + [choice], st, inbox, lost)
  {
    hide Takes;
    var states', choices' := states + [s], choices + [choice];
    assert forall i :: 0 <= i < |choices| ==> choices'[i] == choices[i] && states'[i] == states[i];
  }

  /** `Connect`, from the opening of a stream to its end: the server goes through the steps of
      that session playing `inbox`, all of it or as far as the first registration whose ack
      cannot be sent; everything sent is what those steps send, and both registration tables are
      afterwards what they were before. `lost` are the places of the acks that cannot be sent. */
  method Connect(role: Role, registry: Registry.Registry, st: Stream, inbox: seq<Message>, lost: set<nat>, clock: Time)
    returns (
      outbox: seq<(Stream, Packet)>, ghost end: S.State, ghost states: seq<S.State>, ghost choices: seq<Option<Id>>)
    requires registry.Valid()
    modifies registry, registry.created
    ensures registry.Valid() && end.tables == registry.Tables() && outbox == Sends(end.sent)
    ensures Played(Before(old(registry.Tables()), clock), role, st, inbox, lost, end, states, choices)
    ensures Leads(Before(old(registry.Tables()), clock), end) && end.In(st, S.Ended)
    ensures registry.clients == old(registry.clients) && registry.proxys == old(registry.proxys)
  {
    var v, now, k, open := Locals("", false, []), clock, 0, true;
    outbox := [];
    ghost var before := Before(registry.Tables(), clock);
    ghost var s := OpenStep(registry.Tables(), st, role, clock);
    states, choices := [s], [];
    assert Plays(states, choices, st, inbox, lost);
    hide Kept, Leads, OnlyGranted, Plays, Closes, Sends, S.Shape, S.Apply, S.Enabled;
    while k < |inbox| && open
      invariant 0 <= k <= |inbox| && s.clock == now && outbox == Sends(s.sent)
      invariant fresh((set r | r in registry.created) - old(set r | r in registry.created))
      invariant Kept(registry, st, role, v, if open then S.Receiving else S.Unwinding, before, s)
      invariant Plays(states, choices, st, inbox, lost) && |states| == |choices| + 1 && |choices| == k
      invariant states[0] == S.Apply(before, S.Open(st, role)) && states[k] == s
      decreases |inbox| - k
    {
      var m, sent := inbox[k], [];
      ghost var choice;
      v, sent, choice, s := ReceiveMessage(role, registry, st, m, now, v, k !in lost, before, s);
      PlaysOn(states, choices, st, inbox, lost, choice, s);
      states, choices := states + [s], choices + [choice];
      now := now + if m.Data? then m.elapsed else 0;
      open := !(m.Register? && k in lost);
      outbox := outbox + sent;
      k := k + 1;
    }
    KeptIn(registry, st, role, v, if open then S.Receiving else S.Unwinding, before, s);
    if open { s := StopStep(registry, before, s, st, role, v); }
    end := RunDeferred(role, registry, st, v, before, s);
    SessionCloses(states[k], s, st, end);
  }

  lemma SessionCloses(last: S.State, s: S.State, st: Stream, end: S.State)
    requires S.Shape(last) && S.Shape(s) && s.In(st, S.Unwinding) && end == Unwound(s, st)
    requires if last.In(st, S.Receiving) then s == last.WithPhase(st, S.Unwinding) else s == last
    ensures Closes(last, st, end)
  {
    hide S.Shape, Unwound;
  }

  lemma SameGranted(before: R.Tables, t: R.Tables, t': R.Tables, role: Role, granted: seq<Id>)
    requires OnlyGranted(before, t, role, granted) && t'.clients == t.clients && t'.proxys == t.proxys
    ensures OnlyGranted(before, t', role, granted)
  {
  }

  // ---------------------------------------------------------------- nothing is invented

  /** What a session sends are packets of its inbox, each once and in order. */
  ghost predicate FromInbox(at: seq<nat>, calls: seq<S.Call>, inbox: seq<Message>, k: nat)
    requires k <= |inbox|
  {
    && |at| == |calls|
    && (forall i, j :: 0 <= i < j < |at| ==> at[i] < at[j])
    && (forall i :: 0 <= i < |at| ==> at[i] < k && inbox[at[i]].Data? && inbox[at[i]].pkt == calls[i].pkt)
  }

  predicate SentAlso(s: S.State, s': S.State, pkt: Packet) {
    var n := |s.sent|;
    |s'.sent| == n + 1 && s'.sent[..n] == s.sent && s'.sent[n].pkt == pkt
  }

  lemma TurnSends(s: S.State, st: Stream, m: Message, delivered: bool, choice: Option<Id>, s': S.State)
    requires Takes(s, st, m, delivered, choice, s')
    ensures s'.sent == s.sent || (m.Data? && SentAlso(s, s', m.pkt))
  {
    if m.Data? { PacketSends(s.(clock := s.clock + m.elapsed), st, m.pkt, choice); }
    hide AfterPacket, S.Shape;
  }

  lemma PacketSends(s: S.State, st: Stream, pkt: Packet, choice: Option<Id>)
    requires S.Shape(s) && S.Enabled(s, S.Receive(st, pkt, choice))
    ensures var s' := AfterPacket(s, st, pkt, choice);
      s'.sent == s.sent || SentAlso(s, s', pkt)
  {
  }

  lemma {:induction false} PlayedSends(
      states: seq<S.State>, choices: seq<Option<Id>>, st: Stream, inbox: seq<Message>, lost: set<nat>, k: nat)
    returns (at: seq<nat>)
    requires Plays(states, choices, st, inbox, lost) && k <= |choices| && states[0].sent == []
    ensures FromInbox(at, states[k].sent, inbox, k)
  {
    hide Takes;
    if k == 0 {
      at := [];
    } else {
      at := PlayedSends(states, choices, st, inbox, lost, k - 1);
      TurnSends(states[k - 1], st, inbox[k - 1], k - 1 !in lost, choices[k - 1], states[k]);
      if states[k].sent != states[k - 1].sent { at := at + [k - 1]; }
    }
  }

  lemma {:induction false} UnwoundSendsNothing(s: S.State, st: Stream)
    requires S.Shape(s) && s.In(st, S.Unwinding)
    ensures Unwound(s, st).sent == s.sent
    decreases |s.sessions[st].pending|
  {
    S.StepKeepsShape(s, S.Unwind(st));
    if s.sessions[st].pending != [] { UnwoundSendsNothing(S.Apply(s, S.Unwind(st)), st); }
  }

  lemma SessionSendsItsInbox(
      start: S.State, role: Role, st: Stream, inbox: seq<Message>, lost: set<nat>, end: S.State,
      states: seq<S.State>, choices: seq<Option<Id>>)
    returns (at: seq<nat>)
    requires Played(start, role, st, inbox, lost, end, states, choices) && start.sent == []
    ensures FromInbox(at, end.sent, inbox, |inbox|)
  {
    var k := |choices|;
    at := PlayedSends(states, choices, st, inbox, lost, k);
    var last := if states[k].In(st, S.Receiving) then states[k].WithPhase(st, S.Unwinding) else states[k];
    UnwoundSendsNothing(last, st);
  }
}
