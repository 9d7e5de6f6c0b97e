/** Who owns an ID. A session that registers an ID defers its removal; these are the
    consequences over every run, for any mixture of repeated and colliding registrations. */
module Ownership {
  import opened Cidr
  import opened Wire
  import opened Routing
  import opened Server

  predicate Distinct(ids: seq<Id>) {
    forall i, j :: 0 <= i < j < |ids| ==> ids[i] != ids[j]
  }

  /** The session of stream `st` has still to run a deferred unregister of `id`. */
  predicate Pending(s: State, st: Stream, role: Role, id: Id) {
    st in s.sessions && s.sessions[st].role == role && id in s.sessions[st].pending
  }

  ghost predicate Owned(s: State) {
    && (forall role, id, st: Stream :: Holder(s.tables, role, id) == Some(st) <==> Pending(s, st, role, id))
    && (forall st :: st in s.sessions ==> Tidy(s.sessions[st]))
  }

  predicate Tidy(session: Session) {
    && Distinct(session.pending)
    && (session.phase.Ended? ==> session.pending == [])
    && (!session.registered ==> session.pending == [])
  }

  lemma RegisterKeepsOwned(s: State, st: Stream, id: Id, block: Option<Block>)
    requires Owned(s) && s.In(st, Receiving)
    ensures Owned(AfterRegister(s, st, id, block))
  {
    var s' := AfterRegister(s, st, id, block);
    var own := s.sessions[st].role;
    forall role, i, x: Stream
      ensures Holder(s'.tables, role, i) == Some(x) <==> Pending(s', x, role, i)
    {
      assert Holder(s.tables, role, i) == Some(x) <==> Pending(s, x, role, i);
      if role == own && i == id {
        assert Holder(s.tables, role, i) == Some(st) <==> Pending(s, st, role, i);
      }
    }
    assert Distinct(s'.sessions[st].pending) by {
      assert Holder(s.tables, own, id) == Some(st) <==> Pending(s, st, own, id);
    }
  }

  lemma UnwindKeepsOwned(s: State, st: Stream)
    requires Owned(s) && s.In(st, Unwinding)
    ensures Owned(AfterUnwind(s, st))
  {
    var s' := AfterUnwind(s, st);
    var session := s.sessions[st];
    var n := |session.pending|;
    if n > 0 {
      var id := session.pending[n - 1];
      forall role, i, x: Stream
        ensures Holder(s'.tables, role, i) == Some(x) <==> Pending(s', x, role, i)
      {
        assert Holder(s.tables, role, i) == Some(x) <==> Pending(s, x, role, i);
        assert Holder(s.tables, session.role, id) == Some(st) <==> Pending(s, st, session.role, id);
        assert session.pending == session.pending[..n - 1] + [id];
      }
    } else {
      SameOwners(s, s');
    }
  }

  /** Steps that touch neither the registration tables nor anybody's pending list. */
  lemma SameOwners(s: State, s': State)
    requires Owned(s)
    requires s'.tables.clients == s.tables.clients && s'.tables.proxys == s.tables.proxys
    requires s'.sessions.Keys == s.sessions.Keys
    requires forall st :: st in s.sessions ==> (
      && s'.sessions[st].role == s.sessions[st].role
      && s'.sessions[st].pending == s.sessions[st].pending && Tidy(s'.sessions[st]))
    ensures Owned(s')
  {
    forall role, id, st: Stream
      ensures Holder(s'.tables, role, id) == Some(st) <==> Pending(s', st, role, id)
    {
      assert Holder(s.tables, role, id) == Some(st) <==> Pending(s, st, role, id);
    }
  }

  lemma OpenKeepsOwned(s: State, st: Stream, role: Role)
    requires Shape(s) && Owned(s) && Enabled(s, Open(st, role))
    ensures Owned(Apply(s, Open(st, role)))
  {
    var s' := Apply(s, Open(st, role));
    forall r, id, x: Stream ensures Holder(s'.tables, r, id) == Some(x) <==> Pending(s', x, r, id) {
      assert Holder(s.tables, r, id) == Some(x) <==> Pending(s, x, r, id);
    }
  }

  lemma StepKeepsOwned(s: State, e: Event)
    requires Shape(s) && Owned(s) && Enabled(s, e)
    ensures Owned(Apply(s, e))
  {
    match e
    case Open(st, role) => OpenKeepsOwned(s, st, role);
    case Register(st, id, block) => RegisterKeepsOwned(s, st, id, block);
    case Unwind(st) => UnwindKeepsOwned(s, st);
    case _ =>
      OtherStep(s, e);
      hide Apply, Owned, Tidy, Shape, Enabled;
      SameOwners(s, Apply(s, e));
  }

  predicate Other(e: Event) {
    !e.Open? && !e.Register? && !e.Unwind?
  }

  /** What the other steps leave alone: who is registered, and what sessions may run at their
      end. */
  lemma OtherTables(s: State, e: Event)
    requires Shape(s) && Enabled(s, e) && Other(e)
    ensures Apply(s, e).tables.clients == s.tables.clients && Apply(s, e).tables.proxys == s.tables.proxys
  {
    if e.Receive? {
      LookupKeepsTables(s, e.st, e.pkt, e.choice);
      hide AfterLookup;
    }
  }

  lemma OtherOwnSession(s: State, e: Event, st: Stream)
    requires Shape(s) && Enabled(s, e) && Other(e) && Actor(e) == Some(st)
    ensures var s' := Apply(s, e);
      && st in s.sessions && s'.sessions.Keys == s.sessions.Keys
      && s'.sessions[st].pending == s.sessions[st].pending && s'.sessions[st].registered == s.sessions[st].registered
      && !s'.sessions[st].phase.Ended?
  {
  }

  lemma OtherStep(s: State, e: Event)
    requires Shape(s) && Owned(s) && Enabled(s, e) && Other(e)
    ensures var s' := Apply(s, e);
      && s'.tables.clients == s.tables.clients && s'.tables.proxys == s.tables.proxys
      && s'.sessions.Keys == s.sessions.Keys
      && forall st :: st in s.sessions ==> (
        && s'.sessions[st].role == s.sessions[st].role
        && s'.sessions[st].pending == s.sessions[st].pending && Tidy(s'.sessions[st]))
  {
    OtherTables(s, e);
    StepFrame(s, e);
    if Actor(e).Some? { OtherOwnSession(s, e, Actor(e).value); }
    hide Apply, Shape, Enabled;
    var s' := Apply(s, e);
    assert s'.sessions.Keys == s.sessions.Keys;
    forall st | st in s.sessions ensures s'.sessions[st].pending == s.sessions[st].pending && Tidy(s'.sessions[st]) {
      assert Tidy(s.sessions[st]);
    }
  }

  lemma {:induction false} RunKeepsOwned(states: seq<State>, events: seq<Event>, i: nat)
    requires Run(states, events) && i < |states|
    ensures Shape(states[i]) && Owned(states[i])
  {
    if i > 0 {
      RunKeepsOwned(states, events, i - 1);
      StepKeepsShape(states[i - 1], events[i - 1]);
      StepKeepsOwned(states[i - 1], events[i - 1]);
    }
  }

  // ---------------------------------------------------------------- consequences

  /** In every state of every run: an ID is in a table exactly when some session has a pending
      unregister for it, there is only one such session, and its stream is the stored one. */
  lemma ExactlyOneOwner(states: seq<State>, events: seq<Event>, i: nat, role: Role, id: Id)
    requires Run(states, events) && i < |states|
    ensures var s := states[i];
      && (Holder(s.tables, role, id).Some? <==> exists st: Stream :: Pending(s, st, role, id))
      && (forall st: Stream, st': Stream :: Pending(s, st, role, id) && Pending(s, st', role, id) ==> st == st')
      && (forall st: Stream :: Pending(s, st, role, id) ==> Holder(s.tables, role, id) == Some(st))
  {
    RunKeepsOwned(states, events, i);
    var s := states[i];
    forall st: Stream | Pending(s, st, role, id) ensures Holder(s.tables, role, id) == Some(st) {
    }
    if Holder(s.tables, role, id).Some? {
      assert Pending(s, Holder(s.tables, role, id).value, role, id);
    }
  }

  /** Each deferred unregister removes an ID that is stored for the session's own stream, and
      changes nothing else in either table. */
  lemma UnwindRemovesOwnId(states: seq<State>, events: seq<Event>, i: nat, st: Stream)
    requires Run(states, events) && i < |events| && events[i] == Unwind(st)
    requires states[i].sessions[st].pending != []
    ensures var s, s', session := states[i], states[i + 1], states[i].sessions[st];
      var id := session.pending[|session.pending| - 1];
      && Holder(s.tables, session.role, id) == Some(st) && Holder(s'.tables, session.role, id) == None
      && forall r, x :: (r, x) != (session.role, id) ==> Holder(s'.tables, r, x) == Holder(s.tables, r, x)
  {
    RunKeepsOwned(states, events, i);
    var s, session := states[i], states[i].sessions[st];
    var id := session.pending[|session.pending| - 1];
    assert Pending(s, st, session.role, id);
  }

  /** Once every stream has ended, both tables are empty. */
  lemma AllEndedLeavesNothing(states: seq<State>, events: seq<Event>, i: nat)
    requires Run(states, events) && i < |states|
    requires forall st :: st in states[i].sessions ==> states[i].sessions[st].phase.Ended?
    ensures states[i].tables.clients == map[] && states[i].tables.proxys == map[]
  {
    RunKeepsOwned(states, events, i);
    var s := states[i];
    forall role, id ensures Holder(s.tables, role, id) == None {
      assert forall st: Stream :: !Pending(s, st, role, id);
      var h := Holder(s.tables, role, id);
      assert h.Some? ==> h == Some(h.value);
    }
    forall id ensures id !in s.tables.clients { assert Holder(s.tables, ClientRole, id) == None; }
    forall id ensures id !in s.tables.proxys { assert Holder(s.tables, ProxyRole, id) == None; }
  }

  // ---------------------------------------------------------------- the sender's own ID

  function Registers(events: seq<Event>, st: Stream): nat {
    if events == [] then 0
    else
      var e := events[|events| - 1];
      Registers(events[..|events| - 1], st) + (if e.Register? && e.st == st then 1 else 0)
  }

  /** What a session looks like that has received at most one Register. */
  predicate Modest(session: Session, registers: nat) {
    && (registers == 0 ==> !session.registered)
    && (registers == 1 && session.registered && !session.phase.Unwinding? && !session.phase.Ended? ==>
          session.pending == [session.id])
  }

  lemma {:induction false} OneRegisterIsModest(states: seq<State>, events: seq<Event>, i: nat, st: Stream)
    requires Run(states, events) && i < |states| && st in states[i].sessions
    ensures Modest(states[i].sessions[st], Registers(events[..i], st))
  {
    var s, e := states[i - 1], events[i - 1];
    assert events[..i][..i - 1] == events[..i - 1];
    RunKeepsOwned(states, events, i - 1);
    StepFrame(s, e);
    if st in s.sessions {
      OneRegisterIsModest(states, events, i - 1, st);
    }
    if e.Register? && e.st == st {
      assert Tidy(s.sessions[st]);
    }
  }

  /** A client that registers once, as the shipped one does, sends under its own ID: whatever a
      packet of its session is routed under, the table holds that session's stream. */
  lemma OneRegisterSendsUnderOwnId(states: seq<State>, events: seq<Event>, i: nat, st: Stream)
    requires Run(states, events) && i < |states| && st in states[i].sessions
    requires Registers(events[..i], st) <= 1
    requires states[i].sessions[st].registered && states[i].In(st, Receiving)
    ensures var session := states[i].sessions[st];
      Holder(states[i].tables, session.role, session.id) == Some(st)
  {
    RunKeepsOwned(states, events, i);
    OneRegisterIsModest(states, events, i, st);
    assert Pending(states[i], st, states[i].sessions[st].role, states[i].sessions[st].id);
  }

  /** The last Register of stream `st` before state `i` is event `k`. */
  predicate LastRegister(events: seq<Event>, st: Stream, k: nat, i: nat) {
    && k < i <= |events| && events[k].Register? && events[k].st == st
    && forall j :: k < j < i ==> !(events[j].Register? && events[j].st == st)
  }

  /** Until its stream ends, nothing but a Register changes what a session may run at its end. */
  lemma {:induction false} PendingSince(states: seq<State>, events: seq<Event>, k: nat, i: nat, st: Stream)
    requires Run(states, events) && i < |states| && LastRegister(events, st, k, i)
    requires st in states[i].sessions && !states[i].sessions[st].phase.Unwinding?
    requires !states[i].sessions[st].phase.Ended?
    ensures st in states[k].sessions && states[i].sessions[st].role == states[k].sessions[st].role
    ensures states[i].sessions[st].id == events[k].id
    ensures var s, id := states[k], events[k].id;
      states[i].sessions[st].pending == s.sessions[st].pending
        + (if Holder(s.tables, s.sessions[st].role, id).None? then [id] else [])
    decreases i
  {
    var s, e := states[i - 1], events[i - 1];
    StepFrame(s, e);
    if k < i - 1 {
      KnownSince(states, events, k, i - 1, st);
      SessionGoesOn(s, e, st);
      PendingSince(states, events, k, i - 1, st);
    }
  }

  /** A step that is no Register leaves the ID and the deferred calls of a session that goes on
      receiving. */
  lemma SessionGoesOn(s: State, e: Event, st: Stream)
    requires Shape(s) && Enabled(s, e) && !(e.Register? && e.st == st) && st in s.sessions && st in Apply(s, e).sessions
    requires !Apply(s, e).sessions[st].phase.Unwinding? && !Apply(s, e).sessions[st].phase.Ended?
    ensures !s.sessions[st].phase.Unwinding? && !s.sessions[st].phase.Ended?
    ensures var session, session' := s.sessions[st], Apply(s, e).sessions[st];
      session'.id == session.id && session'.pending == session.pending && session'.role == session.role
  {
  }

  lemma {:induction false} KnownSince(states: seq<State>, events: seq<Event>, k: nat, i: nat, st: Stream)
    requires Run(states, events) && k <= i < |states| && st in states[k].sessions
    ensures st in states[i].sessions
    decreases i
  {
    if k < i {
      KnownSince(states, events, k, i - 1, st);
      StepFrame(states[i - 1], events[i - 1]);
    }
  }

  /** With any registrations, a session that goes on receiving routes under an ID of its own
      exactly when the ID it named last was free then, or its own already. */
  lemma OwnIdExactly(states: seq<State>, events: seq<Event>, k: nat, i: nat, st: Stream)
    requires Run(states, events) && i < |states| && LastRegister(events, st, k, i)
    requires st in states[i].sessions && !states[i].sessions[st].phase.Unwinding?
    requires !states[i].sessions[st].phase.Ended?
    ensures st in states[k].sessions && states[i].sessions[st].id == events[k].id
    ensures var session, id := states[i].sessions[st], events[k].id;
      Holder(states[i].tables, session.role, id) == Some(st)
      <==> Holder(states[k].tables, session.role, id) in {None, Some(st)}
  {
    PendingSince(states, events, k, i, st);
    RunKeepsOwned(states, events, k);
    RunKeepsOwned(states, events, i);
    var role, id := states[i].sessions[st].role, events[k].id;
    assert Holder(states[i].tables, role, id) == Some(st) <==> Pending(states[i], st, role, id);
    assert Holder(states[k].tables, role, id) == Some(st) <==> Pending(states[k], st, role, id);
  }

  /** A run one step longer. */
  lemma Extended(states: seq<State>, events: seq<Event>, e: Event)
    returns (s': State, states': seq<State>, events': seq<Event>)
    requires Run(states, events) && Shape(states[|events|]) && Enabled(states[|events|], e)
    ensures Run(states', events') && s' == Apply(states[|events|], e) && Shape(s')
    ensures states' == states + [s'] && events' == events + [e] && |states'| == |events'| + 1
  {
    hide Apply, Shape, Enabled, Init;
    s' := Apply(states[|events|], e);
    StepKeepsShape(states[|events|], e);
    states', events' := states + [s'], events + [e];
    assert forall i :: 0 <= i < |events| ==> events'[i] == events[i] && states'[i] == states[i];
  }

  lemma RunStarts(clock: Time)
    ensures Run([Init(clock)], []) && Shape(Init(clock))
  {
  }

  const HOME := Address(32, 0)
  const EVERYWHERE := Block(32, 0, 0)

  /** A session that names a second ID, of another client's, is refused it. It relays under it
      all the same: its packet creates a route that sends the responses to the other stream. */
  lemma RefusedIdIsStillUsed(pkt: Packet) returns (states: seq<State>, events: seq<Event>)
    requires pkt.Dst() == Some(HOME)
    ensures Run(states, events) && |states| == |events| + 1 && events != []
    ensures events[|events| - 1] == Receive(0, pkt, Some("p"))
    ensures var s := states[|events|];
      && 0 in s.sessions && s.sessions[0].role == ClientRole && s.sessions[0].phase.Counting?
      && pkt.connId in s.tables.connections && s.tables.connections[pkt.connId] < |s.tables.routes|
      && Holder(s.tables, ClientRole, s.tables.routes[s.tables.connections[pkt.connId]].clientId) == Some(1)
  {
    hide Run, Shape;
    states, events := RefusedId();
    var s := states[|events|];
    assert s.tables.proxys["p"].Serves(pkt.Dst());
    s, states, events := Extended(states, events, Receive(0, pkt, Some("p")));
  }

  lemma RefusedId() returns (states: seq<State>, events: seq<Event>)
    ensures Run(states, events) && |states| == |events| + 1 && Shape(states[|events|])
    ensures var s := states[|events|];
      && s.In(0, Receiving) && s.sessions[0].registered && s.sessions[0].role == ClientRole && s.sessions[0].id == "b"
      && Holder(s.tables, ClientRole, "b") == Some(1) && s.tables.connections == map[] && |s.tables.routes| == 0
      && s.tables.proxys == map["p" := ProxyConn("p", 2, Some(EVERYWHERE))]
  {
    hide Run, Shape;
    states, events := WithProxy();
    var s := states[|events|];
    s, states, events := Granted(states, events, 0, "a");
    s, states, events := Granted(states, events, 1, "b");
    s, states, events := Refused(states, events, 0, "b");
  }

  lemma WithProxy() returns (states: seq<State>, events: seq<Event>)
    ensures Run(states, events) && |states| == |events| + 1 && Shape(states[|events|])
    ensures var s := states[|events|];
      && s.In(0, Receiving) && s.sessions[0].role == ClientRole
      && s.In(1, Receiving) && s.sessions[1].role == ClientRole
      && s.tables == Tables(map[], map["p" := ProxyConn("p", 2, Some(EVERYWHERE))], map[], [])
  {
    hide Run, Shape;
    var s := Init(0);
    states, events := [s], [];
    RunStarts(0);
    s, states, events := Extended(states, events, Open(0, ClientRole));
    s, states, events := Extended(states, events, Open(1, ClientRole));
    s, states, events := Extended(states, events, Open(2, ProxyRole));
    s, states, events := Extended(states, events, Register(2, "p", Some(EVERYWHERE)));
  }

  lemma Granted(states: seq<State>, events: seq<Event>, st: Stream, id: Id)
    returns (s': State, states': seq<State>, events': seq<Event>)
    requires Run(states, events) && Shape(states[|events|])
    requires var s := states[|events|];
      s.In(st, Receiving) && s.sessions[st].role == ClientRole && Holder(s.tables, ClientRole, id) == None
    ensures Run(states', events') && |states'| == |events'| + 1 && s' == states'[|events'|] && Shape(s')
    ensures var s := states[|events|];
      && s'.tables == s.tables.(clients := s.tables.clients[id := st])
      && s'.In(st, Receiving) && s'.sessions[st].role == ClientRole
      && s'.sessions[st].registered && s'.sessions[st].id == id
      && (forall x :: x != st && x in s.sessions ==> x in s'.sessions && s'.sessions[x] == s.sessions[x])
  {
    hide Run, Shape;
    s', states', events' := Extended(states, events, Register(st, id, None));
    s', states', events' := Extended(states', events', Acked(st, true));
  }

  lemma Refused(states: seq<State>, events: seq<Event>, st: Stream, id: Id)
    returns (s': State, states': seq<State>, events': seq<Event>)
    requires Run(states, events) && Shape(states[|events|])
    requires var s := states[|events|];
      s.In(st, Receiving) && s.sessions[st].role == ClientRole && Holder(s.tables, ClientRole, id).Some?
    ensures Run(states', events') && |states'| == |events'| + 1 && s' == states'[|events'|] && Shape(s')
    ensures var s := states[|events|];
      && s'.tables == s.tables && s'.In(st, Receiving) && s'.sessions[st].role == ClientRole && s'.sessions[st].id == id
      && s'.sessions[st].registered == s.sessions[st].registered
  {
    hide Run, Shape;
    s', states', events' := Extended(states, events, Register(st, id, None));
    s', states', events' := Extended(states', events', Acked(st, true));
  }
}
