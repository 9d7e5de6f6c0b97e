/** Which way packets go over the life of a route, and how long that life is. */
module Stickiness {
  import opened Wire
  import opened Routing
  import opened Server

  // ---------------------------------------------------------------- bindings

  lemma {:induction false} RunKeepsShape(states: seq<State>, events: seq<Event>, i: nat)
    requires Run(states, events) && i < |states|
    ensures Shape(states[i])
  {
    if i > 0 {
      RunKeepsShape(states, events, i - 1);
      StepKeepsShape(states[i - 1], events[i - 1]);
    }
  }

  lemma BindingKeptByStep(states: seq<State>, events: seq<Event>, i: nat, r: nat)
    requires Run(states, events) && i + 1 < |states| && r < |states[i].tables.routes|
    ensures r < |states[i + 1].tables.routes|
    ensures states[i + 1].tables.routes[r].Binding() == states[i].tables.routes[r].Binding()
  {
    RunKeepsShape(states, events, i);
    StepExtends(states[i], events[i]);
  }

  /** A route keeps its ID, its client, its proxy and its creation time through the whole run,
      in the table or out of it. */
  lemma {:induction false} BindingNeverChanges(states: seq<State>, events: seq<Event>, i: nat, j: nat, r: nat)
    requires Run(states, events) && i <= j < |states| && r < |states[i].tables.routes|
    ensures r < |states[j].tables.routes|
    ensures states[j].tables.routes[r].Binding() == states[i].tables.routes[r].Binding()
    decreases j
  {
    hide *;
    if i < j {
      BindingNeverChanges(states, events, i, j - 1, r);
      BindingKeptByStep(states, events, j - 1, r);
    }
  }

  /** The step of `e` creates route `r` as the code does: for a packet of a registered client
      session, to a proxy then registered whose block contains the packet's destination. */
  predicate Creates(s: State, e: Event, binding: (Id, Id, Id, Time)) {
    && e.Receive? && e.st in s.sessions && s.sessions[e.st].role.ClientRole? && s.sessions[e.st].registered
    && e.choice.Some? && e.choice.value in s.tables.proxys && s.tables.proxys[e.choice.value].Serves(e.pkt.Dst())
    && binding == (e.pkt.connId, s.sessions[e.st].id, e.choice.value, s.clock)
  }

  lemma NewRouteIsCreated(s: State, e: Event)
    requires Shape(s) && Enabled(s, e)
    ensures var routes, routes' := s.tables.routes, Apply(s, e).tables.routes;
      |routes'| <= |routes| + 1
      && (|routes'| == |routes| + 1 ==>
            Creates(s, e, routes'[|routes|].Binding())
            && routes'[|routes|] == NewRoute(e.pkt.connId, s.sessions[e.st].id, e.choice.value, s.clock))
  {
  }

  /** Every route of every run was created by some earlier step, and is still bound as it was. */
  lemma {:induction false} EveryRouteWasCreated(states: seq<State>, events: seq<Event>, j: nat, r: nat) returns (i: nat)
    requires Run(states, events) && j < |states| && r < |states[j].tables.routes|
    ensures i < j && Creates(states[i], events[i], states[j].tables.routes[r].Binding())
    decreases j
  {
    hide Apply, Creates;
    RunKeepsShape(states, events, j - 1);
    NewRouteIsCreated(states[j - 1], events[j - 1]);
    if r < |states[j - 1].tables.routes| {
      i := EveryRouteWasCreated(states, events, j - 1, r);
      BindingNeverChanges(states, events, j - 1, j, r);
    } else {
      i := j - 1;
    }
  }

  // ---------------------------------------------------------------- where calls go

  /** In the step of `e`, the session looks up its packet and finds the route in the table and
      the call's destination under the route's proxy ID, or its client ID for a response. */
  predicate LooksUp(s: State, e: Event, call: Call, route: Route) {
    && e.Receive? && e.st == call.stream && e.pkt == call.pkt && route.connId == call.pkt.connId
    && Holder(s.tables, if call.toProxy then ProxyRole else ClientRole,
              if call.toProxy then route.proxyId else route.clientId) == Some(call.dest)
  }

  lemma LookupFindsRegistered(s: State, e: Event, st: Stream)
    requires Shape(s) && Enabled(s, e) && st in Apply(s, e).sessions && Apply(s, e).sessions[st].Calling()
    ensures var s' := Apply(s, e);
      var call := s'.sessions[st].phase.call;
      (st in s.sessions && s.sessions[st].Calling() && s.sessions[st].phase.call == call)
      || (call.route < |s'.tables.routes| && LooksUp(s, e, call, s'.tables.routes[call.route]))
  {
  }

  /** A packet on its way out of the server goes to the stream that was registered, at the
      packet's own lookup, under the proxy (or client) its route was created with. */
  lemma {:induction false} CallsGoWhereRegistered(states: seq<State>, events: seq<Event>, j: nat, st: Stream)
    returns (i: nat)
    requires Run(states, events) && j < |states|
    requires st in states[j].sessions && states[j].sessions[st].Calling()
    ensures var call := states[j].sessions[st].phase.call;
      i < j && call.route < |states[j].tables.routes|
      && LooksUp(states[i], events[i], call, states[j].tables.routes[call.route])
    decreases j
  {
    RunKeepsShape(states, events, j);
    RunKeepsShape(states, events, j - 1);
    LookupFindsRegistered(states[j - 1], events[j - 1], st);
    var call := states[j].sessions[st].phase.call;
    if st in states[j - 1].sessions && states[j - 1].sessions[st].Calling()
       && states[j - 1].sessions[st].phase.call == call {
      i := CallsGoWhereRegistered(states, events, j - 1, st);
      BindingNeverChanges(states, events, j - 1, j, call.route);
    } else {
      i := j - 1;
    }
  }

  // ---------------------------------------------------------------- idle routes

  ghost predicate Timely(s: State) {
    forall r :: 0 <= r < |s.tables.routes| ==> s.tables.routes[r].created <= s.tables.routes[r].last <= s.clock
  }

  lemma StepKeepsTimely(s: State, e: Event)
    requires Shape(s) && Timely(s) && Enabled(s, e)
    ensures Timely(Apply(s, e))
  {
    var s' := Apply(s, e);
    forall r | 0 <= r < |s'.tables.routes| ensures s'.tables.routes[r].created <= s'.tables.routes[r].last <= s'.clock {
      RouteStaysTimely(s, e, r);
    }
  }

  lemma RouteStaysTimely(s: State, e: Event, r: nat)
    requires Shape(s) && Timely(s) && Enabled(s, e) && r < |Apply(s, e).tables.routes|
    ensures var s' := Apply(s, e); s'.tables.routes[r].created <= s'.tables.routes[r].last <= s'.clock
  {
    if e.Receive? {
      if s.sessions[e.st].registered { LookupTouches(s, e.st, e.pkt, e.choice, r); }
      hide AfterLookup;
    }
  }

  lemma {:induction false} RunKeepsTimely(states: seq<State>, events: seq<Event>, i: nat)
    requires Run(states, events) && i < |states|
    ensures Timely(states[i])
  {
    if i > 0 {
      RunKeepsTimely(states, events, i - 1);
      RunKeepsShape(states, events, i - 1);
      StepKeepsTimely(states[i - 1], events[i - 1]);
    }
  }

  predicate Idle(s: State, r: nat)
    requires r < |s.tables.routes|
  {
    s.clock - s.tables.routes[r].last > IDLE_TIMEOUT
  }

  predicate Stored(s: State, r: nat) {
    r < |s.tables.routes| && s.tables.routes[r].connId in s.tables.connections
    && s.tables.connections[s.tables.routes[r].connId] == r
  }

  /** Steps other than a sweep over an idle route, or an explicit removal, keep a route stored. */
  lemma StepKeepsStored(s: State, e: Event, r: nat)
    requires Shape(s) && Enabled(s, e) && Stored(s, r)
    requires e.SweepStale? ==> !Idle(s, r)
    requires e != Remove(s.tables.routes[r].connId)
    ensures Stored(Apply(s, e), r)
  {
    if e.Receive? {
      LookupKeepsStored(s, e.st, e.pkt, e.choice, r);
      hide AfterLookup;
    }
  }

  lemma LookupKeepsStored(s: State, st: Stream, pkt: Packet, choice: Option<Id>, r: nat)
    requires s.tables.Valid() && st in s.sessions
    ensures Stored(s, r) ==> Stored(AfterLookup(s, st, pkt, choice), r)
    ensures r < |s.tables.routes| && !Stored(s, r) ==> !Stored(AfterLookup(s, st, pkt, choice), r)
  {
  }

  lemma LookupTouches(s: State, st: Stream, pkt: Packet, choice: Option<Id>, r: nat)
    requires s.tables.Valid() && st in s.sessions && r < |AfterLookup(s, st, pkt, choice).tables.routes|
    ensures var route := AfterLookup(s, st, pkt, choice).tables.routes[r];
      if r < |s.tables.routes| then
        route.created == s.tables.routes[r].created && (route.last == s.tables.routes[r].last || route.last == s.clock)
      else route.created == route.last == s.clock
  {
  }

  /** A route that is never idle for more than five minutes when a sweep comes, and that nobody
      removes by hand, stays in the table. */
  lemma {:induction false} ActiveRouteSurvives(states: seq<State>, events: seq<Event>, i: nat, j: nat, r: nat)
    requires Run(states, events) && i <= j < |states| && Stored(states[i], r)
    requires forall k :: i <= k < j && events[k].SweepStale? ==> r < |states[k].tables.routes| && !Idle(states[k], r)
    requires forall k :: i <= k < j ==> events[k] != Remove(states[i].tables.routes[r].connId)
    ensures Stored(states[j], r)
    decreases j
  {
    if i < j {
      ActiveRouteSurvives(states, events, i, j - 1, r);
      RunKeepsShape(states, events, j - 1);
      BindingNeverChanges(states, events, i, j - 1, r);
      StepKeepsStored(states[j - 1], events[j - 1], r);
    }
  }

  /** The step of `e` uses route `r`: a packet of either direction is looked up and finds it,
      or creates it. */
  predicate Uses(s: State, e: Event, r: nat) {
    && e.Receive? && e.st in s.sessions && s.sessions[e.st].registered
    && (if e.pkt.connId in s.tables.connections then s.tables.connections[e.pkt.connId] == r
        else s.sessions[e.st].role.ClientRole? && e.choice.Some? && r == |s.tables.routes|)
  }

  lemma UseStampsRoute(s: State, e: Event, r: nat)
    requires Shape(s) && Enabled(s, e) && Uses(s, e, r)
    ensures r < |Apply(s, e).tables.routes| && Apply(s, e).tables.routes[r].last == s.clock
  {
  }

  lemma LastActivityGrows(s: State, e: Event, r: nat)
    requires Shape(s) && Timely(s) && Enabled(s, e) && r < |s.tables.routes|
    ensures r < |Apply(s, e).tables.routes| && s.tables.routes[r].last <= Apply(s, e).tables.routes[r].last
  {
    StepExtends(s, e);
    if e.Receive? {
      if s.sessions[e.st].registered { LookupTouches(s, e.st, e.pkt, e.choice, r); }
      hide AfterLookup;
    }
  }

  lemma {:induction false} UseIsRemembered(states: seq<State>, events: seq<Event>, u: nat, k: nat, r: nat)
    requires Run(states, events) && u < k < |states| && Uses(states[u], events[u], r)
    ensures r < |states[k].tables.routes| && states[u].clock <= states[k].tables.routes[r].last
    decreases k
  {
    RunKeepsShape(states, events, k - 1);
    RunKeepsTimely(states, events, k - 1);
    if u == k - 1 {
      UseStampsRoute(states[u], events[u], r);
    } else {
      UseIsRemembered(states, events, u, k - 1, r);
      LastActivityGrows(states[k - 1], events[k - 1], r);
    }
  }

  /** Some use of the route before state `k` is at most five minutes old there. */
  ghost predicate RecentlyUsed(states: seq<State>, events: seq<Event>, k: nat, r: nat)
    requires k < |states| && |states| == |events| + 1
  {
    exists u: nat :: u < k && Uses(states[u], events[u], r) && states[k].clock - states[u].clock <= IDLE_TIMEOUT
  }

  /** A route used at gaps of at most five minutes, and that nobody removes by hand, is never
      swept away. */
  lemma RouteInUseSurvives(states: seq<State>, events: seq<Event>, i: nat, j: nat, r: nat)
    requires Run(states, events) && i <= j < |states| && Stored(states[i], r)
    requires forall k :: i <= k < j && events[k].SweepStale? ==> RecentlyUsed(states, events, k, r)
    requires forall k :: i <= k < j ==> events[k] != Remove(states[i].tables.routes[r].connId)
    ensures Stored(states[j], r)
  {
    forall k | i <= k < j && events[k].SweepStale?
      ensures r < |states[k].tables.routes| && !Idle(states[k], r)
    {
      var u: nat :| u < k && Uses(states[u], events[u], r) && states[k].clock - states[u].clock <= IDLE_TIMEOUT;
      UseIsRemembered(states, events, u, k, r);
    }
    ActiveRouteSurvives(states, events, i, j, r);
  }

  /** A sweep removes exactly the idle routes. */
  lemma SweepRemovesExactlyIdle(states: seq<State>, events: seq<Event>, i: nat, r: nat)
    requires Run(states, events) && i < |events| && events[i] == SweepStale && r < |states[i].tables.routes|
    ensures Stored(states[i + 1], r) <==> Stored(states[i], r) && !Idle(states[i], r)
  {
    RunKeepsShape(states, events, i);
  }

  /** A step that does not use a route leaves its activity alone, and creates no other. */
  lemma UnusedKeepsActivity(s: State, e: Event, r: nat)
    requires Shape(s) && Enabled(s, e) && !Uses(s, e, r) && r < |Apply(s, e).tables.routes|
    ensures r < |s.tables.routes| && Apply(s, e).tables.routes[r].last == s.tables.routes[r].last
  {
  }

  lemma RouteStepUse(states: seq<State>, events: seq<Event>, n: nat, r: nat)
    requires Run(states, events) && 0 < n < |states| && r < |states[n].tables.routes|
    ensures |states| == |events| + 1
    ensures var last := states[n].tables.routes[r].last;
      if Uses(states[n - 1], events[n - 1], r) then last == states[n - 1].clock
      else r < |states[n - 1].tables.routes| && last == states[n - 1].tables.routes[r].last
  {
    RunKeepsShape(states, events, n - 1);
    assert states[n - 1 + 1] == Apply(states[n - 1], events[n - 1]);
    hide Run;
    if Uses(states[n - 1], events[n - 1], r) {
      UseStampsRoute(states[n - 1], events[n - 1], r);
    } else {
      UnusedKeepsActivity(states[n - 1], events[n - 1], r);
    }
  }

  lemma NoRoutesAtFirst(states: seq<State>, events: seq<Event>)
    requires Run(states, events)
    ensures |states| == |events| + 1 && states[0].tables.routes == []
  {
  }

  /** A route's activity is the time of some use. */
  lemma {:induction false} ActivityIsAUse(states: seq<State>, events: seq<Event>, n: nat, r: nat) returns (u: nat)
    requires Run(states, events) && n < |states| && r < |states[n].tables.routes|
    ensures u < n && u < |events| && Uses(states[u], events[u], r)
    ensures states[n].tables.routes[r].last == states[u].clock
  {
    hide *;
    NoRoutesAtFirst(states, events);
    RouteStepUse(states, events, n, r);
    if Uses(states[n - 1], events[n - 1], r) {
      u := n - 1;
    } else {
      u := ActivityIsAUse(states, events, n - 1, r);
    }
  }

  /** A sweep keeps a stored route if and only if it was used at most five minutes before. */
  lemma SweepKeepsExactlyUsed(states: seq<State>, events: seq<Event>, n: nat, r: nat)
    requires Run(states, events) && n < |events| && events[n] == SweepStale && Stored(states[n], r)
    ensures Stored(states[n + 1], r) <==> RecentlyUsed(states, events, n, r)
  {
    SweepRemovesExactlyIdle(states, events, n, r);
    var u := ActivityIsAUse(states, events, n, r);
    if RecentlyUsed(states, events, n, r) {
      var v: nat :| v < n && Uses(states[v], events[v], r) && states[n].clock - states[v].clock <= IDLE_TIMEOUT;
      UseIsRemembered(states, events, v, n, r);
    }
  }

  /** A route that was removed is never stored again: a later packet with its connection ID
      creates a new route. */
  lemma {:induction false} RemovedRouteStaysRemoved(states: seq<State>, events: seq<Event>, i: nat, j: nat, r: nat)
    requires Run(states, events) && i <= j < |states|
    requires r < |states[i].tables.routes| && !Stored(states[i], r)
    ensures !Stored(states[j], r)
    decreases j
  {
    if i < j {
      hide Apply, Enabled, Shape, Stored;
      RemovedRouteStaysRemoved(states, events, i, j - 1, r);
      BindingNeverChanges(states, events, i, j - 1, r);
      RunKeepsShape(states, events, j - 1);
      NotStoredAgain(states[j - 1], events[j - 1], r);
    }
  }

  lemma NotStoredAgain(s: State, e: Event, r: nat)
    requires Shape(s) && Enabled(s, e) && r < |s.tables.routes| && !Stored(s, r)
    ensures !Stored(Apply(s, e), r)
  {
    StepExtends(s, e);
    if e.Receive? {
      LookupKeepsStored(s, e.st, e.pkt, e.choice, r);
      hide AfterLookup;
    }
  }
}
