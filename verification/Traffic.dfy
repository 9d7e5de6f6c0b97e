/** What the route counters count, over every interleaving. A route may leave the table, and be
    replaced there by a new route with the same ID, between a call's lookup and its counting;
    the numbers add up all the same. */
module Traffic {
  import opened Wire
  import opened Routing
  import opened Server

  // ---------------------------------------------------------------- tallies of a record

  predicate OnRoute(c: Call, r: nat, toProxy: bool) {
    c.route == r && c.toProxy == toProxy
  }

  function Packets(calls: seq<Call>, r: nat, toProxy: bool): nat {
    if calls == [] then 0
    else
      var last := calls[|calls| - 1];
      Packets(calls[..|calls| - 1], r, toProxy) + (if OnRoute(last, r, toProxy) then 1 else 0)
  }

  function Volume(calls: seq<Call>, r: nat, toProxy: bool): nat {
    if calls == [] then 0
    else
      var last := calls[|calls| - 1];
      Volume(calls[..|calls| - 1], r, toProxy) + (if OnRoute(last, r, toProxy) then |last.pkt.data| else 0)
  }

  /** The calls of one session, in order. */
  function CallsOf(calls: seq<Call>, st: Stream): seq<Call> {
    if calls == [] then []
    else
      var last := calls[|calls| - 1];
      CallsOf(calls[..|calls| - 1], st) + (if last.stream == st then [last] else [])
  }

  lemma TallyOfMore(calls: seq<Call>, c: Call, r: nat, toProxy: bool)
    ensures Packets(calls + [c], r, toProxy) == Packets(calls, r, toProxy) + (if OnRoute(c, r, toProxy) then 1 else 0)
    ensures Volume(calls + [c], r, toProxy)
         == Volume(calls, r, toProxy) + (if OnRoute(c, r, toProxy) then |c.pkt.data| else 0)
  {
    assert (calls + [c])[..|calls|] == calls;
  }

  lemma CallsOfMore(calls: seq<Call>, c: Call, st: Stream)
    ensures CallsOf(calls + [c], st) == CallsOf(calls, st) + (if c.stream == st then [c] else [])
  {
    assert (calls + [c])[..|calls|] == calls;
  }

  lemma {:induction false} NoneOnNewRoute(calls: seq<Call>, r: nat, toProxy: bool)
    requires forall c :: c in calls ==> c.route < r
    ensures Packets(calls, r, toProxy) == 0 && Volume(calls, r, toProxy) == 0
  {
    if calls != [] { NoneOnNewRoute(calls[..|calls| - 1], r, toProxy); }
  }

  // ---------------------------------------------------------------- the invariant

  /** Each counter of each route ever created is the tally of the counted calls, modulo 2^64. */
  ghost predicate Accounted(s: State) {
    && (forall c :: c in s.counted ==> c.route < |s.tables.routes|)
    && (forall r: nat :: r < |s.tables.routes| ==> RouteAccounted(s.tables.routes[r], s.counted, r))
    && (forall st: Stream :: CallsOf(s.counted, st) == CallsOf(s.sent, st) + InFlight(s, st))
  }

  predicate RouteAccounted(route: Route, counted: seq<Call>, r: nat) {
    && route.packetsToProxy == Packets(counted, r, true) % WRAP64
    && route.packetsToClient == Packets(counted, r, false) % WRAP64
    && route.bytesToProxy == Volume(counted, r, true) % WRAP64
    && route.bytesToClient == Volume(counted, r, false) % WRAP64
  }

  /** The call a session has counted and not yet sent. */
  function InFlight(s: State, st: Stream): seq<Call> {
    if st in s.sessions && s.sessions[st].phase.Sending? then [s.sessions[st].phase.call] else []
  }

  predicate SameCounters(a: Route, b: Route) {
    && a.packetsToProxy == b.packetsToProxy && a.packetsToClient == b.packetsToClient
    && a.bytesToProxy == b.bytesToProxy && a.bytesToClient == b.bytesToClient
  }

  /** Steps that count nothing and send nothing: routes keep their counters, new ones start
      at zero, and the calls in flight stay in flight. */
  lemma QuietKeepsAccounted(s: State, s': State)
    requires Accounted(s) && s'.counted == s.counted && s'.sent == s.sent
    requires |s.tables.routes| <= |s'.tables.routes|
    requires forall r: nat :: r < |s.tables.routes| ==> SameCounters(s'.tables.routes[r], s.tables.routes[r])
    requires forall r: nat :: |s.tables.routes| <= r < |s'.tables.routes| ==>
      SameCounters(s'.tables.routes[r], NewRoute("", "", "", 0))
    requires forall st: Stream :: InFlight(s', st) == InFlight(s, st)
    ensures Accounted(s')
  {
    forall r: nat | r < |s'.tables.routes| ensures RouteAccounted(s'.tables.routes[r], s'.counted, r) {
      if r < |s.tables.routes| {
        assert RouteAccounted(s.tables.routes[r], s.counted, r);
      } else {
        NoneOnNewRoute(s.counted, r, true);
        NoneOnNewRoute(s.counted, r, false);
      }
    }
  }

  function CountedRoute(route: Route, call: Call): Route {
    if call.toProxy then route.CountedToProxy(|call.pkt.data|) else route.CountedToClient(|call.pkt.data|)
  }

  lemma CountingOnRoute(route: Route, counted: seq<Call>, call: Call, r: nat)
    requires RouteAccounted(route, counted, r)
    ensures RouteAccounted(if call.route == r then CountedRoute(route, call) else route, counted + [call], r)
  {
    TallyOfMore(counted, call, r, true);
    TallyOfMore(counted, call, r, false);
    WrappedAdd(Packets(counted, r, call.toProxy), 1);
    WrappedAdd(Volume(counted, r, call.toProxy), |call.pkt.data|);
  }

  lemma WrappedAdd(a: nat, b: nat)
    ensures (a % WRAP64 + b) % WRAP64 == (a + b) % WRAP64
  {
  }

  lemma CountKeepsRoutes(s: State, st: Stream)
    requires Shape(s) && Accounted(s) && st in s.sessions && s.sessions[st].phase.Counting?
    ensures var s' := AfterCount(s, st);
      forall r: nat :: r < |s'.tables.routes| ==> RouteAccounted(s'.tables.routes[r], s'.counted, r)
  {
    var s' := AfterCount(s, st);
    var call := s.sessions[st].phase.call;
    forall r: nat | r < |s'.tables.routes| ensures RouteAccounted(s'.tables.routes[r], s'.counted, r) {
      CountingOnRoute(s.tables.routes[r], s.counted, call, r);
    }
  }

  lemma CountKeepsAccounted(s: State, st: Stream)
    requires Shape(s) && Accounted(s) && st in s.sessions && s.sessions[st].phase.Counting?
    ensures Accounted(AfterCount(s, st))
  {
    var s' := AfterCount(s, st);
    var call := s.sessions[st].phase.call;
    assert CallFits(s, st, call);
    CountKeepsRoutes(s, st);
    hide RouteAccounted;
    forall x: Stream ensures CallsOf(s'.counted, x) == CallsOf(s'.sent, x) + InFlight(s', x) {
      CallsOfMore(s.counted, call, x);
      assert CallsOf(s.counted, x) == CallsOf(s.sent, x) + InFlight(s, x);
    }
  }

  lemma SentKeepsAccounted(s: State, st: Stream)
    requires Shape(s) && Accounted(s) && Enabled(s, Sent(st))
    ensures Accounted(Apply(s, Sent(st)))
  {
    var s' := Apply(s, Sent(st));
    var call := s.sessions[st].phase.call;
    assert CallFits(s, st, call);
    hide RouteAccounted;
    forall x: Stream ensures CallsOf(s'.counted, x) == CallsOf(s'.sent, x) + InFlight(s', x) {
      CallsOfMore(s.sent, call, x);
      assert CallsOf(s.counted, x) == CallsOf(s.sent, x) + InFlight(s, x);
    }
  }

  lemma QuietRoutes(s: State, e: Event)
    requires Shape(s) && Enabled(s, e) && !e.Count?
    ensures var old', new' := s.tables.routes, Apply(s, e).tables.routes;
      && |old'| <= |new'|
      && (forall r: nat :: r < |old'| ==> SameCounters(new'[r], old'[r]))
      && (forall r: nat :: |old'| <= r < |new'| ==> SameCounters(new'[r], NewRoute("", "", "", 0)))
  {
    if e.Receive? {
      LookupIsQuiet(s, e.st, e.pkt, e.choice);
      hide AfterLookup;
    }
  }

  lemma LookupIsQuiet(s: State, st: Stream, pkt: Packet, choice: Option<Id>)
    requires s.tables.Valid() && st in s.sessions
    ensures var old', new' := s.tables.routes, AfterLookup(s, st, pkt, choice).tables.routes;
      && |old'| <= |new'|
      && (forall r: nat :: r < |old'| ==> SameCounters(new'[r], old'[r]))
      && (forall r: nat :: |old'| <= r < |new'| ==> SameCounters(new'[r], NewRoute("", "", "", 0)))
  {
  }

  lemma QuietSessions(s: State, e: Event)
    requires Shape(s) && Enabled(s, e) && !e.Count? && !e.Sent?
    ensures var s' := Apply(s, e);
      s'.counted == s.counted && s'.sent == s.sent && forall st: Stream :: InFlight(s', st) == InFlight(s, st)
  {
  }

  lemma StepKeepsAccounted(s: State, e: Event)
    requires Shape(s) && Accounted(s) && Enabled(s, e)
    ensures Accounted(Apply(s, e))
  {
    match e
    case Count(st) => CountKeepsAccounted(s, st);
    case Sent(st) => SentKeepsAccounted(s, st);
    case _ =>
      QuietRoutes(s, e);
      QuietSessions(s, e);
      hide Apply, RouteAccounted, InFlight, SameCounters;
      QuietKeepsAccounted(s, Apply(s, e));
  }

  lemma {:induction false} RunKeepsAccounted(states: seq<State>, events: seq<Event>, i: nat)
    requires Run(states, events) && i < |states|
    ensures Shape(states[i]) && Accounted(states[i])
  {
    if i > 0 {
      hide Apply, Accounted, Enabled, Shape;
      RunKeepsAccounted(states, events, i - 1);
      StepKeepsShape(states[i - 1], events[i - 1]);
      StepKeepsAccounted(states[i - 1], events[i - 1]);
    }
  }

  // ---------------------------------------------------------------- conservation

  function PacketsOf(route: Route, toProxy: bool): nat {
    if toProxy then route.packetsToProxy else route.packetsToClient
  }

  function BytesOf(route: Route, toProxy: bool): nat {
    if toProxy then route.bytesToProxy else route.bytesToClient
  }

  /** The counters of one direction, summed over routes. */
  function TotalPackets(routes: seq<Route>, toProxy: bool): nat {
    if routes == [] then 0
    else
      TotalPackets(routes[..|routes| - 1], toProxy) + PacketsOf(routes[|routes| - 1], toProxy)
  }

  function TotalBytes(routes: seq<Route>, toProxy: bool): nat {
    if routes == [] then 0
    else
      TotalBytes(routes[..|routes| - 1], toProxy) + BytesOf(routes[|routes| - 1], toProxy)
  }

  /** The number of counted calls of one direction over the first `n` routes, and their bytes. */
  function Directed(calls: seq<Call>, n: nat, toProxy: bool): nat {
    if n == 0 then 0 else Directed(calls, n - 1, toProxy) + Packets(calls, n - 1, toProxy)
  }

  function DirectedBytes(calls: seq<Call>, n: nat, toProxy: bool): nat {
    if n == 0 then 0 else DirectedBytes(calls, n - 1, toProxy) + Volume(calls, n - 1, toProxy)
  }

  /** Calls of one direction, and their bytes, counted without regard to routes. */
  function CallCount(calls: seq<Call>, toProxy: bool): nat {
    if calls == [] then 0
    else CallCount(calls[..|calls| - 1], toProxy) + (if calls[|calls| - 1].toProxy == toProxy then 1 else 0)
  }

  function ByteCount(calls: seq<Call>, toProxy: bool): nat {
    if calls == [] then 0
    else
      var last := calls[|calls| - 1];
      ByteCount(calls[..|calls| - 1], toProxy) + (if last.toProxy == toProxy then |last.pkt.data| else 0)
  }

  lemma {:induction false} DirectedOfMore(calls: seq<Call>, n: nat, toProxy: bool)
    requires calls != []
    ensures var init, last := calls[..|calls| - 1], calls[|calls| - 1];
      var mine := last.toProxy == toProxy && last.route < n;
      && Directed(calls, n, toProxy) == Directed(init, n, toProxy) + (if mine then 1 else 0)
      && DirectedBytes(calls, n, toProxy) == DirectedBytes(init, n, toProxy) + (if mine then |last.pkt.data| else 0)
  {
    if n > 0 { DirectedOfMore(calls, n - 1, toProxy); }
  }

  lemma {:induction false} EveryCallHasARoute(calls: seq<Call>, n: nat, toProxy: bool)
    requires forall c :: c in calls ==> c.route < n
    ensures Directed(calls, n, toProxy) == CallCount(calls, toProxy)
    ensures DirectedBytes(calls, n, toProxy) == ByteCount(calls, toProxy)
  {
    if calls == [] {
      NoCalls(n, toProxy);
    } else {
      DirectedOfMore(calls, n, toProxy);
      EveryCallHasARoute(calls[..|calls| - 1], n, toProxy);
    }
  }

  lemma {:induction false} NoCalls(n: nat, toProxy: bool)
    ensures Directed([], n, toProxy) == 0 && DirectedBytes([], n, toProxy) == 0
  {
    if n > 0 { NoCalls(n - 1, toProxy); }
  }

  lemma AddModulo(a: nat, b: nat, c: nat, d: nat)
    requires a % WRAP64 == b % WRAP64 && c == d % WRAP64
    ensures (a + c) % WRAP64 == (b + d) % WRAP64
  {
  }

  lemma {:induction false} PacketsAreDirected(routes: seq<Route>, calls: seq<Call>, toProxy: bool)
    requires forall r: nat :: r < |routes| ==> RouteAccounted(routes[r], calls, r)
    ensures TotalPackets(routes, toProxy) % WRAP64 == Directed(calls, |routes|, toProxy) % WRAP64
  {
    if routes != [] {
      var n := |routes| - 1;
      PacketsAreDirected(routes[..n], calls, toProxy);
      CountersOfOne(routes[n], calls, n, toProxy);
      hide RouteAccounted, Packets, PacketsOf, BytesOf, Volume;
      AddModulo(TotalPackets(routes[..n], toProxy), Directed(calls, n, toProxy),
                PacketsOf(routes[n], toProxy), Packets(calls, n, toProxy));
      assert TotalPackets(routes, toProxy) == TotalPackets(routes[..n], toProxy) + PacketsOf(routes[n], toProxy);
      assert Directed(calls, |routes|, toProxy) == Directed(calls, n, toProxy) + Packets(calls, n, toProxy);
    }
  }

  lemma {:induction false} BytesAreDirected(routes: seq<Route>, calls: seq<Call>, toProxy: bool)
    requires forall r: nat :: r < |routes| ==> RouteAccounted(routes[r], calls, r)
    ensures TotalBytes(routes, toProxy) % WRAP64 == DirectedBytes(calls, |routes|, toProxy) % WRAP64
  {
    if routes != [] {
      var n := |routes| - 1;
      BytesAreDirected(routes[..n], calls, toProxy);
      CountersOfOne(routes[n], calls, n, toProxy);
      hide RouteAccounted, Packets, PacketsOf, BytesOf, Volume;
      AddModulo(TotalBytes(routes[..n], toProxy), DirectedBytes(calls, n, toProxy),
                BytesOf(routes[n], toProxy), Volume(calls, n, toProxy));
      assert TotalBytes(routes, toProxy) == TotalBytes(routes[..n], toProxy) + BytesOf(routes[n], toProxy);
      assert DirectedBytes(calls, |routes|, toProxy) == DirectedBytes(calls, n, toProxy) + Volume(calls, n, toProxy);
    }
  }

  lemma CountersOfOne(route: Route, calls: seq<Call>, n: nat, toProxy: bool)
    requires RouteAccounted(route, calls, n)
    ensures PacketsOf(route, toProxy) == Packets(calls, n, toProxy) % WRAP64
    ensures BytesOf(route, toProxy) == Volume(calls, n, toProxy) % WRAP64
  {
  }

  /** In every state of every run, over all routes ever created, in the table or detached from
      it: the counters add up, modulo 2^64, to the number of calls past the counting section
      and to the bytes those calls carried. */
  lemma TrafficIsConserved(states: seq<State>, events: seq<Event>, i: nat, toProxy: bool)
    requires Run(states, events) && i < |states|
    ensures var s := states[i];
      && TotalPackets(s.tables.routes, toProxy) % WRAP64 == CallCount(s.counted, toProxy) % WRAP64
      && TotalBytes(s.tables.routes, toProxy) % WRAP64 == ByteCount(s.counted, toProxy) % WRAP64
  {
    RunKeepsAccounted(states, events, i);
    var s := states[i];
    PacketsAreDirected(s.tables.routes, s.counted, toProxy);
    BytesAreDirected(s.tables.routes, s.counted, toProxy);
    EveryCallHasARoute(s.counted, |s.tables.routes|, toProxy);
  }

  /** Every counted call is sent exactly once, in its session's order, as the packet and to the
      stream of its lookup; at most the session's last counted call is still to be sent. */
  lemma CountedCallsAreSentOnce(states: seq<State>, events: seq<Event>, i: nat, st: Stream)
    requires Run(states, events) && i < |states|
    ensures var counted, sent := CallsOf(states[i].counted, st), CallsOf(states[i].sent, st);
      && sent <= counted && |counted| - |sent| <= 1
      && (|counted| == |sent| + 1 <==> st in states[i].sessions && states[i].sessions[st].phase.Sending?)
  {
    RunKeepsAccounted(states, events, i);
    assert CallsOf(states[i].counted, st) == CallsOf(states[i].sent, st) + InFlight(states[i], st);
  }
}
