/** Idle connections, over the runs of a client or a proxy: a cleanup removes a connection, and
    closes its socket, exactly when nothing has used it lately. */
module Activity {
  import opened Wire
  import opened Process
  import opened Lifecycle
  import C = Connections

  /** The step uses state object `x`: it is created, its goroutine reads (at the client, a goroutine
      whose ID leads to it), or a packet comes for it. */
  predicate Uses(s: State, e: Event, x: nat)
    requires Shape(s) && Enabled(s, e)
  {
    match e
    case Track(_, _, _) => x == |s.table.entries|
    case Touch(k) => if s.role.ClientRole? then LeadsTo(s, s.workers[k].connId, x) else s.workers[k].entry == Some(x)
    case Receive(pkt, dials) =>
      s.role.ProxyRole? && (LeadsTo(s, pkt.connId, x) ||
        (pkt.connId !in s.table.connections && dials && x == |s.table.entries|))
    case TouchIn => s.inHand.entry == x
    case _ => false
  }

  predicate LeadsTo(s: State, id: Id, x: nat) {
    id in s.table.connections && s.table.connections[id] == x
  }

  /** A state object's activity is the time of the step that uses it, and otherwise what it was. */
  lemma ActivityAfter(s: State, e: Event, x: nat)
    requires Shape(s) && Enabled(s, e) && x < |Apply(s, e).table.entries|
    ensures Uses(s, e, x) || x < |s.table.entries|
    ensures Apply(s, e).table.entries[x].last == if Uses(s, e, x) then s.clock else s.table.entries[x].last
  {
    if e.Touch? { assert WorkerFits(s, e.k); }
  }

  ghost predicate UsedAt(states: seq<State>, events: seq<Event>, u: nat, x: nat) {
    u < |events| && u < |states| && Shape(states[u]) && Enabled(states[u], events[u]) && Uses(states[u], events[u], x)
  }

  lemma FirstHasNone(states: seq<State>, events: seq<Event>)
    requires Run(states, events)
    ensures |states| > 0 && states[0].table.entries == []
  {
  }

  /** What one step of a run does to a state object's activity. */
  lemma StepUse(states: seq<State>, events: seq<Event>, n: nat, x: nat)
    requires Run(states, events) && 0 < n < |states| && x < |states[n].table.entries|
    ensures var used, last := UsedAt(states, events, n - 1, x), states[n].table.entries[x].last;
      if used then last == states[n - 1].clock
      else x < |states[n - 1].table.entries| && last == states[n - 1].table.entries[x].last
    ensures states[n - 1].clock <= states[n].clock
  {
    StepOf(states, events, n);
    ActivityAfter(states[n - 1], events[n - 1], x);
    ClockGrows(states[n - 1], events[n - 1]);
    hide Run, Shape, Enabled, Apply, Uses;
  }

  /** The activity of a state object is the time of the last step that used it, and some step did. */
  lemma {:induction false} ActivityIsLastUse(states: seq<State>, events: seq<Event>, n: nat, x: nat)
    returns (u: nat)
    requires Run(states, events) && n < |states| && x < |states[n].table.entries|
    ensures u < n && UsedAt(states, events, u, x) && states[n].table.entries[x].last == states[u].clock
    ensures forall v: nat :: v < n && UsedAt(states, events, v, x) ==> states[v].clock <= states[u].clock
    ensures states[u].clock <= states[n].clock
  {
    hide *;
    FirstHasNone(states, events);
    StepUse(states, events, n, x);
    if UsedAt(states, events, n - 1, x) {
      u := n - 1;
      forall v: nat | v < n ensures states[v].clock <= states[n - 1].clock {
        ClockNeverGoesBack(states, events, v, n - 1);
      }
    } else {
      u := ActivityIsLastUse(states, events, n - 1, x);
    }
  }

  lemma ClockGrows(s: State, e: Event)
    requires Shape(s) && Enabled(s, e)
    ensures s.clock <= Apply(s, e).clock
  {
  }

  lemma {:induction false} ClockNeverGoesBack(states: seq<State>, events: seq<Event>, m: nat, n: nat)
    requires Run(states, events) && m <= n < |states|
    ensures states[m].clock <= states[n].clock
  {
    if m < n {
      StepOf(states, events, n);
      ClockGrows(states[n - 1], events[n - 1]);
      hide Run, Shape, Enabled, Apply;
      ClockNeverGoesBack(states, events, m, n - 1);
    }
  }

  /** Some step at most `maxIdle` before state `n` used state object `x`. */
  ghost predicate UsedLately(states: seq<State>, events: seq<Event>, n: nat, x: nat, maxIdle: Time)
    requires n < |states|
  {
    exists u: nat ::
      u < n && u < |states| && UsedAt(states, events, u, x) && states[n].clock - states[u].clock <= maxIdle
  }

  lemma CleanupStep(s: State, maxIdle: Time, id: Id)
    requires Shape(s) && id in s.table.connections
    ensures Enabled(s, Cleanup(maxIdle))
    ensures var s', x := Apply(s, Cleanup(maxIdle)), s.table.connections[id];
      && x < |s.table.entries| && s.table.entries[x].socket < |s.table.open| == |s'.table.open|
      && (id in s'.table.connections <==> s.clock - s.table.entries[x].last <= maxIdle)
      && (id in s'.table.connections ==> s'.table.connections[id] == x)
      && (var k := s.table.entries[x].socket;
          s'.table.open[k] <==> s.table.open[k] && id in s'.table.connections)
  {
    var x := s.table.connections[id];
    var k := s.table.entries[x].socket;
    forall i | i in s.table.connections && s.table.Stored(i).socket == k ensures i == id {
      assert s.workers[k].entry == Some(x) && s.workers[k].entry == Some(s.table.connections[i]);
    }
  }

  /** In every run, a cleanup keeps a stored connection, and its socket as it is, if and only if some
      step used the connection at most `maxIdle` before; otherwise it removes it and closes the
      socket. */
  lemma CleanupKeepsExactlyUsed(states: seq<State>, events: seq<Event>, n: nat, maxIdle: Time, id: Id)
    requires Run(states, events) && n < |events| && events[n] == Cleanup(maxIdle) && id in states[n].table.connections
    ensures var t, t', x := states[n].table, states[n + 1].table, states[n].table.connections[id];
      && x < |t.entries| && t.entries[x].socket < |t.open| == |t'.open|
      && (id in t'.connections <==> UsedLately(states, events, n, x, maxIdle))
      && (id in t'.connections ==> t'.connections[id] == x)
      && (t'.open[t.entries[x].socket] <==> t.open[t.entries[x].socket] && id in t'.connections)
  {
    StepOf(states, events, n + 1);
    CleanupStep(states[n], maxIdle, id);
    var x := states[n].table.connections[id];
    hide Run, Shape, Enabled, Apply, UsedAt;
    var u := ActivityIsLastUse(states, events, n, x);
  }
}
