/** No socket is leaked and none is lost, although goroutines remove connections by ID and an ID
    can be reused: a stale goroutine may remove, and close, a newer connection than its own. */
module Lifecycle {
  import opened Wire
  import opened Process
  import C = Connections

  /** Socket `k` is the one stored under its goroutine's ID. */
  predicate InTable(s: State, k: nat)
    requires Shape(s) && k < |s.workers|
  {
    var id := s.workers[k].connId;
    id in s.table.connections && s.table.Stored(id).socket == k
  }

  /** Whatever the table holds belongs to a goroutine that has still to run its own removal. At
      the proxy, moreover, the open sockets are exactly those in the table. */
  ghost predicate Owned(s: State)
    requires Shape(s)
  {
    && (forall id :: id in s.table.connections ==> s.workers[s.table.Stored(id).socket].Active())
    && (s.role.ProxyRole? ==> forall k: nat :: k < |s.workers| ==> (s.table.open[k] <==> InTable(s, k)))
    && (s.role.ClientRole? ==> forall k: nat :: s.In(k, Done) ==> !s.table.open[k])
  }

  /** An entry stored under `id` is the goroutine's of that very ID. */
  lemma StoredUnderOwnId(s: State, id: Id)
    requires Shape(s) && id in s.table.connections
    ensures var k := s.table.Stored(id).socket;
      k < |s.workers| && s.workers[k].connId == id && InTable(s, k)
  {
    var e := s.table.connections[id];
    var k := s.table.entries[e].socket;
    assert s.workers[k].entry == Some(e);
    assert WorkerFits(s, k);
  }

  /** Removing whatever is stored under one ID. */
  lemma RemoveKeepsOwned(s: State, s': State, id: Id)
    requires Shape(s) && Shape(s') && Owned(s) && s'.role == s.role && s'.table == C.Remove(s.table, id)
    requires |s'.workers| == |s.workers|
    requires forall k: nat :: k < |s.workers| ==> s'.workers[k].connId == s.workers[k].connId
    requires forall k: nat :: k < |s.workers| && s.workers[k].Active() ==>
      s'.workers[k].Active() || s.workers[k].connId == id
    requires forall k: nat :: s'.In(k, Done) ==> s.In(k, Done)
    ensures Owned(s')
  {
    forall i | i in s'.table.connections ensures s'.workers[s'.table.Stored(i).socket].Active() {
      StoredUnderOwnId(s, i);
    }
    if s.role.ProxyRole? {
      forall k: nat | k < |s'.workers| ensures s'.table.open[k] <==> InTable(s', k) {
        assert s.table.open[k] <==> InTable(s, k);
        if id in s.table.connections { StoredUnderOwnId(s, id); }
      }
    }
  }

  /** A cleanup closes the over-idle connections it finds in the table, and no others. */
  lemma CleanupClosesExactly(s: State, maxIdle: Time, k: nat)
    requires Shape(s) && k < |s.workers|
    ensures var s' := Apply(s, Cleanup(maxIdle));
      && k < |s'.table.open|
      && (s'.table.open[k] <==>
            s.table.open[k] && !(InTable(s, k) && C.OverIdle(s.table, s.workers[k].connId, maxIdle, s.clock)))
  {
    CleanupClosesStored(s, maxIdle, k);
  }

  lemma CleanupKeepsOwned(s: State, maxIdle: Time)
    requires Shape(s) && Owned(s)
    ensures Shape(Apply(s, Cleanup(maxIdle))) && Owned(Apply(s, Cleanup(maxIdle)))
  {
    var s' := Apply(s, Cleanup(maxIdle));
    StepKeepsShape(s, Cleanup(maxIdle));
    if s.role.ProxyRole? {
      forall k: nat | k < |s'.workers| ensures s'.table.open[k] <==> InTable(s', k) {
        CleanupClosesStored(s, maxIdle, k);
      }
    }
  }

  /** Socket `k` is closed by a cleanup exactly when it is stored and its entry is over-idle. */
  lemma CleanupClosesStored(s: State, maxIdle: Time, k: nat)
    requires Shape(s) && k < |s.workers|
    ensures C.Expires(s.table, s.table.connections.Keys, k, maxIdle, s.clock)
      <==> InTable(s, k) && C.OverIdle(s.table, s.workers[k].connId, maxIdle, s.clock)
  {
    if C.Expires(s.table, s.table.connections.Keys, k, maxIdle, s.clock) {
      var id :| id in s.table.connections.Keys && C.OverIdle(s.table, id, maxIdle, s.clock)
        && s.table.Stored(id).socket == k;
      StoredUnderOwnId(s, id);
    }
  }

  /** A new entry for a socket whose goroutine is just getting to work. */
  lemma AddKeepsOwned(s: State, e: Event)
    requires Shape(s) && Owned(s) && Enabled(s, e) && Adds(s, e)
    ensures Shape(Apply(s, e)) && Owned(Apply(s, e))
  {
    var s' := Apply(s, e);
    StepKeepsShape(s, e);
    forall id | id in s'.table.connections ensures s'.workers[s'.table.Stored(id).socket].Active() {
      if id in s.table.connections { StoredUnderOwnId(s, id); }
    }
    if s.role.ProxyRole? {
      forall k: nat | k < |s'.workers| ensures s'.table.open[k] <==> InTable(s', k) { DialKeepsOpen(s, e, k); }
    }
  }

  lemma DialKeepsOpen(s: State, e: Event, k: nat)
    requires Shape(s) && Owned(s) && Enabled(s, e) && Adds(s, e) && s.role.ProxyRole?
    requires Shape(Apply(s, e)) && k < |Apply(s, e).workers|
    ensures Apply(s, e).table.open[k] <==> InTable(Apply(s, e), k)
  {
    if k < |s.workers| { assert s.table.open[k] <==> InTable(s, k); }
  }

  /** Steps that leave the map as it is, and close nothing but what a client goroutine closes
      when it returns. */
  lemma QuietKeepsOwned(s: State, s': State)
    requires Shape(s) && Shape(s') && Owned(s) && s'.role == s.role
    requires s'.table.connections == s.table.connections && EntriesExtend(s.table, s'.table)
    requires |s.workers| <= |s'.workers| && (s.role.ProxyRole? ==> |s'.workers| == |s.workers|)
    requires forall k: nat :: k < |s.workers| ==>
      (s.workers[k].entry.Some? ==> s'.workers[k].connId == s.workers[k].connId)
      && (s.workers[k].Active() ==> s'.workers[k].Active())
      && (s.role.ProxyRole? ==> s'.workers[k].connId == s.workers[k].connId && s'.table.open[k] == s.table.open[k])
    requires s.role.ClientRole? ==> forall k: nat :: s'.In(k, Done) ==> !s'.table.open[k]
    ensures Owned(s')
  {
    if s.role.ProxyRole? {
      forall k: nat | k < |s'.workers| ensures s'.table.open[k] <==> InTable(s', k) {
        assert s.table.open[k] <==> InTable(s, k);
      }
    }
  }

  predicate Quiet(s: State, e: Event) {
    !e.Removal? && !e.RemoveBroken? && !e.Cleanup? && !Adds(s, e)
  }

  lemma QuietTable(s: State, e: Event)
    requires Shape(s) && Owned(s) && Enabled(s, e) && Quiet(s, e)
    ensures var t := TableAfter(s, e);
      && t.connections == s.table.connections
      && (s.role.ProxyRole? ==> t.open == s.table.open)
      && (s.role.ClientRole? ==> forall k: nat :: k < |s.table.open| && !s.table.open[k] ==> k < |t.open| && !t.open[k])
      && (s.role.ClientRole? && e.Finish? ==> e.k < |t.open| && !t.open[e.k])
  {
    if e.Touch? { assert WorkerFits(s, e.k); }
  }

  lemma QuietWorkers(s: State, e: Event)
    requires Shape(s) && Owned(s) && Enabled(s, e) && Quiet(s, e)
    ensures var ws := WorkersAfter(s, e);
      && |s.workers| <= |ws| && (s.role.ProxyRole? ==> |ws| == |s.workers|)
      && (forall k: nat :: k < |s.workers| ==>
            ws[k].connId == s.workers[k].connId && (s.workers[k].Active() ==> ws[k].Active())
            && (ws[k].phase == Done ==> s.workers[k].phase == Done || e == Finish(k)))
      && (forall k: nat :: |s.workers| <= k < |ws| ==> ws[k].phase != Done)
  {
  }

  lemma QuietStepKeepsOwned(s: State, e: Event)
    requires Shape(s) && Owned(s) && Enabled(s, e) && Quiet(s, e)
    ensures Shape(Apply(s, e)) && Owned(Apply(s, e))
  {
    StepKeepsShape(s, e);
    TableStep(s, e);
    QuietTable(s, e);
    QuietWorkers(s, e);
    hide TableAfter, WorkersAfter, LinesAfter, Shape, Enabled;
    var s' := Apply(s, e);
    if s.role.ClientRole? {
      forall k: nat | s'.In(k, Done) ensures !s'.table.open[k] {
        assert k < |s.workers| && (s.In(k, Done) || e == Finish(k));
      }
    }
    QuietKeepsOwned(s, s');
  }

  lemma StepKeepsOwned(s: State, e: Event)
    requires Shape(s) && Owned(s) && Enabled(s, e)
    ensures Shape(Apply(s, e)) && Owned(Apply(s, e))
  {
    StepKeepsShape(s, e);
    if e.Removal? {
      RemoveKeepsOwned(s, Apply(s, e), s.workers[e.k].connId);
    } else if e.RemoveBroken? {
      RemoveKeepsOwned(s, Apply(s, e), s.inHand.id);
    } else if e.Cleanup? {
      CleanupKeepsOwned(s, e.maxIdle);
    } else if Adds(s, e) {
      AddKeepsOwned(s, e);
    } else {
      QuietStepKeepsOwned(s, e);
    }
  }

  // ---------------------------------------------------------------- runs

  ghost predicate Run(states: seq<State>, events: seq<Event>) {
    && |states| == |events| + 1
    && states[0] == Init(states[0].role, states[0].stream, states[0].clock)
    && forall i :: 0 <= i < |events| ==>
      Shape(states[i]) && Enabled(states[i], events[i]) && states[i + 1] == Apply(states[i], events[i])
  }

  /** The step before state `n`. */
  lemma StepOf(states: seq<State>, events: seq<Event>, n: nat)
    requires Run(states, events) && 0 < n < |states|
    ensures |states| == |events| + 1 && Shape(states[n - 1]) && Enabled(states[n - 1], events[n - 1])
    ensures states[n] == Apply(states[n - 1], events[n - 1])
  {
    hide Shape, Enabled, Apply, Init;
    assert states[n - 1 + 1] == Apply(states[n - 1], events[n - 1]);
  }

  lemma {:induction false} RunKeepsOwned(states: seq<State>, events: seq<Event>, i: nat)
    requires Run(states, events) && i < |states|
    ensures Shape(states[i]) && Owned(states[i]) && states[i].role == states[0].role
  {
    if i > 0 {
      RunKeepsOwned(states, events, i - 1);
      StepKeepsOwned(states[i - 1], events[i - 1]);
    }
  }

  /** The proxy, in every state of every run: a connection ever dialed is open exactly when the
      table holds it, it is there once at most, and under its own ID. */
  lemma DialedIsStoredOrClosed(states: seq<State>, events: seq<Event>, i: nat, k: nat)
    requires Run(states, events) && i < |states| && states[0].role.ProxyRole? && k < |states[i].workers|
    ensures Shape(states[i]) && (states[i].table.open[k] <==> InTable(states[i], k))
    ensures var s := states[i];
      forall id :: id in s.table.connections && s.table.Stored(id).socket == k ==> id == s.workers[k].connId
  {
    RunKeepsOwned(states, events, i);
    forall id | id in states[i].table.connections && states[i].table.Stored(id).socket == k
      ensures id == states[i].workers[k].connId
    {
      StoredUnderOwnId(states[i], id);
    }
  }

  /** What `Stop` waits for: every reader has run its deferred removal. */
  predicate AllReadersGone(s: State) {
    forall k :: 0 <= k < |s.workers| ==> s.workers[k].phase in {Removed, Done}
  }

  /** When the readers are gone, the forwarder holds nothing and every connection ever dialed
      is closed. */
  lemma NoSocketLeaksAtTheProxy(states: seq<State>, events: seq<Event>, i: nat)
    requires Run(states, events) && i < |states| && states[0].role.ProxyRole?
    requires AllReadersGone(states[i])
    ensures states[i].table.connections == map[]
    ensures forall k :: 0 <= k < |states[i].table.open| ==> !states[i].table.open[k]
  {
    RunKeepsOwned(states, events, i);
    NothingStored(states[i]);
  }

  lemma NothingStored(s: State)
    requires Shape(s) && Owned(s) && AllReadersGone(s)
    ensures s.table.connections == map[]
  {
    forall id ensures id !in s.table.connections {
      if id in s.table.connections {
        StoredUnderOwnId(s, id);
        assert false;
      }
    }
  }

  /** The client: when every handler has returned, the tracker is empty and every connection
      ever accepted is closed, tracked or not. */
  lemma NoSocketLeaksAtTheClient(states: seq<State>, events: seq<Event>, i: nat)
    requires Run(states, events) && i < |states| && states[0].role.ClientRole?
    requires forall k :: 0 <= k < |states[i].workers| ==> states[i].In(k, Done)
    ensures states[i].table.connections == map[]
    ensures forall k :: 0 <= k < |states[i].table.open| ==> !states[i].table.open[k]
  {
    RunKeepsOwned(states, events, i);
    var s := states[i];
    forall k | 0 <= k < |s.workers| ensures s.workers[k].phase in {Removed, Done} {
      assert s.In(k, Done);
    }
    NothingStored(s);
  }

  // ---------------------------------------------------------------- removal by ID

  /** What a goroutine's deferred removal closes, exactly: the socket stored under its ID, its
      own or a newer one. */
  lemma RemovalClosesExactly(s: State, j: nat, k: nat)
    requires Shape(s) && Enabled(s, Removal(j)) && k < |s.workers|
    ensures var s' := Apply(s, Removal(j));
      && k < |s'.table.open|
      && (s'.table.open[k] <==>
          s.table.open[k] && !(InTable(s, k) && s.workers[k].connId == s.workers[j].connId))
  {
    if s.workers[j].connId in s.table.connections { StoredUnderOwnId(s, s.workers[j].connId); }
  }

  /** A run one step longer. */
  lemma Extended(states: seq<State>, events: seq<Event>, e: Event)
    returns (s': State, states': seq<State>, events': seq<Event>)
    requires Run(states, events) && Shape(states[|events|]) && Enabled(states[|events|], e)
    ensures Run(states', events') && s' == Apply(states[|events|], e) && Shape(s')
    ensures states' == states + [s'] && events' == events + [e] && |states'| == |events'| + 1
  {
    hide Apply, Shape, Enabled, Init;
    s' := Apply(states[|events|], e);
    StepKeepsShape(states[|events|], e);
    states', events' := states + [s'], events + [e];
    assert forall i :: 0 <= i < |events| ==> events'[i] == events[i] && states'[i] == states[i];
  }

  lemma RunStarts(role: Role, stream: Stream, clock: Time)
    ensures Run([Init(role, stream, clock)], []) && Shape(Init(role, stream, clock))
  {
  }

  lemma Dialed(pkt: Packet) returns (states: seq<State>, events: seq<Event>)
    ensures Run(states, events) && |states| == |events| + 1
    ensures var s := states[|events|];
      && Shape(s) && s.role == ProxyRole && s.inHand == Touched(pkt, 0)
      && s.table == C.Table(map[pkt.connId := 0], [C.Entry(pkt.connId, 0, 0, 0)], [true])
      && s.workers == [Worker(pkt.connId, None, Some(0), Reading)] && |s.lines| == 1
  {
    hide Run, Shape;
    var s := Init(ProxyRole, 0, 0);
    RunStarts(ProxyRole, 0, 0);
    s, states, events := Extended([s], [], Receive(pkt, true));
  }

  lemma WriteHasFailed(pkt: Packet) returns (states: seq<State>, events: seq<Event>)
    ensures Run(states, events) && |states| == |events| + 1
    ensures var s := states[|events|];
      && Shape(s) && s.role == ProxyRole && s.inHand == Nothing
      && s.table.connections == map[] && |s.table.entries| == 1
      && s.workers == [Worker(pkt.connId, None, Some(0), Reading)] && |s.lines| == |s.table.open| == 1
  {
    hide Run, Shape;
    states, events := Dialed(pkt);
    var s := states[|events|];
    s, states, events := Extended(states, events, WriteFails);
    s, states, events := Extended(states, events, RemoveBroken);
  }

  /** "A goroutine removes only its own connection" is false: after a failed write, the ID is
      dialed again, and the first reader's removal closes the second connection in use. */
  lemma StaleReaderClosesNewer(pkt: Packet) returns (states: seq<State>, events: seq<Event>)
    ensures Run(states, events) && |states| == |events| + 1 && events != [] && events[|events| - 1] == Removal(0)
    ensures var s, s' := states[|events| - 1], states[|events|];
      && |s.workers| == |s.table.open| == |s'.workers| == |s'.table.open| == 2
      && s.workers[1].phase == s'.workers[1].phase == Reading && s.table.open[1] && !s'.table.open[1]
  {
    hide Run, Shape;
    states, events := WriteHasFailed(pkt);
    var s := states[|events|];
    s, states, events := Extended(states, events, Receive(pkt, true));
    s, states, events := Extended(states, events, Leave(0));
    s, states, events := Extended(states, events, Removal(0));
  }

  // ---------------------------------------------------------------- the bounded queue

  lemma {:induction false} QueueIsBounded(states: seq<State>, events: seq<Event>, i: nat)
    requires Run(states, events) && i < |states|
    ensures |states[i].queue| <= SLOTS && states[i].role == states[0].role
  {
    if i > 0 {
      QueueIsBounded(states, events, i - 1);
      var s, e := states[i - 1], events[i - 1];
      assert s.queue != [] ==> |s.queue[1..]| < |s.queue|;
    }
  }

  /** A handler that holds a packet queues it, or drops it, and drops it exactly when all slots
      are taken. */
  lemma HeldIsQueuedOrDropped(states: seq<State>, events: seq<Event>, i: nat, k: nat)
    requires Run(states, events) && i < |events| && states[0].role.ClientRole?
    requires states[i].In(k, Holding) && WorkerOf(events[i]) == Some(k)
    ensures var s, s' := states[i], states[i + 1];
      && k < |s.lines| && s.lines[k].pending.Some?
      && (if |s.queue| == SLOTS then events[i] == Drop(k) && s'.queue == s.queue
          else |s.queue| < SLOTS && events[i] == Enqueue(k) && s'.queue == s.queue + [s.lines[k].pending.value])
  {
    QueueIsBounded(states, events, i);
    assert WorkerFits(states[i], k);
  }

  lemma {:induction false} StoppingMeansStopped(states: seq<State>, events: seq<Event>, i: nat)
    requires Run(states, events) && i < |states| && states[i].stopping
    ensures exists j: nat :: j < i && events[j] == Stop
  {
    if i > 0 && events[i - 1] != Stop {
      StoppingMeansStopped(states, events, i - 1);
    }
  }

  /** A reader at the proxy that holds a packet queues it, however long it has to wait for a slot; it
      gives it up only after a stop. */
  lemma HeldIsQueuedUnlessStopped(states: seq<State>, events: seq<Event>, i: nat, k: nat)
    requires Run(states, events) && i < |events| && states[0].role.ProxyRole?
    requires states[i].In(k, Holding) && WorkerOf(events[i]) == Some(k)
    ensures var s, s' := states[i], states[i + 1];
      && k < |s.lines| && s.lines[k].pending.Some?
      && (if events[i] == Enqueue(k) then |s.queue| < SLOTS && s'.queue == s.queue + [s.lines[k].pending.value]
          else events[i] == Abandon(k) && s'.queue == s.queue && exists j: nat :: j < i && events[j] == Stop)
  {
    QueueIsBounded(states, events, i);
    assert WorkerFits(states[i], k);
    if states[i].stopping { StoppingMeansStopped(states, events, i); }
  }

  // ---------------------------------------------------------------- closed sockets

  lemma ClosedStaysClosed(s: State, e: Event, k: nat)
    requires Shape(s) && Enabled(s, e) && k < |s.table.open| && !s.table.open[k]
    ensures k < |TableAfter(s, e).open| && !TableAfter(s, e).open[k]
  {
    if e.Touch? { assert WorkerFits(s, e.k); }
  }

  lemma ClosedLine(s: State, e: Event, k: nat)
    requires Shape(s) && Enabled(s, e) && k < |s.lines| && !s.table.open[k]
    ensures k < |LinesAfter(s, e)|
    ensures LinesAfter(s, e)[k].written == s.lines[k].written && LinesAfter(s, e)[k].chunks == s.lines[k].chunks
  {
  }

  /** Socket `k` is closed in both states, and nothing was read from it or written to it between. */
  ghost predicate Silent(s: State, s': State, k: nat) {
    && k < |s.lines| && k < |s.table.open| && !s.table.open[k]
    && k < |s'.lines| && k < |s'.table.open| && !s'.table.open[k]
    && s'.lines[k].written == s.lines[k].written && s'.lines[k].chunks == s.lines[k].chunks
  }

  lemma SilentStep(states: seq<State>, events: seq<Event>, n: nat, k: nat)
    requires Run(states, events) && 0 < n < |states| && Silent(states[n - 1], states[n - 1], k)
    ensures Silent(states[n - 1], states[n], k)
  {
    StepOf(states, events, n);
    hide Run, Shape, Enabled, TableAfter, LinesAfter, WorkersAfter, QueueAfter, OutHandAfter, InHandAfter;
    ClosedStaysClosed(states[n - 1], events[n - 1], k);
    ClosedLine(states[n - 1], events[n - 1], k);
  }

  lemma StaysSilent(s: State, s1: State, s2: State, k: nat)
    requires Silent(s, s1, k)
    ensures Silent(s1, s1, k) && (Silent(s1, s2, k) ==> Silent(s, s2, k))
  {
  }

  lemma SilentNow(s: State, k: nat)
    requires k < |s.lines| && k < |s.table.open| && !s.table.open[k]
    ensures Silent(s, s, k)
  {
  }

  /** From a closed socket nothing more is read, and nothing more is written to it. */
  lemma {:induction false} ClosedIsSilent(states: seq<State>, events: seq<Event>, i: nat, j: nat, k: nat)
    requires Run(states, events) && i <= j < |states| && k < |states[i].lines|
    requires k < |states[i].table.open| && !states[i].table.open[k]
    ensures Silent(states[i], states[j], k)
    decreases j
  {
    hide *;
    if i == j {
      SilentNow(states[i], k);
    } else {
      ClosedIsSilent(states, events, i, j - 1, k);
      StaysSilent(states[i], states[j - 1], states[j], k);
      SilentStep(states, events, j, k);
    }
  }
}
