/** A run of the whole system, seen from one process or from the server, is a run of that process
    or of the server. What is proved of either by itself therefore holds inside the system. */
module Projection {
  import opened Wire
  import opened EndToEnd
  import L = Lifecycle
  import O = Ownership
  import P = Process
  import S = Server

  // ---------------------------------------------------------------- a process

  /** The step is one that process `st` takes. */
  predicate OwnStep(y: System, e: Event, st: Stream)
    requires Shape(y) && Enabled(y, e) && Shape(Apply(y, e)) && st in y.procs && P.Shape(y.procs[st])
  {
    && Inside(y, e).Some? && Inside(y, e).value.0 == st && st in Apply(y, e).procs
    && P.Enabled(y.procs[st], Inside(y, e).value.1)
    && Apply(y, e).procs[st] == P.Apply(y.procs[st], Inside(y, e).value.1)
  }

  /** A process that a step does not start takes a step of its own, or none. */
  lemma ProcessMoves(y: System, e: Event, st: Stream)
    requires Shape(y) && Enabled(y, e) && Shape(Apply(y, e)) && st in Apply(y, e).procs
    ensures st !in y.procs ==> e.Start? && Apply(y, e).procs[st] == P.Init(e.role, st, e.clock)
    ensures st in y.procs ==> P.Shape(y.procs[st]) && (Apply(y, e).procs[st] == y.procs[st] || OwnStep(y, e, st))
  {
    InsideStep(y, e);
    if st !in y.procs { StartedHere(y, e, st); }
    ShapeOf(y, st);
    hide Shape, Enabled, Apply, P.Shape, P.Enabled, P.Apply, P.Init;
  }

  lemma ShapeOf(y: System, st: Stream)
    requires Shape(y)
    ensures st in y.procs ==> P.Shape(y.procs[st])
  {
    hide P.Shape, S.Shape;
  }

  lemma StartedHere(y: System, e: Event, st: Stream)
    requires Shape(y) && Enabled(y, e) && st in Apply(y, e).procs && st !in y.procs
    ensures e.Start? && Apply(y, e).procs[st] == P.Init(e.role, st, e.clock)
  {
    hide P.Shape, P.Enabled, P.Apply, P.Init, S.Shape, S.Enabled, S.Apply;
  }

  lemma {:induction false} ProcessRun(states: seq<System>, events: seq<Event>, n: nat, st: Stream)
    returns (own: seq<P.State>, steps: seq<P.Event>)
    requires Run(states, events) && n < |states| && st in states[n].procs
    ensures L.Run(own, steps) && |own| == |steps| + 1 && own[|steps|] == states[n].procs[st]
  {
    hide Shape, Enabled, Apply, P.Shape, P.Enabled, P.Apply, P.Init, L.Run;
    assert n > 0;
    var y, e := states[n - 1], events[n - 1];
    StepOf(states, events, n);
    ProcessMoves(y, e, st);
    var s := states[n].procs[st];
    if st !in y.procs {
      L.RunStarts(e.role, st, e.clock);
      own, steps := [s], [];
    } else {
      own, steps := ProcessRun(states, events, n - 1, st);
      if s != y.procs[st] {
        var s';
        s', own, steps := L.Extended(own, steps, Inside(y, e).value.1);
      }
    }
  }

  /** In every process of the system a stored connection belongs to a goroutine that has still to
      remove it, and at a proxy a dialed socket is open exactly when it is stored. */
  lemma SocketsAreOwned(states: seq<System>, events: seq<Event>, n: nat, st: Stream)
    requires Run(states, events) && n < |states| && st in states[n].procs
    ensures P.Shape(states[n].procs[st]) && L.Owned(states[n].procs[st])
  {
    hide *;
    var own, steps := ProcessRun(states, events, n, st);
    L.RunKeepsOwned(own, steps, |steps|);
  }

  /** In no process of the system does a socket outlive the goroutines. */
  lemma NoSocketLeaks(states: seq<System>, events: seq<Event>, n: nat, st: Stream)
    requires Run(states, events) && n < |states| && st in states[n].procs
    requires forall k :: 0 <= k < |states[n].procs[st].workers| ==> states[n].procs[st].In(k, P.Done)
    ensures states[n].procs[st].table.connections == map[]
    ensures forall k :: 0 <= k < |states[n].procs[st].table.open| ==> !states[n].procs[st].table.open[k]
  {
    var own, steps := ProcessRun(states, events, n, st);
    L.RunKeepsOwned(own, steps, |steps|);
    hide Run, L.Run, P.Shape, L.Owned;
    forall k | 0 <= k < |states[n].procs[st].workers| ensures states[n].procs[st].workers[k].phase == P.Done {
      assert states[n].procs[st].In(k, P.Done);
    }
    if states[n].procs[st].role.ProxyRole? {
      L.NoSocketLeaksAtTheProxy(own, steps, |steps|);
    } else {
      L.NoSocketLeaksAtTheClient(own, steps, |steps|);
    }
  }

  // ---------------------------------------------------------------- the server

  /** The server's part of a step, if it has one. */
  function AtServer(y: System, e: Event): Option<S.Event>
    requires Shape(y) && Enabled(y, e)
  {
    match e
    case Relay(se) => Some(se)
    case Take(st, choice) => Some(S.Receive(st, y.up[st][0], choice))
    case Deliver(st, _) => Some(S.Sent(st))
    case _ => None
  }

  lemma ServerMoves(y: System, e: Event)
    requires Shape(y) && Enabled(y, e)
    ensures S.Shape(y.server)
    ensures match AtServer(y, e)
      case Some(se) => S.Enabled(y.server, se) && Apply(y, e).server == S.Apply(y.server, se)
      case None => Apply(y, e).server == y.server
  {
    hide P.Shape, P.Apply, P.Enabled, S.Shape, S.Apply, S.Enabled;
  }

  lemma ServerStarts(states: seq<System>, events: seq<Event>)
    requires Run(states, events)
    ensures |states| > 0 && S.Run([states[0].server], [])
  {
    hide Shape, Enabled, Apply;
    O.RunStarts(states[0].server.clock);
  }

  lemma {:induction false} ServerRun(states: seq<System>, events: seq<Event>, n: nat)
    returns (own: seq<S.State>, steps: seq<S.Event>)
    requires Run(states, events) && n < |states|
    ensures S.Run(own, steps) && |own| == |steps| + 1 && own[|steps|] == states[n].server
  {
    hide *;
    if n == 0 {
      ServerStarts(states, events);
      own, steps := [states[0].server], [];
    } else {
      StepOf(states, events, n);
      var y, e := states[n - 1], events[n - 1];
      ServerMoves(y, e);
      own, steps := ServerRun(states, events, n - 1);
      if AtServer(y, e).Some? {
        var s';
        s', own, steps := O.Extended(own, steps, AtServer(y, e).value);
      }
    }
  }

  /** Inside the system too, an ID is stored exactly when one session has still to unregister it. */
  lemma IdsAreOwned(states: seq<System>, events: seq<Event>, n: nat, role: Role, id: Id)
    requires Run(states, events) && n < |states|
    ensures var s := states[n].server;
      && (S.Holder(s.tables, role, id).Some? <==> exists st: Stream :: O.Pending(s, st, role, id))
      && (forall st: Stream, st': Stream :: O.Pending(s, st, role, id) && O.Pending(s, st', role, id) ==> st == st')
      && (forall st: Stream :: O.Pending(s, st, role, id) ==> S.Holder(s.tables, role, id) == Some(st))
  {
    hide *;
    var own, steps := ServerRun(states, events, n);
    O.ExactlyOneOwner(own, steps, |steps|, role, id);
  }
}
