/** What one goroutine of a client or a proxy does when nothing else runs, as steps of
    `Process`. */
module Steps {
  import opened Bytes
  import opened Wire
  import C = Connections
  import P = Process
  import Paths

  ghost predicate Step(s: P.State, e: P.Event, s': P.State) {
    P.Shape(s) && P.Enabled(s, e) && s' == P.Apply(s, e)
  }

  /** Some steps lead from one state to the other. */
  ghost predicate Leads(s: P.State, s': P.State) {
    Paths.Leads(Step, s, s')
  }

  lemma LeadsNowhere(s: P.State)
    ensures Leads(s, s)
  {
    Paths.LeadsNowhere(Step, s);
  }

  lemma OneMore(before: P.State, s: P.State, e: P.Event) returns (s': P.State)
    requires Leads(before, s) && P.Shape(s) && P.Enabled(s, e)
    ensures s' == P.Apply(s, e) && P.Shape(s') && Leads(before, s')
  {
    hide P.Apply, P.Shape, P.Enabled;
    s' := P.Apply(s, e);
    P.StepKeepsShape(s, e);
    assert Step(s, e, s');
    Paths.LeadsOn(Step, before, s, e, s');
  }

  /** Its line after one more read. */
  function Longer(line: P.Line, c: Packet, pending: Option<Packet>): P.Line {
    P.Line(line.chunks + [c], P.Overwritten(line.buf, c.data), pending, line.written)
  }

  lemma Elapses(before: P.State, s: P.State, elapsed: nat) returns (s': P.State)
    requires Leads(before, s) && P.Shape(s)
    ensures Leads(before, s') && P.Shape(s') && s' == s.(clock := s.clock + elapsed)
  {
    s' := OneMore(before, s, P.Tick(s.clock + elapsed));
    hide P.Shape;
  }

  lemma ReadStep(before: P.State, s: P.State, k: nat, bytes: seq<Byte>) returns (s': P.State)
    requires P.Shape(s) && s.In(k, P.Reading) && s.table.open[k] && Leads(before, s) && 0 < |bytes| <= P.BUFFER
    ensures Leads(before, s') && P.Shape(s') && k < |s.lines|
    ensures var c := P.Chunk(s, k, bytes);
      s' == s.(workers := P.Moved(s, k, P.Touching), lines := s.lines[k := Longer(s.lines[k], c, Some(c))])
  {
    s' := OneMore(before, s, P.Read(k, bytes));
    hide P.Shape;
  }

  /** The activity is updated in the goroutine's own entry (proxy), or in the one its ID leads
      to (client). */
  function Active(s: P.State, k: nat): C.Table
    requires s.table.Valid() && k < |s.workers|
    requires s.role.ProxyRole? ==> s.workers[k].entry.Some? && s.workers[k].entry.value < |s.table.entries|
  {
    if s.role.ClientRole? then C.TouchId(s.table, s.workers[k].connId, s.clock)
    else C.Touch(s.table, s.workers[k].entry.value, s.clock)
  }

  lemma TouchStep(before: P.State, s: P.State, k: nat) returns (s': P.State)
    requires P.Shape(s) && s.In(k, P.Touching) && Leads(before, s)
    ensures Leads(before, s') && P.Shape(s') && s.table.Valid()
    ensures s.workers[k].entry.Some? && s.workers[k].entry.value < |s.table.entries|
    ensures s' == s.(workers := P.Moved(s, k, P.Holding), table := Active(s, k))
  {
    assert P.WorkerFits(s, k);
    s' := OneMore(before, s, P.Touch(k));
    hide P.Shape;
  }

  /** A read and the update of the activity, some time later. */
  lemma ReadSteps(before: P.State, s: P.State, k: nat, bytes: seq<Byte>, elapsed: nat) returns (s': P.State)
    requires P.Shape(s) && s.In(k, P.Reading) && s.table.open[k] && Leads(before, s) && 0 < |bytes| <= P.BUFFER
    ensures Leads(before, s') && P.Shape(s') && s'.In(k, P.Holding) && s.table.Valid() && k < |s.lines|
    ensures s.workers[k].entry.Some? && s.workers[k].entry.value < |s.table.entries|
    ensures var c, later := P.Chunk(s, k, bytes), s.(clock := s.clock + elapsed);
      s' == later.(workers := P.Moved(s, k, P.Holding), table := Active(later, k),
                   lines := s.lines[k := Longer(s.lines[k], c, Some(c))])
  {
    s' := Elapses(before, s, elapsed);
    s' := ReadStep(before, s', k, bytes);
    s' := TouchStep(before, s', k);
    hide P.Shape, Leads;
    assert s'.workers == P.Moved(s, k, P.Holding);
  }

  /** What is held is queued, or dropped by a client whose queue is full. */
  lemma QueueStep(before: P.State, s: P.State, k: nat) returns (s': P.State)
    requires P.Shape(s) && s.In(k, P.Holding) && Leads(before, s) && (s.role.ProxyRole? ==> |s.queue| < P.SLOTS)
    ensures Leads(before, s') && P.Shape(s') && k < |s.lines| && s.lines[k].pending.Some?
    ensures s' == s.(
      workers := P.Moved(s, k, P.Reading), lines := s.lines[k := s.lines[k].(pending := None)],
      queue := if |s.queue| < P.SLOTS then s.queue + [s.lines[k].pending.value] else s.queue)
  {
    assert P.WorkerFits(s, k);
    if |s.queue| < P.SLOTS {
      s' := OneMore(before, s, P.Enqueue(k));
    } else {
      s' := OneMore(before, s, P.Drop(k));
    }
    hide P.Shape;
  }

  /** One turn of a loop: a read that is not empty, and its queueing. */
  lemma TurnSteps(before: P.State, s: P.State, k: nat, bytes: seq<Byte>, elapsed: nat) returns (s': P.State)
    requires P.Shape(s) && s.In(k, P.Reading) && s.table.open[k] && Leads(before, s) && 0 < |bytes| <= P.BUFFER
    requires s.role.ProxyRole? ==> |s.queue| < P.SLOTS
    ensures Leads(before, s') && P.Shape(s') && s.table.Valid() && k < |s.lines|
    ensures s.workers[k].entry.Some? && s.workers[k].entry.value < |s.table.entries|
    ensures var c, later := P.Chunk(s, k, bytes), s.(clock := s.clock + elapsed);
      s' == later.(table := Active(later, k), lines := s.lines[k := Longer(s.lines[k], c, None)],
                   queue := if |s.queue| < P.SLOTS then s.queue + [c] else s.queue)
  {
    s' := ReadSteps(before, s, k, bytes, elapsed);
    s' := QueueStep(before, s', k);
    hide P.Shape, Leads;
    assert s'.workers == s.workers;
    assert s'.lines == s.lines[k := Longer(s.lines[k], P.Chunk(s, k, bytes), None)];
  }

  /** A turn that ends at a full channel: the proxy is stopped, and the packet given up. */
  lemma AbandonSteps(before: P.State, s: P.State, k: nat, bytes: seq<Byte>, elapsed: nat) returns (s': P.State)
    requires P.Shape(s) && s.In(k, P.Reading) && s.table.open[k] && Leads(before, s) && 0 < |bytes| <= P.BUFFER
    requires s.role.ProxyRole?
    ensures Leads(before, s') && P.Shape(s') && s.table.Valid() && k < |s.lines|
    ensures s.workers[k].entry.Some? && s.workers[k].entry.value < |s.table.entries|
    ensures var c, later := P.Chunk(s, k, bytes), s.(clock := s.clock + elapsed);
      s' == later.(workers := P.Moved(s, k, P.Leaving), table := Active(later, k),
                   lines := s.lines[k := Longer(s.lines[k], c, None)], stopping := true)
  {
    s' := ReadSteps(before, s, k, bytes, elapsed);
    s' := StopStep(before, s');
    s' := AbandonStep(before, s', k);
    hide P.Shape, Leads;
    assert s'.workers == P.Moved(s, k, P.Leaving);
    assert s'.lines == s.lines[k := Longer(s.lines[k], P.Chunk(s, k, bytes), None)];
  }

  lemma StopStep(before: P.State, s: P.State) returns (s': P.State)
    requires P.Shape(s) && Leads(before, s)
    ensures Leads(before, s') && P.Shape(s') && s' == s.(stopping := true)
  {
    s' := OneMore(before, s, P.Stop);
    hide P.Shape;
  }

  lemma AbandonStep(before: P.State, s: P.State, k: nat) returns (s': P.State)
    requires P.Shape(s) && s.In(k, P.Holding) && Leads(before, s) && s.role.ProxyRole? && s.stopping
    ensures Leads(before, s') && P.Shape(s') && k < |s.lines|
    ensures s' == s.(workers := P.Moved(s, k, P.Leaving), lines := s.lines[k := s.lines[k].(pending := None)])
  {
    s' := OneMore(before, s, P.Abandon(k));
    hide P.Shape;
  }

  lemma LeaveStep(before: P.State, s: P.State, k: nat) returns (s': P.State)
    requires P.Shape(s) && s.In(k, P.Reading) && Leads(before, s)
    ensures Leads(before, s') && P.Shape(s') && s' == s.(workers := P.Moved(s, k, P.Leaving))
  {
    s' := OneMore(before, s, P.Leave(k));
    hide P.Shape;
  }

  lemma RemovalStep(before: P.State, s: P.State, k: nat) returns (s': P.State)
    requires P.Shape(s) && s.In(k, P.Leaving) && Leads(before, s)
    ensures Leads(before, s') && P.Shape(s') && s.table.Valid()
    ensures s' == s.(workers := P.Moved(s, k, P.Removed), table := C.Remove(s.table, s.workers[k].connId))
  {
    s' := OneMore(before, s, P.Removal(k));
    hide P.Shape;
  }

  lemma FinishStep(before: P.State, s: P.State, k: nat) returns (s': P.State)
    requires P.Shape(s) && s.In(k, P.Removed) && Leads(before, s)
    ensures Leads(before, s') && P.Shape(s') && k < |s.table.open|
    ensures s' == s.(
      workers := P.Moved(s, k, P.Done), table := if s.role.ClientRole? then C.Closed(s.table, k) else s.table)
  {
    s' := OneMore(before, s, P.Finish(k));
    hide P.Shape;
  }

  /** The end of a goroutine that has left its loop. */
  lemma EndSteps(before: P.State, s: P.State, k: nat) returns (s': P.State)
    requires P.Shape(s) && s.In(k, P.Leaving) && Leads(before, s)
    ensures Leads(before, s') && P.Shape(s') && s'.In(k, P.Done) && s'.queue == s.queue && s.table.Valid()
    ensures k < |s.table.open|
    ensures var t := C.Remove(s.table, s.workers[k].connId);
      s'.table == if s.role.ClientRole? then C.Closed(t, k) else t
  {
    s' := RemovalStep(before, s, k);
    s' := FinishStep(before, s', k);
    hide P.Shape, Leads;
  }

  lemma TrackStep(before: P.State, s: P.State, k: nat, id: Id, flow: Flow) returns (s': P.State)
    requires P.Shape(s) && s.role.ClientRole? && s.In(k, P.Starting) && Leads(before, s)
    ensures Leads(before, s') && P.Shape(s') && s'.In(k, P.Reading) && s'.workers[k].connId == id
    ensures s'.workers[k].flow == Some(flow)
    ensures s'.lines == s.lines && s'.queue == s.queue && s'.clock == s.clock && s'.role == s.role
    ensures s'.stream == s.stream
    ensures s'.table == C.Insert(s.table, id, k, s.clock)
  {
    s' := OneMore(before, s, P.Track(k, id, flow));
    hide P.Shape;
  }

  lemma RefuseSteps(before: P.State, s: P.State, k: nat) returns (s': P.State)
    requires P.Shape(s) && s.role.ClientRole? && s.In(k, P.Starting) && Leads(before, s)
    ensures Leads(before, s') && P.Shape(s') && s'.In(k, P.Done) && s'.queue == s.queue && k < |s.table.open|
    ensures s'.table == C.Closed(s.table, k)
  {
    s' := OneMore(before, s, P.Refuse(k));
    s' := FinishStep(before, s', k);
    hide P.Shape;
  }
}
