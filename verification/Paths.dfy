/** Sequences of steps, of any system: `step` says which state may follow which. */
module Paths {
  ghost predicate Path<S(!new), E(!new)>(step: (S, E, S) -> bool, states: seq<S>, events: seq<E>) {
    && |states| == |events| + 1
    && forall i :: 0 <= i < |events| ==> step(states[i], events[i], states[i + 1])
  }

  /** Some steps lead from one state to the other. */
  ghost predicate Leads<S(!new), E(!new)>(step: (S, E, S) -> bool, s: S, s': S) {
    exists states: seq<S>, events: seq<E> :: Path(step, states, events) && states[0] == s && states[|events|] == s'
  }

  lemma LeadsNowhere<S(!new), E(!new)>(step: (S, E, S) -> bool, s: S)
    ensures Leads(step, s, s)
  {
    var none: seq<E> := [];
    assert Path(step, [s], none);
  }

  lemma PathGrows<S(!new), E(!new)>(step: (S, E, S) -> bool, states: seq<S>, events: seq<E>, e: E, s': S)
    requires Path(step, states, events) && step(states[|events|], e, s')
    ensures Path(step, states + [s'], events + [e])
  {
    var states', events' := states + [s'], events + [e];
    assert forall i :: 0 <= i < |events| ==> events'[i] == events[i] && states'[i] == states[i];
  }

  lemma LeadsOn<S(!new), E(!new)>(step: (S, E, S) -> bool, s: S, s1: S, e: E, s2: S)
    requires Leads(step, s, s1) && step(s1, e, s2)
    ensures Leads(step, s, s2)
  {
    var states: seq<S>, events: seq<E> :| Path(step, states, events) && states[0] == s && states[|events|] == s1;
    PathGrows(step, states, events, e, s2);
    var states', events' := states + [s2], events + [e];
    assert Path(step, states', events') && states'[0] == s && states'[|events'|] == s2;
  }
}
