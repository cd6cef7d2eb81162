/** Building runs step by step, to show that something can happen. */
module RunBuilding {
  import opened RunMachine

  datatype Trace = Trace(states: seq<State>, events: seq<Event>)

  ghost predicate IsTrace(t: Trace) {
    IsRun(t.states, t.events)
  }

  function Final(t: Trace): State
    requires t.states != []
  {
    t.states[|t.states| - 1]
  }

  /** One more event, appended to a run that allows it. */
  lemma Then(t: Trace, e: Event) returns (u: Trace)
    requires IsTrace(t) && Enabled(Final(t), e)
    ensures IsTrace(u) && u.states == t.states + [Apply(Final(t), e)] && u.events == t.events + [e]
    ensures Final(u) == Apply(Final(t), e)
  {
    u := Trace(t.states + [Apply(Final(t), e)], t.events + [e]);
    forall i | 0 <= i < |u.events|
      ensures Enabled(u.states[i], u.events[i]) && u.states[i + 1] == Apply(u.states[i], u.events[i])
    {
      if i < |t.events| { assert u.events[i] == t.events[i]; }
    }
  }
}
