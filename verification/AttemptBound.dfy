/** How often a task can be started: the counters on rows and board against the recorded history, and
    what a delivery that records no recovery event does to the bound. */
module AttemptBound {
  import opened Board
  import opened RunMachine
  import opened BoardRefinement
  import opened RunSafety
  import opened RunTheorems

  /** How many attempts at this task were started. */
  function Starts(history: seq<Attempt>, id: Id): nat {
    if history == [] then 0
    else Starts(history[..|history| - 1], id) + if history[|history| - 1].id == id then 1 else 0
  }

  lemma StartsOneMore(history: seq<Attempt>, a: Attempt, id: Id)
    ensures Starts(history + [a], id) == Starts(history, id) + if a.id == id then 1 else 0
  {
    assert (history + [a])[..|history|] == history;
  }

  lemma {:induction false} NeverStarted(history: seq<Attempt>, id: Id)
    requires forall i :: 0 <= i < |history| ==> history[i].id != id
    ensures Starts(history, id) == 0
  {
    if history != [] { NeverStarted(history[..|history| - 1], id); }
  }

  // ---- the counters tell the truth ----

  /** A row counts the attempts started at its task; after the last synchronization it may also count
      attempts the budget refused. */
  ghost predicate RowsCount(s: State) {
    forall id :: id in s.db.rows ==>
      if Terminal(s.db.status) then Starts(s.history, id) <= s.db.rows[id].attempts
      else Starts(s.history, id) == s.db.rows[id].attempts
  }

  /** The board in memory counts the same, and refused attempts besides. */
  ghost predicate BoardCounts(s: State) {
    s.runner.Running? && s.runner.session.phase.InGraph() ==>
      forall id :: id in s.runner.session.tasks && id in s.db.rows ==>
        s.db.rows[id].attempts <= s.runner.session.tasks[id].attempts
        && (WithinBudget(s.db) ==> s.db.rows[id].attempts == s.runner.session.tasks[id].attempts)
  }

  lemma PlanningKeepsCounts(s: State, e: PlanEvent)
    requires Inv(s) && PlanEnabled(s, e) && RowsCount(s)
    ensures RowsCount(PlanApply(s, e))
  {
    assert forall id :: Starts([], id) == 0;
    match e
    case PlanReady(plan, ids, _) => PlannedRowsWellFormed(plan, ids);
    case EditThePlan(edits) =>
      forall id | id in EditedRows(s.db.rows, edits)
        ensures EditedRows(s.db.rows, edits)[id].attempts == 0
      {
        EditKeepsDependencies(s.db.rows, edits, id);
      }
    case _ =>
  }

  lemma StartKeepsCounts(s: State)
    requires Inv(s) && BoardEnabled(s, StartAttempt) && RowsCount(s) && BoardCounts(s)
    ensures RowsCount(StartWork(s)) && BoardCounts(StartWork(s))
  {
    var ses := s.runner.session;
    var a := Attempt(ses.current.value, ses.tasks[ses.current.value].sequence, s.db.spent);
    forall id
      ensures Starts(s.history + [a], id) == Starts(s.history, id) + if a.id == id then 1 else 0
    {
      StartsOneMore(s.history, a, id);
    }
  }

  lemma AgentKeepsCounts(s: State, e: BoardEvent)
    requires Inv(s) && BoardEnabled(s, e) && RowsCount(s) && BoardCounts(s)
    requires e.AgentAdds? || e.AgentSkips?
    ensures RowsCount(BoardApply(s, e)) && BoardCounts(BoardApply(s, e))
  {
    if e.AgentAdds? { NeverStarted(s.history, e.id); }
  }

  lemma SyncKeepsCounts(s: State)
    requires Inv(s) && BoardEnabled(s, Sync) && RowsCount(s) && BoardCounts(s)
    ensures RowsCount(SyncRun(s))
  {
    var ses := s.runner.session;
    if ses.failure.None? {
      forall id | id in ses.tasks
        ensures ses.tasks[id].status == s.db.rows[id].status
      {
        assert Agree(ses.tasks[id].status, s.db.rows[id].status, false, true);
      }
    }
  }

  lemma DeliveryKeepsCounts(s: State, e: BoardEvent)
    requires Inv(s) && BoardEnabled(s, e) && RowsCount(s) && (e.Deliver? || e.Load?)
    ensures RowsCount(BoardApply(s, e)) && BoardCounts(BoardApply(s, e))
  {
  }

  lemma GraphKeepsCounts(s: State, e: BoardEvent)
    requires Inv(s) && BoardEnabled(s, e) && RowsCount(s) && BoardCounts(s)
    requires e.Schedule? || e.FinalizeBoard?
    ensures RowsCount(BoardApply(s, e)) && BoardCounts(BoardApply(s, e))
  {
    var s' := BoardApply(s, e);
    assert s'.db == s.db && s'.history == s.history && s'.runner.session.tasks.Keys == s.runner.session.tasks.Keys;
  }

  lemma RefusalKeepsCounts(s: State)
    requires Inv(s) && BoardEnabled(s, RefuseBudget) && RowsCount(s) && BoardCounts(s)
    ensures RowsCount(BoardApply(s, RefuseBudget)) && BoardCounts(BoardApply(s, RefuseBudget))
  {
  }

  lemma FailureKeepsCounts(s: State, cost: nat)
    requires Inv(s) && BoardEnabled(s, AttemptFails(cost)) && RowsCount(s) && BoardCounts(s)
    ensures RowsCount(FailWork(s, cost)) && BoardCounts(FailWork(s, cost))
  {
  }

  lemma SuccessKeepsCounts(s: State, cost: nat)
    requires Inv(s) && BoardEnabled(s, AttemptSucceeds(cost)) && RowsCount(s) && BoardCounts(s)
    ensures RowsCount(FinishWork(s, cost)) && BoardCounts(FinishWork(s, cost))
  {
  }

  lemma WorkKeepsCounts(s: State, e: BoardEvent)
    requires Inv(s) && BoardEnabled(s, e) && RowsCount(s) && BoardCounts(s)
    ensures RowsCount(BoardApply(s, e)) && BoardCounts(BoardApply(s, e))
  {
    match e
    case StartAttempt => StartKeepsCounts(s);
    case AgentAdds(_, _, _, _) => AgentKeepsCounts(s, e);
    case AgentSkips(_) => AgentKeepsCounts(s, e);
    case Sync => SyncKeepsCounts(s);
    case AttemptFails(cost) => FailureKeepsCounts(s, cost);
    case AttemptSucceeds(cost) => SuccessKeepsCounts(s, cost);
    case Deliver(_) => DeliveryKeepsCounts(s, e);
    case Load => DeliveryKeepsCounts(s, e);
    case RefuseBudget => RefusalKeepsCounts(s);
    case _ => GraphKeepsCounts(s, e);
  }

  lemma FinishKeepsCounts(s: State, e: FinishEvent)
    requires FinishEnabled(s, e) && Inv(s) && RowsCount(s)
    ensures RowsCount(FinishApply(s, e)) && BoardCounts(FinishApply(s, e))
  {
    FinishFrame(s, e);
  }

  lemma StepKeepsCounts(s: State, e: Event)
    requires Inv(s) && Enabled(s, e) && RowsCount(s) && BoardCounts(s)
    ensures RowsCount(Apply(s, e)) && BoardCounts(Apply(s, e))
  {
    match e
    case Gate(p) => PlanningKeepsCounts(s, p);
    case Board(b) => WorkKeepsCounts(s, b);
    case Finish(f) => FinishKeepsCounts(s, f);
    case Outside(o) => OutsideFrame(s, o);
  }

  lemma {:induction false} RunKeepsCounts(states: seq<State>, events: seq<Event>, i: nat)
    requires IsRun(states, events) && i < |states|
    ensures RowsCount(states[i]) && BoardCounts(states[i])
  {
    if i > 0 {
      RunKeepsCounts(states, events, i - 1);
      RunKeepsInv(states, events, i - 1);
      StepKeepsCounts(states[i - 1], events[i - 1]);
    }
  }

  /** A task is started at most three times, plus once for every session after the first; and until the
      run ends its row's counter says exactly how often. */
  lemma StartsBounded(states: seq<State>, events: seq<Event>, i: nat, id: Id)
    requires IsRun(states, events) && i < |states|
    ensures Starts(states[i].history, id) <= 2 + states[i].sessions
    ensures id in states[i].db.rows && !Terminal(states[i].db.status) ==>
              states[i].db.rows[id].attempts == Starts(states[i].history, id)
  {
    RunKeepsInv(states, events, i);
    RunKeepsCounts(states, events, i);
    if id !in states[i].db.rows { NeverStarted(states[i].history, id); }
  }
}
