/** A task is not always started at most three times plus once per recovery event: a re-delivery that
    finds nothing in progress resumes the run and records no event. Exactly when that matters. */
module QuietDelivery {
  import opened Wrappers
  import opened Board
  import opened Routing
  import opened RunMachine
  import opened RunSafety
  import opened RunTheorems
  import opened AttemptBound
  import opened RunBuilding

  const ATTEMPTS := MAX_RETRIES + 1

  /** No task was started more than three times plus once per recovery event. */
  ghost predicate WithinRecoveries(s: State) {
    forall id :: Starts(s.history, id) <= ATTEMPTS + s.recoveries
  }

  /** A pending task already had all the attempts the recovery events so far allow. */
  ghost predicate Overdue(s: State) {
    exists id :: id in s.db.rows && s.db.rows[id].status == Pending && s.db.rows[id].attempts >= ATTEMPTS + s.recoveries
  }

  predicate IsDelivery(e: Event) {
    e.Board? && e.board.Deliver?
  }

  ghost predicate IsQuietDelivery(s: State, e: Event) {
    IsDelivery(e) && IsQuiet(s.db, e.board.quietWhenClean)
  }

  // ---- the bound, as long as no quiet delivery meets an overdue task -------------------------------

  predicate Early(t: Task, recoveries: nat) {
    t.status == Pending ==> t.attempts < ATTEMPTS + recoveries
  }

  /** Whatever the current or coming session may start has an attempt left, or the budget is gone. */
  ghost predicate NothingDue(s: State) {
    WithinBudget(s.db) ==>
      match s.runner
      case Dispatched => s.db.status == Executing ==> forall id :: id in s.db.rows ==> Early(s.db.rows[id], s.recoveries)
      case Running(ses) => ses.phase.InGraph() ==> forall id :: id in ses.tasks ==> Early(ses.tasks[id], s.recoveries)
      case _ => true
  }

  lemma StartWithinRecoveries(s: State)
    requires Inv(s) && RowsCount(s) && BoardCounts(s) && BoardEnabled(s, StartAttempt)
    requires WithinRecoveries(s) && NothingDue(s)
    ensures WithinRecoveries(StartWork(s)) && NothingDue(StartWork(s))
  {
    var ses := s.runner.session;
    var a := Attempt(ses.current.value, ses.tasks[ses.current.value].sequence, s.db.spent);
    assert Early(ses.tasks[a.id], s.recoveries);
    forall id
      ensures Starts(s.history + [a], id) <= ATTEMPTS + s.recoveries
    {
      StartsOneMore(s.history, a, id);
    }
  }

  lemma DeliveryNothingDue(s: State, e: BoardEvent)
    requires Inv(s) && RowsCount(s) && BoardEnabled(s, e) && e.Deliver? && WithinRecoveries(s)
    requires IsQuiet(s.db, e.quietWhenClean) ==> !(WithinBudget(s.db) && Overdue(s))
    ensures WithinRecoveries(BoardApply(s, e)) && NothingDue(BoardApply(s, e))
  {
    var s' := BoardApply(s, e);
    if s'.db.status == Executing && WithinBudget(s'.db) {
      forall id | id in s'.db.rows
        ensures Early(s'.db.rows[id], s'.recoveries)
      {
        assert Starts(s.history, id) <= ATTEMPTS + s.recoveries;
      }
    }
  }

  lemma MergeNothingDue(s: State, cost: nat)
    requires Inv(s) && BoardEnabled(s, AttemptSucceeds(cost)) && NothingDue(s)
    ensures NothingDue(FinishWork(s, cost))
  {
  }

  lemma WorkNothingDue(s: State, e: BoardEvent)
    requires Inv(s) && BoardEnabled(s, e) && NothingDue(s)
    requires !e.StartAttempt? && !e.Deliver? && !e.AttemptSucceeds?
    ensures NothingDue(BoardApply(s, e))
  {
  }

  lemma PlanningNothingDue(s: State, e: PlanEvent)
    requires Inv(s) && PlanEnabled(s, e) && NothingDue(s)
    ensures NothingDue(PlanApply(s, e))
    ensures PlanApply(s, e).history == s.history && s.recoveries <= PlanApply(s, e).recoveries
  {
  }

  lemma FinishNothingDue(s: State, e: FinishEvent)
    requires Inv(s) && FinishEnabled(s, e) && NothingDue(s)
    ensures NothingDue(FinishApply(s, e))
  {
    FinishFrame(s, e);
  }

  lemma WorkWithinRecoveries(s: State, e: BoardEvent)
    requires Inv(s) && RowsCount(s) && BoardCounts(s) && BoardEnabled(s, e)
    requires WithinRecoveries(s) && NothingDue(s)
    requires e.Deliver? && IsQuiet(s.db, e.quietWhenClean) ==> !(WithinBudget(s.db) && Overdue(s))
    ensures WithinRecoveries(BoardApply(s, e)) && NothingDue(BoardApply(s, e))
  {
    match e
    case StartAttempt => StartWithinRecoveries(s);
    case Deliver(_) => DeliveryNothingDue(s, e);
    case AttemptSucceeds(cost) => MergeNothingDue(s, cost);
    case _ => WorkNothingDue(s, e);
  }

  lemma StepWithinRecoveries(s: State, e: Event)
    requires Inv(s) && RowsCount(s) && BoardCounts(s) && Enabled(s, e)
    requires WithinRecoveries(s) && NothingDue(s)
    requires IsQuietDelivery(s, e) ==> !(WithinBudget(s.db) && Overdue(s))
    ensures WithinRecoveries(Apply(s, e)) && NothingDue(Apply(s, e))
  {
    match e
    case Gate(p) => PlanningNothingDue(s, p);
    case Board(b) => WorkWithinRecoveries(s, b);
    case Finish(f) => FinishFrame(s, f); FinishNothingDue(s, f);
    case Outside(o) => OutsideFrame(s, o);
  }

  /** In a run in which no quiet delivery meets an overdue task with budget left, no task is started
      more than three times plus once per recovery event. */
  lemma {:induction false} RecoveriesBoundStarts(states: seq<State>, events: seq<Event>, i: nat)
    requires IsRun(states, events) && i < |states|
    requires forall k :: 0 <= k < i && IsQuietDelivery(states[k], events[k]) ==>
               !(WithinBudget(states[k].db) && Overdue(states[k]))
    ensures WithinRecoveries(states[i]) && NothingDue(states[i])
  {
    if i > 0 {
      RecoveriesBoundStarts(states, events, i - 1);
      RunKeepsInv(states, events, i - 1);
      RunKeepsCounts(states, events, i - 1);
      StepWithinRecoveries(states[i - 1], events[i - 1]);
    } else {
      assert forall id :: Starts([], id) == 0;
    }
  }

  // ---- and what happens when one does --------------------------------------------------------------

  function PendingIds(ts: Tasks): set<Id> {
    set id | id in ts && ts[id].status == Pending
  }

  /** The scheduler is about to choose, nothing has failed, and memory equals the rows. */
  ghost predicate InStep(s: State) {
    && InPhase(s, Scheduling) && s.runner.session.failure.None?
    && s.runner.session.tasks.Keys == s.db.rows.Keys
    && forall id :: id in s.db.rows ==> s.runner.session.tasks[id] == s.db.rows[id]
  }

  /** u continues t without a delivery. */
  ghost predicate Continues(t: Trace, u: Trace) {
    && t.states <= u.states && t.events <= u.events
    && forall k :: |t.events| <= k < |u.events| ==> !IsDelivery(u.events[k])
  }

  lemma ContinuesFurther(t: Trace, u: Trace, w: Trace, e: Event)
    requires Continues(t, u) && w.states != [] && w.states == u.states + [Final(w)]
    requires w.events == u.events + [e] && !IsDelivery(e)
    ensures Continues(t, w)
  {
  }

  lemma ContinuesBoth(t: Trace, u: Trace, w: Trace)
    requires Continues(t, u) && Continues(u, w)
    ensures Continues(t, w)
  {
  }

  /** The board after the task was started and finished. */
  function WithDone(ts: Tasks, id: Id): Tasks
    requires id in ts
  {
    ts[id := ts[id].(status := Done, attempts := ts[id].attempts + 1)]
  }

  /** Finishing the task when memory and rows agree: the merge has nothing to add and no skip to report. */
  lemma FinishInStep(s: State, ts: Tasks, id: Id)
    requires HasCurrent(s) && s.runner.session.current == Some(id) && s.runner.session.failure.None?
    requires id in ts && Keyed(ts) && s.runner.session.known == ts.Keys
    requires s.runner.session.tasks == Started(ts, id) && s.db.rows == Started(ts, id)
    ensures InStep(FinishWork(s, 0)) && FinishWork(s, 0).db.rows == WithDone(ts, id)
  {
    var s' := FinishWork(s, 0);
    assert s'.db.rows == WithDone(ts, id);
    forall k | k in s'.db.rows
      ensures s'.runner.session.tasks[k] == s'.db.rows[k]
    {
      assert s'.db.rows[k].id == k;
    }
  }

  /** The state after scheduling this task. */
  function Chosen(s: State, id: Id): State
    requires s.runner.Running?
  {
    s.(runner := Running(s.runner.session.(steps := s.runner.session.steps + 1, current := Some(id), phase := Starting)))
  }

  lemma ScheduleLowest(s: State, id: Id)
    requires InStep(s) && CanTakeNode(s) && Route(s.runner.session.tasks) == Run(id)
    ensures Enabled(s, Board(Schedule)) && Apply(s, Board(Schedule)) == Chosen(s, id)
  {
  }

  lemma StartLowest(s: State, id: Id)
    requires Inv(s) && InStep(s) && s.runner.session.steps < RECURSION_LIMIT - 1 && id in s.db.rows && WithinBudget(s.db)
    ensures var c := Chosen(s, id);
            Enabled(c, Board(StartAttempt)) && Apply(c, Board(StartAttempt)) == StartWork(c)
    ensures var b := StartWork(Chosen(s, id));
            && InPhase(b, Working) && HasCurrent(b) && b.runner.session.current == Some(id) && b.runner.session.failure.None?
            && b.runner.session.known == s.db.rows.Keys && b.runner.session.steps == s.runner.session.steps + 2
            && b.runner.session.tasks == Started(s.db.rows, id) && b.db == s.db.(rows := Started(s.db.rows, id))
            && b == s.(db := b.db, runner := b.runner, history := s.history + [Attempt(id, s.db.rows[id].sequence, s.db.spent)])
  {
    SameRows(s.runner.session.tasks, s.db.rows);
    var b := StartWork(Chosen(s, id));
    SameRows(b.db.rows, Started(s.db.rows, id));
  }

  lemma FinishKeepsRest(b: State)
    requires HasCurrent(b)
    ensures var s' := FinishWork(b, 0);
            && s' == b.(db := b.db.(rows := s'.db.rows), runner := s'.runner, ledger := s'.ledger) && s'.runner.Running?
            && s'.runner.session.steps == b.runner.session.steps
  {
  }

  predicate OneTaskLater(s: State, s': State, id: Id)
    requires s.runner.Running? && id in s.db.rows
  {
    && s'.runner.Running? && s'.runner.session.steps == s.runner.session.steps + 2
    && s' == s.(db := s.db.(rows := WithDone(s.db.rows, id)), runner := s'.runner, history := s'.history, ledger := s'.ledger)
  }

  lemma FinishLowest(s: State, id: Id)
    requires Inv(s) && InStep(s) && s.runner.session.steps < RECURSION_LIMIT - 1 && id in s.db.rows && WithinBudget(s.db)
    ensures var b := StartWork(Chosen(s, id));
            && HasCurrent(b) && Enabled(b, Board(AttemptSucceeds(0)))
            && InStep(FinishWork(b, 0)) && OneTaskLater(s, FinishWork(b, 0), id) && WithinBudget(FinishWork(b, 0).db)
  {
    StartLowest(s, id);
    var b := StartWork(Chosen(s, id));
    FinishInStep(b, s.db.rows, id);
    FinishKeepsRest(b);
  }

  lemma FinalInv(t: Trace)
    requires IsTrace(t)
    ensures Inv(Final(t)) && RowsCount(Final(t)) && BoardCounts(Final(t))
  {
    RunKeepsInv(t.states, t.events, |t.states| - 1);
    RunKeepsCounts(t.states, t.events, |t.states| - 1);
  }

  /** The task whose turn it is is scheduled and started. */
  lemma StartTurn(t: Trace, id: Id) returns (u: Trace)
    requires IsTrace(t) && InStep(Final(t)) && WithinBudget(Final(t).db)
    requires Final(t).runner.session.steps < RECURSION_LIMIT - 1
    requires id in Final(t).db.rows && Route(Final(t).runner.session.tasks) == Run(id)
    ensures IsTrace(u) && Continues(t, u) && Final(u) == StartWork(Chosen(Final(t), id))
  {
    FinalInv(t);
    ScheduleLowest(Final(t), id);
    StartLowest(Final(t), id);
    var scheduled := Then(t, Board(Schedule));
    ContinuesFurther(t, t, scheduled, Board(Schedule));
    u := Then(scheduled, Board(StartAttempt));
    ContinuesFurther(t, scheduled, u, Board(StartAttempt));
  }

  /** The lowest pending task is scheduled, started and done; everything else stays as it was. */
  lemma DoLowest(t: Trace, id: Id) returns (u: Trace)
    requires IsTrace(t) && InStep(Final(t)) && WithinBudget(Final(t).db)
    requires Final(t).runner.session.steps < RECURSION_LIMIT - 1
    requires id in Final(t).db.rows && Route(Final(t).runner.session.tasks) == Run(id)
    ensures IsTrace(u) && Continues(t, u) && InStep(Final(u)) && WithinBudget(Final(u).db)
    ensures OneTaskLater(Final(t), Final(u), id)
  {
    FinalInv(t);
    var started := StartTurn(t, id);
    FinishLowest(Final(t), id);
    u := Then(started, Board(AttemptSucceeds(0)));
    ContinuesFurther(t, started, u, Board(AttemptSucceeds(0)));
  }

  /** While some task is pending, a pending task is next. */
  lemma WhoseTurn(t: Trace, id: Id) returns (n: Id)
    requires IsTrace(t) && InStep(Final(t)) && id in PendingIds(Final(t).db.rows)
    ensures n in PendingIds(Final(t).db.rows) && Route(Final(t).runner.session.tasks) == Run(n)
  {
    var s := Final(t);
    FinalInv(t);
    NoDeadlock(t.states, t.events, |t.states| - 1);
    SameRows(s.runner.session.tasks, s.db.rows);
    assert s.runner.session.tasks[id].status == Pending;
    n := Route(s.runner.session.tasks).id;
  }

  /** However many tasks come before it, a pending task's turn can come, and its attempt can start. */
  lemma {:induction false} TurnCanCome(t: Trace, id: Id) returns (u: Trace)
    requires IsTrace(t) && InStep(Final(t)) && WithinBudget(Final(t).db)
    requires id in PendingIds(Final(t).db.rows)
    requires Final(t).runner.session.steps + 2 * |PendingIds(Final(t).db.rows)| <= 2 * MAX_BOARD_TASKS
    ensures IsTrace(u) && Continues(t, u) && Final(u).recoveries == Final(t).recoveries
    ensures Starts(Final(u).history, id) == Final(t).db.rows[id].attempts + 1
    decreases |PendingIds(Final(t).db.rows)|
  {
    var s := Final(t);
    var n := WhoseTurn(t, id);
    if n == id {
      u := StartIt(t, id);
    } else {
      var w := DoLowest(t, n);
      assert PendingIds(Final(w).db.rows) == PendingIds(s.db.rows) - {n};
      u := TurnCanCome(w, id);
      ContinuesBoth(t, w, u);
    }
  }

  lemma StartIt(t: Trace, id: Id) returns (u: Trace)
    requires IsTrace(t) && InStep(Final(t)) && WithinBudget(Final(t).db)
    requires Final(t).runner.session.steps < RECURSION_LIMIT - 1
    requires id in Final(t).db.rows && Route(Final(t).runner.session.tasks) == Run(id)
    ensures IsTrace(u) && Continues(t, u) && Final(u).recoveries == Final(t).recoveries
    ensures Starts(Final(u).history, id) == Final(t).db.rows[id].attempts + 1
  {
    var s := Final(t);
    FinalInv(t);
    u := StartTurn(t, id);
    StartLowest(s, id);
    StartsOneMore(s.history, Attempt(id, s.db.rows[id].sequence, s.db.spent), id);
  }

  /** After this quiet delivery, and without a further one, every task stays within its attempts. */
  ghost predicate Harmless(t: Trace) {
    forall d, u :: QuietlyDelivered(t, d) && IsTrace(u) && Continues(d, u) ==> WithinRecoveries(Final(u))
  }

  ghost predicate QuietlyDelivered(t: Trace, d: Trace) {
    && IsTrace(t) && IsTrace(d)
    && Enabled(Final(t), Board(Deliver(true))) && IsQuiet(Final(t).db, true)
    && d.events == t.events + [Board(Deliver(true))] && d.states == t.states + [Apply(Final(t), Board(Deliver(true)))]
  }

  lemma {:induction false} StaysWithin(d: Trace, u: Trace, k: nat)
    requires IsTrace(d) && IsTrace(u) && Continues(d, u) && |d.events| <= k <= |u.events|
    requires WithinRecoveries(Final(d)) && NothingDue(Final(d))
    ensures WithinRecoveries(u.states[k]) && NothingDue(u.states[k])
  {
    if k == |d.events| {
      assert u.states[k] == Final(d);
    } else {
      StaysWithin(d, u, k - 1);
      StaysOneMore(u, k - 1);
    }
  }

  lemma StaysOneMore(u: Trace, k: nat)
    requires IsTrace(u) && k < |u.events| && !IsDelivery(u.events[k])
    requires WithinRecoveries(u.states[k]) && NothingDue(u.states[k])
    ensures WithinRecoveries(u.states[k + 1]) && NothingDue(u.states[k + 1])
  {
    RunKeepsInv(u.states, u.events, k);
    RunKeepsCounts(u.states, u.events, k);
    StepWithinRecoveries(u.states[k], u.events[k]);
  }

  lemma CalmDeliveryIsHarmless(t: Trace)
    requires IsTrace(t) && WithinRecoveries(Final(t)) && !(WithinBudget(Final(t).db) && Overdue(Final(t)))
    ensures Harmless(t)
  {
    forall d, u | QuietlyDelivered(t, d) && IsTrace(u) && Continues(d, u)
      ensures WithinRecoveries(Final(u))
    {
      CalmDelivery(t, d);
      StaysWithin(d, u, |u.events|);
    }
  }

  lemma CalmDelivery(t: Trace, d: Trace)
    requires QuietlyDelivered(t, d) && WithinRecoveries(Final(t)) && !(WithinBudget(Final(t).db) && Overdue(Final(t)))
    ensures WithinRecoveries(Final(d)) && NothingDue(Final(d))
  {
    FinalInv(t);
    DeliveryNothingDue(Final(t), Deliver(true));
  }

  /** The delivered run loads its board and starts the overdue task once more. */
  lemma OverdueTaskIsStarted(t: Trace, id: Id) returns (d: Trace, u: Trace)
    requires IsTrace(t) && Enabled(Final(t), Board(Deliver(true))) && IsQuiet(Final(t).db, true)
    requires WithinBudget(Final(t).db) && id in PendingIds(Final(t).db.rows)
    ensures QuietlyDelivered(t, d) && IsTrace(u) && Continues(d, u) && Final(u).recoveries == Final(t).recoveries
    ensures Starts(Final(u).history, id) == Final(t).db.rows[id].attempts + 1
  {
    RunKeepsInv(t.states, t.events, |t.states| - 1);
    d := Then(t, Board(Deliver(true)));
    var loaded := Then(d, Board(Load));
    ContinuesFurther(d, d, loaded, Board(Load));
    SubsetSize(PendingIds(Final(t).db.rows), Final(t).db.rows.Keys);
    u := TurnCanCome(loaded, id);
    ContinuesBoth(d, loaded, u);
  }

  /** Exactly when a quiet delivery can do harm: budget is left and a pending task already had all the
      attempts the recovery events so far allow. Both can be read from the rows before the delivery. */
  lemma QuietDeliveryIsHarmlessIff(t: Trace)
    requires IsTrace(t) && Enabled(Final(t), Board(Deliver(true))) && IsQuiet(Final(t).db, true)
    requires WithinRecoveries(Final(t))
    ensures Harmless(t) <==> !(WithinBudget(Final(t).db) && Overdue(Final(t)))
  {
    if WithinBudget(Final(t).db) && Overdue(Final(t)) {
      var id :| id in Final(t).db.rows && Final(t).db.rows[id].status == Pending
                && Final(t).db.rows[id].attempts >= ATTEMPTS + Final(t).recoveries;
      var d, u := OverdueTaskIsStarted(t, id);
      assert Starts(Final(u).history, id) > ATTEMPTS + Final(u).recoveries;
    } else {
      CalmDeliveryIsHarmless(t);
    }
  }
}
