/** Why a session's graph is short: every executor call uses up one of the attempts its board still
    has left, and every task brings at most three. */
module StepCount {
  import opened Board
  import opened Routing
  import opened RunMachine
  import opened RunSafety

  /** Executor calls this task can still cause in the current session. */
  function CallsLeft(t: Task): nat {
    match t.status
    case Pending => if t.attempts >= MAX_RETRIES then 1 else MAX_RETRIES + 1 - t.attempts
    case InProgress => if t.attempts > MAX_RETRIES then 0 else MAX_RETRIES + 1 - t.attempts
    case _ => 0
  }

  ghost function TotalLeft(ts: Tasks, ids: set<Id>): nat
    requires ids <= ts.Keys
  {
    if id :| id in ids then CallsLeft(ts[id]) + TotalLeft(ts, ids - {id}) else 0
  }

  lemma TakeOut(ts: Tasks, ids: set<Id>, id: Id)
    requires ids <= ts.Keys && id in ids
    ensures TotalLeft(ts, ids) == CallsLeft(ts[id]) + TotalLeft(ts, ids - {id})
    decreases |ids|
  {
    var first :| first in ids && TotalLeft(ts, ids) == CallsLeft(ts[first]) + TotalLeft(ts, ids - {first});
    if first != id {
      TakeOut(ts, ids - {first}, id);
      TakeOut(ts, ids - {id}, first);
      assert ids - {first} - {id} == ids - {id} - {first};
    }
  }

  /** A board none of whose old tasks got more calls left, plus new tasks, has at most three more
      calls left per new task. */
  lemma {:induction false} LeftGrowsByThree(ts: Tasks, us: Tasks, ids: set<Id>, more: set<Id>)
    requires ids <= ts.Keys && more <= us.Keys && ids <= more
    requires forall id :: id in ids ==> CallsLeft(us[id]) <= CallsLeft(ts[id])
    ensures TotalLeft(us, more) <= TotalLeft(ts, ids) + 3 * (|more| - |ids|)
    decreases |more|
  {
    if id :| id in more {
      TakeOut(us, more, id);
      if id in ids {
        TakeOut(ts, ids, id);
        LeftGrowsByThree(ts, us, ids - {id}, more - {id});
      } else {
        LeftGrowsByThree(ts, us, ids, more - {id});
      }
    } else {
      assert forall id :: id !in more;
      assert ids == {};
    }
  }

  lemma OneTaskChanges(ts: Tasks, us: Tasks, id: Id)
    requires us.Keys == ts.Keys && id in ts && forall k :: k in ts && k != id ==> CallsLeft(us[k]) == CallsLeft(ts[k])
    ensures TotalLeft(us, us.Keys) == TotalLeft(ts, ts.Keys) - CallsLeft(ts[id]) + CallsLeft(us[id])
  {
    TakeOut(ts, ts.Keys, id);
    TakeOut(us, us.Keys, id);
    LeftGrowsByThree(ts, us, ts.Keys - {id}, us.Keys - {id});
    LeftGrowsByThree(us, ts, us.Keys - {id}, ts.Keys - {id});
  }

  /** Node steps are two per executor call, counted as they happen. */
  predicate StepsFit(ses: Session) {
    match ses.phase
    case Scheduling => ses.steps == 2 * ses.executions
    case Starting => ses.steps == 2 * ses.executions + 1
    case Working => ses.steps == 2 * ses.executions
    case Finalizing => ses.steps == 2 * ses.executions + 1
    case Ended => ses.steps == 2 * ses.executions + if ses.failure.None? then 1 else 2
    case _ => true
  }

  ghost predicate CallsFit(ses: Session) {
    ses.executions + TotalLeft(ses.tasks, ses.tasks.Keys) <= 3 * |ses.tasks.Keys|
  }

  ghost predicate StepInv(s: State) {
    s.runner.Running? && s.runner.session.phase.InGraph() ==>
      StepsFit(s.runner.session) && CallsFit(s.runner.session) && s.runner.session.steps <= RECURSION_LIMIT
  }

  lemma BeginUsesACall(ses: Session, id: Id)
    requires CallsFit(ses) && id in ses.tasks && ses.tasks[id].status == Pending
    ensures CallsFit(BeginExecution(ses, id))
  {
    var out := BeginExecution(ses, id);
    assert out.tasks.Keys == ses.tasks.Keys;
    OneTaskChanges(ses.tasks, out.tasks, id);
  }

  lemma GiveBackAddsNone(ses: Session, id: Id)
    requires CallsFit(ses) && id in ses.tasks && ses.tasks[id].status == InProgress
    ensures CallsFit(GiveBack(ses, id))
  {
    var out := GiveBack(ses, id);
    assert out.tasks.Keys == ses.tasks.Keys;
    OneTaskChanges(ses.tasks, out.tasks, id);
  }

  lemma MergeAddsThreePerTask(ses: Session, id: Id, rows: Tasks)
    requires CallsFit(ses) && id in ses.tasks && ses.tasks.Keys <= rows.Keys
    ensures CallsFit(Merge(ses, id, rows))
  {
    var out := Merge(ses, id, rows);
    LeftGrowsByThree(ses.tasks, out.tasks, ses.tasks.Keys, out.tasks.Keys);
  }

  lemma LoadFits(ses: Session)
    requires ses.executions == 0
    ensures CallsFit(ses)
  {
    LeftGrowsByThree(map[], ses.tasks, {}, ses.tasks.Keys);
  }

  lemma FinalizeFits(ses: Session, out: Session)
    requires CallsFit(ses) && out.tasks == Finalized(ses.tasks) && out.executions == ses.executions
    ensures CallsFit(out)
  {
    assert out.tasks.Keys == ses.tasks.Keys;
    LeftGrowsByThree(ses.tasks, out.tasks, ses.tasks.Keys, out.tasks.Keys);
  }

  lemma WorkKeepsCount(s: State, e: BoardEvent)
    requires BoardInv(s.db, s.runner) && StepInv(s) && BoardEnabled(s, e)
    ensures StepInv(BoardApply(s, e))
  {
    match e
    case Load => if s.db.status == Executing { LoadFits(LoadBoard(s).runner.session); }
    case StartAttempt => BeginUsesACall(s.runner.session, s.runner.session.current.value);
    case RefuseBudget =>
      var id := s.runner.session.current.value;
      BeginUsesACall(s.runner.session, id);
      GiveBackAddsNone(BeginExecution(s.runner.session, id), id);
    case AttemptFails(_) => GiveBackAddsNone(s.runner.session, s.runner.session.current.value);
    case AttemptSucceeds(cost) =>
      MergeAddsThreePerTask(s.runner.session, s.runner.session.current.value, FinishWork(s, cost).db.rows);
    case FinalizeBoard => FinalizeFits(s.runner.session, BoardApply(s, e).runner.session);
    case _ =>
  }

  lemma StepKeepsCount(s: State, e: Event)
    requires BoardInv(s.db, s.runner) && StepInv(s) && Enabled(s, e)
    ensures StepInv(Apply(s, e))
  {
    match e
    case Gate(_) =>
    case Board(b) => WorkKeepsCount(s, b);
    case Finish(f) => FinishFrame(s, f);
    case Outside(o) => OutsideFrame(s, o);
  }
}
