/** What every reachable state of a run satisfies, and the theorems about whole runs that follow. */
module RunSafety {
  import opened Wrappers
  import opened Board
  import opened RunMachine
  import opened BoardRefinement

  // ---- the invariant ----

  ghost predicate Untouched(rows: Tasks) {
    forall id :: id in rows ==> rows[id].status == Pending && rows[id].attempts == 0
  }

  predicate BeforeDecision(status: RunStatus) {
    status == Queued || status == Planning || status == AwaitingApproval
  }

  ghost predicate RunnerFits(db: Db, runner: Runner) {
    match runner
    case Idle => true
    case Planner => db.status == Planning
    case Dispatched => (db.status == Executing && NoneRunning(db.rows)) || Terminal(db.status)
    case Running(ses) =>
      if ses.phase.InGraph() then db.status == Executing && Refines(db.rows, ses)
      else db.status == Reviewing && NoneRunning(db.rows)
  }

  ghost predicate BoardInv(db: Db, runner: Runner) {
    && WellFormed(db.rows)
    && RunnerFits(db, runner)
    && (db.status == Queued ==> runner == Idle)
    && (db.status == Queued || db.status == Planning ==> db.rows == map[])
    && (db.status == AwaitingApproval ==> runner == Idle && Untouched(db.rows))
    && (Resumable(db.status) ==> NoneFailed(db.rows))
  }

  function Last(history: seq<Attempt>): nat {
    if history == [] then 0 else history[|history| - 1].sequence
  }

  ghost predicate HistoryInv(s: State) {
    && (BeforeDecision(s.db.status) || s.db.status == Cancelled ==> s.history == [])
    && (forall i :: 0 <= i < |s.history| ==>
          s.history[i].id in s.db.rows && s.db.rows[s.history[i].id].sequence == s.history[i].sequence)
    && (forall i, j :: 0 <= i <= j < |s.history| ==> s.history[i].sequence <= s.history[j].sequence)
    && (forall id :: id in s.db.rows && Unfinished(s.db.rows[id].status) ==> Last(s.history) <= s.db.rows[id].sequence)
    && (s.db.cap.Some? ==> forall i :: 0 <= i < |s.history| ==> s.history[i].spentBefore < s.db.cap.value)
  }

  function Sum(costs: seq<nat>): nat {
    if costs == [] then 0 else Sum(costs[..|costs| - 1]) + costs[|costs| - 1]
  }

  ghost predicate SpendInv(s: State) {
    s.db.spent == s.otherSpend + Sum(s.ledger)
  }

  /** What the phase reached says about the evidence gathered in this session. */
  predicate EvidenceFits(phase: Phase, shown: Evidence) {
    match phase
    case Sandbox(_) => shown.approved
    case Fixing(_) => shown.approved
    case SecretScan => shown.approved && shown.sandbox
    case DependencyScan => shown.approved && shown.sandbox && shown.secrets
    case Publishing => shown == ALL_SHOWN
    case Finishing => shown == ALL_SHOWN
    case _ => true
  }

  /** The engine pushes only while reviewing, with everything shown in that session; the user pushes
      only on a finished run, and on a completed one everything had been shown. */
  predicate PushFits(p: Publication, sessions: nat) {
    match p.pusher
    case Engine => p.status == Reviewing && p.evidence == ALL_SHOWN && !p.edited && 1 <= p.session <= sessions
    case User =>
      p.session <= sessions && (p.status == Completed || p.status == RunFailed)
      && (p.status == Completed ==> p.evidence == ALL_SHOWN)
  }

  ghost predicate PublicationsInv(s: State) {
    && (forall i :: 0 <= i < |s.publications| ==> PushFits(s.publications[i], s.sessions))
    && (s.runner.Running? ==> EvidenceFits(s.runner.session.phase, s.shown))
    && (s.db.status == Completed ==> s.shown == ALL_SHOWN)
    && (s.edited ==> s.db.status == Completed || s.db.status == RunFailed)
  }

  ghost predicate EnginePushed(s: State) {
    exists i :: 0 <= i < |s.publications| && s.publications[i].pusher == Engine
  }

  ghost predicate LifeInv(s: State) {
    && |s.decisions| <= 1
    && (BeforeDecision(s.db.status) ==> s.decisions == [])
    && (Resumable(s.db.status) || s.db.status == Completed ==> s.decisions == [true])
    && (s.db.status == Cancelled ==> s.decisions == [false])
    && (s.sessions > 0 || s.history != [] || EnginePushed(s) ==> s.decisions == [true])
    && (s.runner.Running? ==> s.sessions > 0)
  }

  /** Once the graph ended well, what is unsettled was added in this session's revision round. */
  ghost predicate LateInv(s: State) {
    && (s.runner.Running? && s.runner.session.phase.InGraph() ==> s.late == {})
    && ((s.runner.Running? && !s.runner.session.phase.InGraph()) || s.db.status == Completed ==>
          s.late <= s.db.rows.Keys
          && forall id :: id in s.db.rows ==>
               (!Settled(s.db.rows[id].status) <==> id in s.late && s.db.rows[id].status != Skipped))
  }

  /** Attempts are counted across restarts: each session adds at most one beyond the retries. */
  ghost predicate AttemptsInv(s: State) {
    && (forall id :: id in s.db.rows ==> s.db.rows[id].attempts <= MAX_RETRIES + s.sessions)
    && (s.runner.Running? && s.runner.session.phase.InGraph() ==>
          forall id :: id in s.runner.session.tasks ==>
            s.runner.session.tasks[id].attempts
            <= MAX_RETRIES + s.sessions - (if s.runner.session.tasks[id].status == Pending then 1 else 0))
  }

  ghost predicate Inv(s: State) {
    BoardInv(s.db, s.runner) && HistoryInv(s) && SpendInv(s) && LifeInv(s) && PublicationsInv(s) && LateInv(s) && AttemptsInv(s)
  }

  // ---- the board part, event by event ----

  lemma PlanningKeepsBoard(s: State, e: PlanEvent)
    requires BoardInv(s.db, s.runner) && PlanEnabled(s, e)
    ensures BoardInv(PlanApply(s, e).db, PlanApply(s, e).runner)
  {
    match e
    case PlanReady(plan, ids, cost) =>
      PlannedRowsWellFormed(plan, ids);
    case EditThePlan(edits) =>
      EditKeepsBoard(s.db.rows, edits);
      forall id | id in EditedRows(s.db.rows, edits)
        ensures EditedRows(s.db.rows, edits)[id].status == Pending && EditedRows(s.db.rows, edits)[id].attempts == 0
      {
        EditKeepsDependencies(s.db.rows, edits, id);
      }
    case DecideRun(approved, _) =>
      if !approved { SameShapeKeepsShape(s.db.rows, SkipAll(s.db.rows)); }
    case _ =>
  }

  lemma ResetKeepsBoard(db: Db, quiet: bool)
    requires WellFormed(db.rows) && ResetExecution(db, quiet).Some? && NoneFailed(db.rows)
    ensures var out := ResetExecution(db, quiet).value;
            WellFormed(out.rows) && NoneFailed(out.rows) && NoneRunning(out.rows) && out.status == Executing
            && SameShape(db.rows, out.rows)
  {
    var out := ResetExecution(db, quiet).value;
    SameShapeKeepsShape(db.rows, out.rows);
  }

  lemma AgentKeepsBoard(s: State, e: BoardEvent)
    requires BoardInv(s.db, s.runner) && BoardEnabled(s, e)
    requires e.AgentAdds? || e.AgentSkips?
    ensures BoardInv(BoardApply(s, e).db, BoardApply(s, e).runner)
  {
    var after := BoardApply(s, e).db.rows;
    match e
    case AgentAdds(id, role, title, description) =>
      AddKeepsBoard(s.db, id, role, title, description);
      if InPhase(s, Working) { AgentAddKeeps(s.db.rows, s.runner.session, after[id], after); }
    case AgentSkips(id) =>
      SkipKeepsBoardIff(s.db, id);
      if InPhase(s, Working) { AgentSkipKeeps(s.db.rows, s.runner.session, id, after); }
  }

  lemma StartKeepsBoard(s: State)
    requires BoardInv(s.db, s.runner) && BoardEnabled(s, StartAttempt)
    ensures BoardInv(StartWork(s).db, StartWork(s).runner)
  {
    var ses := s.runner.session;
    var id := ses.current.value;
    var after := StartWork(s).db.rows;
    StartKeeps(s.db.rows, ses, after, BeginExecution(ses, id));
    MovedKeepsBoard(s.db.rows, after, id);
  }

  lemma RefusalKeepsBoard(s: State)
    requires BoardInv(s.db, s.runner) && BoardEnabled(s, RefuseBudget)
    ensures BoardInv(BoardApply(s, RefuseBudget).db, BoardApply(s, RefuseBudget).runner)
  {
    var ses := s.runner.session;
    var id := ses.current.value;
    GivingBackKeeps(s.db.rows, ses, s.db.rows, GiveBack(BeginExecution(ses, id), id), id);
  }

  lemma FailureMovesOne(rows: Tasks, ses: Session, after: Tasks, id: Id)
    requires Refines(rows, ses) && ses.phase == Working && ses.current == Some(id) && id in ses.tasks && id in rows
    requires after == rows[id := rows[id].(status := Pending)]
    ensures OneTaskMoved(rows, ses.tasks, after, GiveBack(ses, id).tasks, id)
  {
  }

  lemma FailureKeepsBoard(s: State, cost: nat)
    requires BoardInv(s.db, s.runner) && BoardEnabled(s, AttemptFails(cost))
    ensures BoardInv(FailWork(s, cost).db, FailWork(s, cost).runner)
  {
    var ses := s.runner.session;
    var id := ses.current.value;
    var after := FailWork(s, cost).db.rows;
    assert after == s.db.rows[id := s.db.rows[id].(status := Pending)];
    FailureMovesOne(s.db.rows, ses, after, id);
    GivingBackKeeps(s.db.rows, ses, after, GiveBack(ses, id), id);
    MovedKeepsBoard(s.db.rows, after, id);
  }

  lemma ExecutingFits(db: Db, ses: Session)
    requires WellFormed(db.rows) && NoneFailed(db.rows) && db.status == Executing
    requires ses.phase.InGraph() && Refines(db.rows, ses)
    ensures BoardInv(db, Running(ses))
  {
  }

  lemma DoneFailsNothing(rows: Tasks, id: Id)
    requires NoneFailed(rows) && id in rows
    ensures NoneFailed(rows[id := rows[id].(status := Done)])
  {
  }

  lemma SuccessKeepsBoard(s: State, cost: nat)
    requires BoardInv(s.db, s.runner) && BoardEnabled(s, AttemptSucceeds(cost))
    ensures BoardInv(FinishWork(s, cost).db, FinishWork(s, cost).runner)
  {
    var ses := s.runner.session;
    var id := ses.current.value;
    var after := s.db.rows[id := s.db.rows[id].(status := Done)];
    DoneFailsNothing(s.db.rows, id);
    SuccessKeeps(s.db.rows, ses, after, id);
    MovedKeepsBoard(s.db.rows, after, id);
    ExecutingFits(FinishWork(s, cost).db, Merge(ses, id, after));
  }

  lemma SyncKeepsRun(s: State)
    requires BoardInv(s.db, s.runner) && BoardEnabled(s, Sync)
    ensures BoardInv(SyncRun(s).db, SyncRun(s).runner)
  {
    SyncKeepsBoard(s.db.rows, s.runner.session, SyncRun(s).db.rows);
  }

  lemma GraphKeepsBoard(s: State, e: BoardEvent)
    requires BoardInv(s.db, s.runner) && BoardEnabled(s, e)
    requires e.Load? || e.Schedule? || e.FinalizeBoard? || e.Deliver?
    ensures BoardInv(BoardApply(s, e).db, BoardApply(s, e).runner)
  {
    match e
    case Load => if s.db.status == Executing { LoadedRefines(s.db.rows, LoadBoard(s).runner.session); }
    case Schedule => ScheduleKeeps(s.db.rows, s.runner.session);
    case FinalizeBoard => FinalizeKeeps(s.db.rows, s.runner.session, BoardApply(s, e).runner.session);
    case Deliver(quiet) => if Resumable(s.db.status) { ResetKeepsBoard(s.db, quiet); }
  }

  /** The rows, the history and the decision are as they were. */
  predicate KeepsFields(s: State, s': State) {
    && s'.db.rows == s.db.rows && s'.db.cap == s.db.cap && s'.history == s.history && s'.sessions == s.sessions
    && s'.recoveries == s.recoveries && s'.late == s.late && s'.decisions == s.decisions
  }

  /** The session either goes on in a phase after the graph, or it is over. */
  predicate GoesOn(s: State, s': State) {
    if s'.runner.Running?
    then s.runner.Running? && !s.runner.session.phase.InGraph() && !s'.runner.session.phase.InGraph()
         && s'.db.status == s.db.status
    else s'.runner == Idle
         && (s'.db.status == s.db.status || (s.runner.Running? && Terminal(s'.db.status) && s'.db.status != Cancelled))
  }

  lemma ReviewKeepsFields(s: State, e: FinishEvent)
    requires FinishEnabled(s, e) && (e.Verdict? || e.Revised? || e.RevisionDone?)
    ensures KeepsFields(s, FinishApply(s, e))
  {
  }

  lemma GateKeepsFields(s: State, e: FinishEvent)
    requires FinishEnabled(s, e) && !e.Verdict? && !e.Revised? && !e.RevisionDone?
    ensures KeepsFields(s, FinishApply(s, e))
  {
  }

  lemma FinishGoesOn(s: State, e: FinishEvent)
    requires FinishEnabled(s, e)
    ensures GoesOn(s, FinishApply(s, e))
  {
  }

  /** What review, gates and publishing do. */
  lemma FinishFrame(s: State, e: FinishEvent)
    requires FinishEnabled(s, e)
    ensures KeepsFields(s, FinishApply(s, e)) && GoesOn(s, FinishApply(s, e))
  {
    if e.Verdict? || e.Revised? || e.RevisionDone? { ReviewKeepsFields(s, e); } else { GateKeepsFields(s, e); }
    FinishGoesOn(s, e);
  }

  lemma FinishKeepsBoard(s: State, e: FinishEvent)
    requires BoardInv(s.db, s.runner) && FinishEnabled(s, e)
    ensures BoardInv(FinishApply(s, e).db, FinishApply(s, e).runner)
  {
    FinishFrame(s, e);
  }

  lemma WorkKeepsBoard(s: State, e: BoardEvent)
    requires BoardInv(s.db, s.runner) && BoardEnabled(s, e)
    ensures BoardInv(BoardApply(s, e).db, BoardApply(s, e).runner)
  {
    match e
    case AgentAdds(_, _, _, _) => AgentKeepsBoard(s, e);
    case AgentSkips(_) => AgentKeepsBoard(s, e);
    case StartAttempt => StartKeepsBoard(s);
    case RefuseBudget => RefusalKeepsBoard(s);
    case AttemptFails(cost) => FailureKeepsBoard(s, cost);
    case AttemptSucceeds(cost) => SuccessKeepsBoard(s, cost);
    case Sync => SyncKeepsRun(s);
    case _ => GraphKeepsBoard(s, e);
  }

  /** Commits, pushes and failing deliveries leave the rows alone; they can only fail the run. */
  lemma OutsideFrame(s: State, e: OutsideEvent)
    requires OutsideEnabled(s, e)
    ensures var s' := OutsideApply(s, e);
            && s'.db.rows == s.db.rows && s'.db.cap == s.db.cap && s'.db.spent == s.db.spent
            && s'.history == s.history && s'.sessions == s.sessions && s'.recoveries == s.recoveries
            && s'.decisions == s.decisions && s'.late == s.late && s'.shown == s.shown && s'.fixed == s.fixed
            && (if e.JobBreaks? then s'.runner == Idle && s'.db.status == RunFailed
                else s'.runner == s.runner && s'.db == s.db)
  {
  }

  lemma StepKeepsBoard(s: State, e: Event)
    requires BoardInv(s.db, s.runner) && Enabled(s, e)
    ensures BoardInv(Apply(s, e).db, Apply(s, e).runner)
  {
    match e
    case Gate(p) => PlanningKeepsBoard(s, p);
    case Board(b) => WorkKeepsBoard(s, b);
    case Finish(f) => FinishKeepsBoard(s, f);
    case Outside(o) => OutsideFrame(s, o);
  }

  // ---- the history part ----

  /** Everything unfinished lies at or above the task whose turn it is. */
  lemma TurnIsFrontier(rows: Tasks, ses: Session)
    requires Refines(rows, ses) && ses.phase == Starting
    ensures forall id :: id in rows && Unfinished(rows[id].status) && NoneBlocked(rows) ==>
              rows[ses.current.value].sequence <= rows[id].sequence
  {
    forall id | id in ses.tasks && Unfinished(rows[id].status)
      ensures ses.tasks[id].status == Pending || rows[id].status == Blocked
    {
      assert Agree(ses.tasks[id].status, rows[id].status, false, false);
    }
  }

  lemma StartKeepsHistory(s: State)
    requires BoardInv(s.db, s.runner) && HistoryInv(s) && BoardEnabled(s, StartAttempt)
    ensures HistoryInv(StartWork(s))
  {
    TurnIsFrontier(s.db.rows, s.runner.session);
    var c := s.runner.session.current.value;
    assert Unfinished(s.db.rows[c].status);
    OneMoreInOrder(s.history, Attempt(c, s.runner.session.tasks[c].sequence, s.db.spent));
  }

  lemma OneMoreInOrder(history: seq<Attempt>, a: Attempt)
    requires forall i, j :: 0 <= i <= j < |history| ==> history[i].sequence <= history[j].sequence
    requires Last(history) <= a.sequence
    ensures var h := history + [a];
            Last(h) == a.sequence && forall i, j :: 0 <= i <= j < |h| ==> h[i].sequence <= h[j].sequence
  {
    forall i | 0 <= i < |history|
      ensures history[i].sequence <= a.sequence
    {
      assert history[i].sequence <= history[|history| - 1].sequence;
    }
  }

  /** Events that start no attempt keep the history as long as no row is lost or reopened below it. */
  lemma UnstartedKeepsHistory(s: State, s': State)
    requires HistoryInv(s) && s'.history == s.history && s'.db.cap == s.db.cap
    requires s.history != [] ==> !BeforeDecision(s'.db.status) && s'.db.status != Cancelled
    requires s.history != [] ==>
               forall id :: id in s.db.rows ==> id in s'.db.rows && s'.db.rows[id].sequence == s.db.rows[id].sequence
    requires forall id :: id in s'.db.rows && Unfinished(s'.db.rows[id].status) ==>
               (id in s.db.rows && Unfinished(s.db.rows[id].status) && s.db.rows[id].sequence == s'.db.rows[id].sequence)
               || Last(s.history) <= s'.db.rows[id].sequence
    ensures HistoryInv(s')
  {
  }

  lemma NewTaskIsAbove(s: State, id: Id, role: string, title: string, description: Option<string>)
    requires HistoryInv(s) && id !in s.db.rows
    ensures Last(s.history) <= AddTask(s.db, id, role, title, description).rows[id].sequence
  {
  }

  lemma PlanningKeepsHistory(s: State, e: PlanEvent)
    requires BoardInv(s.db, s.runner) && HistoryInv(s) && PlanEnabled(s, e)
    ensures HistoryInv(PlanApply(s, e))
  {
    assert s.history == [];
  }

  lemma GraphKeepsHistory(s: State, e: BoardEvent)
    requires BoardInv(s.db, s.runner) && HistoryInv(s) && BoardEnabled(s, e)
    requires e.Load? || e.Schedule? || e.FinalizeBoard? || e.Deliver? || e.RefuseBudget?
    ensures HistoryInv(BoardApply(s, e))
  {
    UnstartedKeepsHistory(s, BoardApply(s, e));
  }

  lemma AttemptKeepsHistory(s: State, e: BoardEvent)
    requires BoardInv(s.db, s.runner) && HistoryInv(s) && BoardEnabled(s, e)
    requires e.AttemptFails? || e.AttemptSucceeds?
    ensures HistoryInv(BoardApply(s, e))
  {
    UnstartedKeepsHistory(s, BoardApply(s, e));
  }

  lemma AddKeepsHistory(s: State, e: BoardEvent)
    requires BoardInv(s.db, s.runner) && HistoryInv(s) && BoardEnabled(s, e) && e.AgentAdds?
    ensures HistoryInv(BoardApply(s, e))
  {
    NewTaskIsAbove(s, e.id, e.role, e.title, e.description);
    UnstartedKeepsHistory(s, BoardApply(s, e));
  }

  lemma SkipKeepsHistory(s: State, id: Id)
    requires BoardInv(s.db, s.runner) && HistoryInv(s) && BoardEnabled(s, AgentSkips(id))
    ensures HistoryInv(BoardApply(s, AgentSkips(id)))
  {
    UnstartedKeepsHistory(s, BoardApply(s, AgentSkips(id)));
  }

  lemma SyncReopensNothing(rows: Tasks, ses: Session, after: Tasks)
    requires Refines(rows, ses) && ses.phase == Ended && after == Synced(rows, ses.tasks)
    ensures after.Keys == rows.Keys
    ensures forall id :: id in rows ==> after[id].sequence == rows[id].sequence
    ensures forall id :: id in rows && Unfinished(after[id].status) ==> Unfinished(rows[id].status)
  {
  }

  lemma SyncKeepsHistory(s: State)
    requires BoardInv(s.db, s.runner) && HistoryInv(s) && BoardEnabled(s, Sync)
    ensures HistoryInv(SyncRun(s))
  {
    var after := Synced(s.db.rows, s.runner.session.tasks);
    SyncReopensNothing(s.db.rows, s.runner.session, after);
    SyncFields(s);
    UnstartedKeepsHistory(s, SyncRun(s));
  }

  lemma SyncFields(s: State)
    requires s.runner.Running?
    ensures SyncRun(s).history == s.history && SyncRun(s).db.cap == s.db.cap
    ensures SyncRun(s).db.rows == Synced(s.db.rows, s.runner.session.tasks)
    ensures SyncRun(s).db.status == RunFailed || SyncRun(s).db.status == Reviewing
  {
  }

  lemma WorkKeepsHistory(s: State, e: BoardEvent)
    requires BoardInv(s.db, s.runner) && HistoryInv(s) && BoardEnabled(s, e)
    ensures HistoryInv(BoardApply(s, e))
  {
    match e
    case AttemptFails(_) => AttemptKeepsHistory(s, e);
    case AttemptSucceeds(_) => AttemptKeepsHistory(s, e);
    case AgentAdds(_, _, _, _) => AddKeepsHistory(s, e);
    case AgentSkips(id) => SkipKeepsHistory(s, id);
    case StartAttempt => StartKeepsHistory(s);
    case Sync => SyncKeepsHistory(s);
    case _ => GraphKeepsHistory(s, e);
  }

  lemma FinishKeepsHistory(s: State, e: FinishEvent)
    requires BoardInv(s.db, s.runner) && HistoryInv(s) && FinishEnabled(s, e)
    ensures HistoryInv(FinishApply(s, e))
  {
    FinishFrame(s, e);
    UnstartedKeepsHistory(s, FinishApply(s, e));
  }

  lemma StepKeepsHistory(s: State, e: Event)
    requires BoardInv(s.db, s.runner) && HistoryInv(s) && Enabled(s, e)
    ensures HistoryInv(Apply(s, e))
  {
    match e
    case Gate(p) => PlanningKeepsHistory(s, p);
    case Board(b) => WorkKeepsHistory(s, b);
    case Finish(f) => FinishKeepsHistory(s, f);
    case Outside(o) => OutsideFrame(s, o); UnstartedKeepsHistory(s, OutsideApply(s, o));
  }

  // ---- money, lifecycle and attempts ----

  lemma PlanningKeepsSpend(s: State, e: PlanEvent)
    requires SpendInv(s) && PlanEnabled(s, e)
    ensures SpendInv(PlanApply(s, e))
  {
  }

  lemma WorkKeepsSpend(s: State, e: BoardEvent)
    requires SpendInv(s) && BoardEnabled(s, e)
    ensures SpendInv(BoardApply(s, e))
  {
    if e.AttemptFails? || e.AttemptSucceeds? {
      assert (s.ledger + [e.cost])[..|s.ledger|] == s.ledger;
    }
  }

  lemma FinishKeepsSpend(s: State, e: FinishEvent)
    requires SpendInv(s) && FinishEnabled(s, e)
    ensures SpendInv(FinishApply(s, e))
  {
  }

  lemma StepKeepsSpend(s: State, e: Event)
    requires SpendInv(s) && Enabled(s, e)
    ensures SpendInv(Apply(s, e))
  {
    match e
    case Gate(p) => PlanningKeepsSpend(s, p);
    case Board(b) => WorkKeepsSpend(s, b);
    case Finish(f) => FinishKeepsSpend(s, f);
    case Outside(o) =>
  }

  lemma PlanningKeepsLife(s: State, e: PlanEvent)
    requires BoardInv(s.db, s.runner) && LifeInv(s) && PlanEnabled(s, e)
    ensures LifeInv(PlanApply(s, e))
  {
  }

  lemma WorkKeepsDecisions(s: State, e: BoardEvent)
    requires BoardInv(s.db, s.runner) && BoardEnabled(s, e)
    ensures var s' := BoardApply(s, e);
            && s'.decisions == s.decisions && s'.publications == s.publications && s.sessions <= s'.sessions
            && (s'.db.status == s.db.status || (Resumable(s.db.status) && (Resumable(s'.db.status) || s'.db.status == RunFailed)))
  {
  }

  lemma WorkIsDecided(s: State, e: BoardEvent)
    requires BoardInv(s.db, s.runner) && LifeInv(s) && BoardEnabled(s, e)
    ensures var s' := BoardApply(s, e);
            && (s'.sessions > s.sessions || s'.history != s.history ==> Resumable(s.db.status))
            && (s'.runner.Running? ==> s'.sessions > 0)
  {
  }

  lemma WorkKeepsLife(s: State, e: BoardEvent)
    requires BoardInv(s.db, s.runner) && LifeInv(s) && BoardEnabled(s, e)
    ensures LifeInv(BoardApply(s, e))
  {
    WorkKeepsDecisions(s, e);
    WorkIsDecided(s, e);
  }

  lemma FinishKeepsLife(s: State, e: FinishEvent)
    requires BoardInv(s.db, s.runner) && LifeInv(s) && FinishEnabled(s, e)
    ensures LifeInv(FinishApply(s, e))
  {
    FinishFrame(s, e);
    FinishPushes(s, e);
  }

  lemma FinishPushes(s: State, e: FinishEvent)
    requires FinishEnabled(s, e)
    ensures FinishApply(s, e).publications == s.publications || s.runner.Running?
  {
  }

  lemma OutsideKeepsLife(s: State, e: OutsideEvent)
    requires LifeInv(s) && PublicationsInv(s) && OutsideEnabled(s, e)
    ensures LifeInv(OutsideApply(s, e)) && PublicationsInv(OutsideApply(s, e))
  {
    OutsideFrame(s, e);
    var s' := OutsideApply(s, e);
    if EnginePushed(s') {
      var i :| 0 <= i < |s'.publications| && s'.publications[i].pusher == Engine;
      assert s.publications[i].pusher == Engine;
    }
  }

  // ---- pushes ----

  lemma UnpushedKeepsPublications(s: State, s': State)
    requires PublicationsInv(s) && s'.publications == s.publications && s.sessions <= s'.sessions
    requires s'.runner.Running? ==> EvidenceFits(s'.runner.session.phase, s'.shown)
    requires s'.db.status == Completed ==> s'.shown == ALL_SHOWN
    requires s'.edited ==> s'.db.status == Completed || s'.db.status == RunFailed
    ensures PublicationsInv(s')
  {
  }

  lemma PlanningKeepsPublications(s: State, e: PlanEvent)
    requires BoardInv(s.db, s.runner) && PublicationsInv(s) && PlanEnabled(s, e)
    ensures PublicationsInv(PlanApply(s, e))
  {
    UnpushedKeepsPublications(s, PlanApply(s, e));
  }

  lemma WorkKeepsPublications(s: State, e: BoardEvent)
    requires BoardInv(s.db, s.runner) && PublicationsInv(s) && BoardEnabled(s, e)
    ensures PublicationsInv(BoardApply(s, e))
  {
    UnpushedKeepsPublications(s, BoardApply(s, e));
  }

  lemma FinishKeepsPublications(s: State, e: FinishEvent)
    requires BoardInv(s.db, s.runner) && LifeInv(s) && PublicationsInv(s) && FinishEnabled(s, e)
    ensures PublicationsInv(FinishApply(s, e))
  {
    match e
    case Push(pushed) => if pushed { PushKeepsPublications(s); } else { EndKeepsPublications(s, e); }
    case Verdict(_, _) => ReviewKeepsPublications(s, e);
    case Revised(_) => ReviewKeepsPublications(s, e);
    case RevisionDone => ReviewKeepsPublications(s, e);
    case Complete => EndKeepsPublications(s, e);
    case ExecutionBreaks => EndKeepsPublications(s, e);
    case Crash => EndKeepsPublications(s, e);
    case _ => GateKeepsPublications(s, e);
  }

  lemma ReviewKeepsPublications(s: State, e: FinishEvent)
    requires BoardInv(s.db, s.runner) && PublicationsInv(s) && FinishEnabled(s, e)
    requires e.Verdict? || e.Revised? || e.RevisionDone?
    ensures PublicationsInv(FinishApply(s, e))
  {
    UnpushedKeepsPublications(s, FinishApply(s, e));
  }

  lemma GateKeepsPublications(s: State, e: FinishEvent)
    requires BoardInv(s.db, s.runner) && PublicationsInv(s) && FinishEnabled(s, e)
    requires e.SandboxRan? || e.QaFixed? || e.SecretsScanned? || e.DependenciesScanned?
    ensures PublicationsInv(FinishApply(s, e))
  {
    UnpushedKeepsPublications(s, FinishApply(s, e));
  }

  lemma EndKeepsPublications(s: State, e: FinishEvent)
    requires BoardInv(s.db, s.runner) && PublicationsInv(s) && FinishEnabled(s, e)
    requires e == Push(false) || e.Complete? || e.ExecutionBreaks? || e.Crash?
    ensures PublicationsInv(FinishApply(s, e))
  {
    UnpushedKeepsPublications(s, FinishApply(s, e));
  }

  lemma PushKeepsPublications(s: State)
    requires BoardInv(s.db, s.runner) && LifeInv(s) && PublicationsInv(s) && FinishEnabled(s, Push(true))
    ensures PublicationsInv(Publish(s, true))
  {
    assert PushFits(Publish(s, true).publications[|s.publications|], s.sessions);
  }

  // ---- rows added in the revision round ----

  lemma SyncKeepsLate(s: State)
    requires BoardInv(s.db, s.runner) && LateInv(s) && BoardEnabled(s, Sync)
    ensures LateInv(SyncRun(s))
  {
    SyncedBoard(s.db.rows, s.runner.session, SyncRun(s).db.rows);
  }

  lemma PlanningKeepsLate(s: State, e: PlanEvent)
    requires BoardInv(s.db, s.runner) && LateInv(s) && PlanEnabled(s, e)
    ensures LateInv(PlanApply(s, e))
  {
  }

  lemma FinishKeepsLate(s: State, e: FinishEvent)
    requires BoardInv(s.db, s.runner) && LateInv(s) && FinishEnabled(s, e)
    ensures LateInv(FinishApply(s, e))
  {
    FinishFrame(s, e);
  }

  lemma AgentKeepsLate(s: State, e: BoardEvent)
    requires BoardInv(s.db, s.runner) && LateInv(s) && BoardEnabled(s, e)
    requires e.AgentAdds? || e.AgentSkips?
    ensures LateInv(BoardApply(s, e))
  {
  }

  lemma WorkKeepsLate(s: State, e: BoardEvent)
    requires BoardInv(s.db, s.runner) && LateInv(s) && BoardEnabled(s, e)
    ensures LateInv(BoardApply(s, e))
  {
    match e
    case Sync => SyncKeepsLate(s);
    case AgentAdds(_, _, _, _) => AgentKeepsLate(s, e);
    case AgentSkips(_) => AgentKeepsLate(s, e);
    case _ =>
  }

  lemma StepKeepsLate(s: State, e: Event)
    requires BoardInv(s.db, s.runner) && LateInv(s) && Enabled(s, e)
    ensures LateInv(Apply(s, e))
  {
    match e
    case Gate(p) => PlanningKeepsLate(s, p);
    case Board(b) => WorkKeepsLate(s, b);
    case Finish(f) => FinishKeepsLate(s, f);
    case Outside(o) => OutsideFrame(s, o);
  }

  lemma PlanningKeepsAttempts(s: State, e: PlanEvent)
    requires BoardInv(s.db, s.runner) && AttemptsInv(s) && PlanEnabled(s, e)
    ensures AttemptsInv(PlanApply(s, e))
  {
    match e
    case PlanReady(plan, ids, _) => PlannedRowsWellFormed(plan, ids);
    case EditThePlan(edits) =>
      forall id | id in EditedRows(s.db.rows, edits)
        ensures EditedRows(s.db.rows, edits)[id].attempts == 0
      {
        EditKeepsDependencies(s.db.rows, edits, id);
      }
    case _ =>
  }

  lemma AttemptKeepsAttempts(s: State, e: BoardEvent)
    requires BoardInv(s.db, s.runner) && AttemptsInv(s) && LifeInv(s) && BoardEnabled(s, e)
    requires e.StartAttempt? || e.RefuseBudget? || e.AttemptFails?
    ensures AttemptsInv(BoardApply(s, e))
  {
  }

  lemma SuccessKeepsAttempts(s: State, cost: nat)
    requires BoardInv(s.db, s.runner) && AttemptsInv(s) && LifeInv(s) && BoardEnabled(s, AttemptSucceeds(cost))
    ensures AttemptsInv(FinishWork(s, cost))
  {
  }

  lemma AgentKeepsAttempts(s: State, e: BoardEvent)
    requires BoardInv(s.db, s.runner) && AttemptsInv(s) && LifeInv(s) && BoardEnabled(s, e)
    requires e.AgentAdds? || e.AgentSkips?
    ensures AttemptsInv(BoardApply(s, e))
  {
  }

  lemma SyncKeepsAttempts(s: State)
    requires AttemptsInv(s) && BoardEnabled(s, Sync)
    ensures AttemptsInv(SyncRun(s))
  {
  }

  lemma GraphKeepsAttempts(s: State, e: BoardEvent)
    requires BoardInv(s.db, s.runner) && AttemptsInv(s) && LifeInv(s) && BoardEnabled(s, e)
    requires e.Load? || e.Schedule? || e.FinalizeBoard? || e.Deliver?
    ensures AttemptsInv(BoardApply(s, e))
  {
  }

  lemma WorkKeepsAttempts(s: State, e: BoardEvent)
    requires BoardInv(s.db, s.runner) && AttemptsInv(s) && LifeInv(s) && BoardEnabled(s, e)
    ensures AttemptsInv(BoardApply(s, e))
  {
    match e
    case StartAttempt => AttemptKeepsAttempts(s, e);
    case RefuseBudget => AttemptKeepsAttempts(s, e);
    case AttemptFails(_) => AttemptKeepsAttempts(s, e);
    case AttemptSucceeds(cost) => SuccessKeepsAttempts(s, cost);
    case AgentAdds(_, _, _, _) => AgentKeepsAttempts(s, e);
    case AgentSkips(_) => AgentKeepsAttempts(s, e);
    case Sync => SyncKeepsAttempts(s);
    case _ => GraphKeepsAttempts(s, e);
  }

  lemma StepKeepsInv(s: State, e: Event)
    requires Inv(s) && Enabled(s, e)
    ensures Inv(Apply(s, e))
  {
    StepKeepsBoard(s, e);
    StepKeepsHistory(s, e);
    StepKeepsSpend(s, e);
    StepKeepsLate(s, e);
    match e
    case Gate(p) => PlanningKeepsLife(s, p); PlanningKeepsPublications(s, p); PlanningKeepsAttempts(s, p);
    case Board(b) => WorkKeepsLife(s, b); WorkKeepsPublications(s, b); WorkKeepsAttempts(s, b);
    case Finish(f) => FinishKeepsLife(s, f); FinishKeepsPublications(s, f); FinishFrame(s, f);
    case Outside(o) => OutsideKeepsLife(s, o); OutsideFrame(s, o);
  }
}
