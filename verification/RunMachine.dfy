/** One run from request to finish, as a transition system over its durable rows (db), the process
    working on it (runner) and history variables that only the theorems read. A crash may come
    between any two transactions; it loses the runner and keeps the rows. */
module RunMachine {
  import opened Wrappers
  import opened Board
  import opened Routing

  const RECURSION_LIMIT := 100

  /** Where one call of the execution entry point stands. Scheduling to Ended is the supervisor
      graph; the rest is review, gates and publishing. */
  datatype Phase =
    | Scheduling
    | Starting
    | Working
    | Finalizing
    | Ended
    | FirstReview
    | Revising
    | SecondReview
    | Sandbox(attempt: nat)
    | Fixing(attempt: nat)
    | SecretScan
    | DependencyScan
    | Publishing
    | Finishing
  {
    predicate InGraph() {
      Scheduling? || Starting? || Working? || Finalizing? || Ended?
    }
  }

  /** What the last session has established about the changes it would publish. */
  datatype Evidence = Evidence(approved: bool, sandbox: bool, secrets: bool, dependencies: bool)

  const NOTHING_SHOWN := Evidence(false, false, false, false)
  const ALL_SHOWN := Evidence(true, true, true, true)

  /** One session: the supervisor's board and current task, the ids its executor has seen, node
      steps taken and executor calls made. */
  datatype Session = Session(
    tasks: Tasks,
    current: Option<Id>,
    known: set<Id>,
    failure: Option<Failure>,
    phase: Phase,
    steps: nat,
    executions: nat)

  datatype Runner = Idle | Planner | Dispatched | Running(session: Session)

  datatype Attempt = Attempt(id: Id, sequence: nat, spentBefore: nat)

  datatype Pusher = Engine | User

  /** A push of the run's branch: who made it, in which session and status, what that session had
      established, and whether the QA agent or the user had committed to the branch since. */
  datatype Publication = Publication(
    pusher: Pusher,
    session: nat,
    status: RunStatus,
    evidence: Evidence,
    fixed: bool,
    edited: bool)

  /** Besides the rows and the runner: whether the run's workspace exists; what the last session
      established; whether the QA agent committed a fix since its last verdict; the tasks added in its
      revision round; whether the user committed since; and the histories of sessions, recovery events,
      attempts, spending, decisions and pushes. */
  datatype State = State(
    db: Db,
    runner: Runner,
    qaAttempts: nat,
    workspace: bool,
    shown: Evidence,
    fixed: bool,
    late: set<Id>,
    edited: bool,
    sessions: nat,
    recoveries: nat,
    history: seq<Attempt>,
    ledger: seq<nat>,
    otherSpend: nat,
    decisions: seq<bool>,
    publications: seq<Publication>)

  /** Up to the human decision. */
  datatype PlanEvent =
    | StartPlanning
    | PlanReady(plan: seq<PlanTask>, ids: seq<Id>, cost: nat)
    | PlanningBreaks
    | ResetPlan(includeQueued: bool)
    | EditThePlan(edits: seq<PlanTaskEdit>)
    | DecideRun(approved: bool, dispatchInline: bool)

  /** Delivering the approved run and working through its board. */
  datatype BoardEvent =
    | Deliver(quietWhenClean: bool)
    | Load
    | Schedule
    | StartAttempt
    | RefuseBudget
    | AgentAdds(id: Id, role: string, title: string, description: Option<string>)
    | AgentSkips(id: Id)
    | AttemptFails(cost: nat)
    | AttemptSucceeds(cost: nat)
    | FinalizeBoard
    | Sync

  /** Review, gates and publishing; and the two ways any session can stop early. */
  datatype FinishEvent =
    | Verdict(approves: bool, cost: nat)
    | Revised(cost: nat)
    | RevisionDone
    | SandboxRan(failed: bool)
    | QaFixed(cost: nat)
    | SecretsScanned(clean: bool)
    | DependenciesScanned(clean: bool)
    | Push(pushed: bool)
    | Complete
    | ExecutionBreaks
    | Crash

  /** What reaches a run from outside its session: the user's commit and push once it is finished, and
      a delivered job whose first read raises. */
  datatype OutsideEvent = UserCommits | UserPush | JobBreaks

  datatype Event =
    | Gate(plan: PlanEvent)
    | Board(board: BoardEvent)
    | Finish(finish: FinishEvent)
    | Outside(outside: OutsideEvent)

  ghost predicate Init(s: State) {
    && s.db.status == Queued && s.db.rows == map[] && s.db.spent == 0
    && s.runner == Idle && s.sessions == 0 && s.recoveries == 0
    && !s.workspace && s.shown == NOTHING_SHOWN && !s.fixed && s.late == {} && !s.edited
    && s.history == [] && s.ledger == [] && s.otherSpend == 0 && s.decisions == [] && s.publications == []
  }

  // ---- shorthands ----

  predicate InPhase(s: State, phase: Phase) {
    s.runner.Running? && s.runner.session.phase == phase
  }

  /** The session has a current task, known to it and present in the rows. */
  predicate HasCurrent(s: State) {
    && s.runner.Running? && s.runner.session.current.Some?
    && s.runner.session.current.value in s.runner.session.tasks
    && s.runner.session.current.value in s.db.rows
  }

  predicate CanTakeNode(s: State) {
    s.runner.Running? && s.runner.session.steps < RECURSION_LIMIT
  }

  function Move(s: State, phase: Phase): State
    requires s.runner.Running?
  {
    s.(runner := Running(s.runner.session.(phase := phase)))
  }

  function Fail(s: State): State {
    s.(db := s.db.(status := RunFailed), runner := Idle)
  }

  function Charge(s: State, cost: nat): State {
    s.(db := s.db.(spent := s.db.spent + cost), otherSpend := s.otherSpend + cost)
  }

  // ---- one function per transition that does more than move on ----

  function LoadBoard(s: State): State {
    if s.db.status != Executing then s.(runner := Idle)
    else s.(runner := Running(Session(s.db.rows, None, s.db.rows.Keys, None, Scheduling, 0, 0)),
            sessions := s.sessions + 1, shown := NOTHING_SHOWN, fixed := false, late := {})
  }

  ghost function ScheduleNode(ses: Session): Session {
    var counted := ses.(steps := ses.steps + 1);
    if ses.failure.Some? then counted.(current := None, phase := Finalizing)
    else match Route(ses.tasks)
      case Run(id) => counted.(current := Some(id), phase := Starting)
      case AllSettled => counted.(current := None, phase := Ended)
      case Stuck(stuck) => counted.(current := None, phase := Finalizing, failure := Some(Deadlock(stuck)))
  }

  function BeginExecution(ses: Session, id: Id): Session
    requires id in ses.tasks
  {
    ses.(tasks := Started(ses.tasks, id), steps := ses.steps + 1, executions := ses.executions + 1,
         phase := Working)
  }

  function StartWork(s: State): State
    requires HasCurrent(s)
  {
    var ses := s.runner.session;
    var id := ses.current.value;
    s.(db := BeginAttempt(s.db, id, ses.tasks[id].attempts + 1),
       runner := Running(BeginExecution(ses, id)),
       history := s.history + [Attempt(id, ses.tasks[id].sequence, s.db.spent)])
  }

  function GiveBack(ses: Session, id: Id): Session
    requires id in ses.tasks
  {
    ses.(tasks := AfterFailure(ses.tasks, id), failure := FailureOf(ses.tasks, id), phase := Scheduling)
  }

  function Merge(ses: Session, id: Id, rows: Tasks): Session
    requires id in ses.tasks
  {
    var added := map k | k in rows && k !in ses.known :: rows[k];
    var skipped := set k | k in rows && rows[k].status == Skipped;
    ses.(tasks := AfterSuccess(ses.tasks, id, added, skipped), known := ses.known + rows.Keys, phase := Scheduling)
  }

  function FailWork(s: State, cost: nat): State
    requires HasCurrent(s)
  {
    var ses := s.runner.session;
    s.(db := EndAttempt(s.db, ses.current.value, Pending, cost),
       runner := Running(GiveBack(ses, ses.current.value)),
       ledger := s.ledger + [cost])
  }

  function FinishWork(s: State, cost: nat): State
    requires HasCurrent(s)
  {
    var ses := s.runner.session;
    var db := EndAttempt(s.db, ses.current.value, Done, cost);
    s.(db := db, runner := Running(Merge(ses, ses.current.value, db.rows)), ledger := s.ledger + [cost])
  }

  function SyncRun(s: State): State
    requires s.runner.Running?
  {
    var ses := s.runner.session;
    var synced := s.(db := SyncBoard(s.db, ses.tasks, ses.failure.Some?));
    if ses.failure.Some? then synced.(runner := Idle) else Move(synced, FirstReview)
  }

  function Review(s: State, approves: bool): State
    requires s.runner.Running?
  {
    if approves then Move(s.(shown := s.shown.(approved := true)), Sandbox(0))
    else if s.runner.session.phase == FirstReview then Move(s, Revising)
    else Fail(s)
  }

  function SandboxGate(s: State, failed: bool): State
    requires s.runner.Running? && s.runner.session.phase.Sandbox?
  {
    var ses := s.runner.session;
    if !failed then Move(s.(shown := s.shown.(sandbox := true)), SecretScan)
    else if ses.phase.attempt < s.qaAttempts then Move(s, Fixing(ses.phase.attempt + 1))
    else Fail(s)
  }

  function SecretGate(s: State, clean: bool): State
    requires s.runner.Running?
  {
    if clean then Move(s.(shown := s.shown.(secrets := true)), DependencyScan) else Fail(s)
  }

  function DependencyGate(s: State, clean: bool): State
    requires s.runner.Running?
  {
    if clean then Move(s.(shown := s.shown.(dependencies := true)), Publishing) else Fail(s)
  }

  function Publish(s: State, pushed: bool): State
    requires s.runner.Running?
  {
    Move(if pushed then Pushed(s, Engine) else s, Finishing)
  }

  function Pushed(s: State, pusher: Pusher): State {
    s.(publications := s.publications + [Publication(pusher, s.sessions, s.db.status, s.shown, s.fixed, s.edited)])
  }

  // ---- the transition relation ----

  ghost predicate PlanEnabled(s: State, e: PlanEvent) {
    match e
    case StartPlanning => s.runner == Idle && s.db.status == Queued
    case PlanReady(plan, ids, _) =>
      s.runner == Planner && s.db.status == Planning && ValidPlan(plan) && |ids| == |plan| && Distinct(ids)
    case PlanningBreaks => s.runner == Planner
    case ResetPlan(includeQueued) => s.runner == Idle && ResetPlanning(s.db, includeQueued).Some?
    case EditThePlan(edits) => EditPlan(s.db, edits).Ok?
    case DecideRun(approved, _) => s.runner == Idle && Decide(s.db, approved).Some?
  }

  ghost predicate BoardEnabled(s: State, e: BoardEvent) {
    match e
    case Deliver(_) => s.runner == Idle && (Resumable(s.db.status) || Terminal(s.db.status))
    case Load => s.runner == Dispatched
    case Schedule => InPhase(s, Scheduling) && CanTakeNode(s)
    case StartAttempt => InPhase(s, Starting) && CanTakeNode(s) && HasCurrent(s) && WithinBudget(s.db)
    case RefuseBudget => InPhase(s, Starting) && CanTakeNode(s) && HasCurrent(s) && !WithinBudget(s.db)
    case AgentAdds(id, _, _, _) => (InPhase(s, Working) || InPhase(s, Revising)) && CanAdd(s.db, id)
    case AgentSkips(id) => (InPhase(s, Working) || InPhase(s, Revising)) && CanSkip(s.db.rows, id)
    case AttemptFails(_) => InPhase(s, Working) && HasCurrent(s)
    case AttemptSucceeds(_) => InPhase(s, Working) && HasCurrent(s)
    case FinalizeBoard => InPhase(s, Finalizing) && CanTakeNode(s)
    case Sync => InPhase(s, Ended)
  }

  predicate FinishEnabled(s: State, e: FinishEvent) {
    match e
    case Verdict(_, _) => InPhase(s, FirstReview) || InPhase(s, SecondReview)
    case Revised(_) => InPhase(s, Revising)
    case RevisionDone => InPhase(s, Revising)
    case SandboxRan(_) => s.runner.Running? && s.runner.session.phase.Sandbox?
    case QaFixed(_) => s.runner.Running? && s.runner.session.phase.Fixing?
    case SecretsScanned(_) => InPhase(s, SecretScan)
    case DependenciesScanned(_) => InPhase(s, DependencyScan)
    case Push(_) => InPhase(s, Publishing)
    case Complete => InPhase(s, Finishing)
    case ExecutionBreaks => s.runner.Running?
    case Crash => true
  }

  /** The user may commit and push once the run finished, if its workspace exists. */
  predicate Editable(s: State) {
    (s.db.status == Completed || s.db.status == RunFailed) && s.workspace
  }

  predicate OutsideEnabled(s: State, e: OutsideEvent) {
    match e
    case UserCommits => Editable(s)
    case UserPush => Editable(s)
    case JobBreaks => s.runner == Idle || s.runner == Dispatched
  }

  ghost predicate Enabled(s: State, e: Event) {
    match e
    case Gate(p) => PlanEnabled(s, p)
    case Board(b) => BoardEnabled(s, b)
    case Finish(f) => FinishEnabled(s, f)
    case Outside(o) => OutsideEnabled(s, o)
  }

  ghost function PlanApply(s: State, e: PlanEvent): State
    requires PlanEnabled(s, e)
  {
    match e
    case StartPlanning => s.(db := s.db.(status := Planning), runner := Planner)
    case PlanReady(plan, ids, cost) =>
      s.(db := StorePlan(s.db, plan, ids, cost), runner := Idle, otherSpend := s.otherSpend + cost, workspace := true)
    case PlanningBreaks => Fail(s)
    case ResetPlan(includeQueued) =>
      s.(db := ResetPlanning(s.db, includeQueued).value, workspace := false, recoveries := s.recoveries + 1)
    case EditThePlan(edits) => s.(db := EditPlan(s.db, edits).value)
    case DecideRun(approved, dispatchInline) =>
      s.(db := Decide(s.db, approved).value, decisions := s.decisions + [approved],
         workspace := s.workspace && approved,
         runner := if approved && dispatchInline then Dispatched else Idle)
  }

  ghost function BoardApply(s: State, e: BoardEvent): State
    requires BoardEnabled(s, e)
  {
    match e
    case Deliver(quiet) =>
      var reset := ResetExecution(s.db, quiet);
      s.(db := if reset.Some? then reset.value else s.db, runner := Dispatched,
         recoveries := if Resumable(s.db.status) && !IsQuiet(s.db, quiet) then s.recoveries + 1 else s.recoveries)
    case Load => LoadBoard(s)
    case Schedule => s.(runner := Running(ScheduleNode(s.runner.session)))
    case StartAttempt => StartWork(s)
    case RefuseBudget =>
      var ses := s.runner.session;
      s.(runner := Running(GiveBack(BeginExecution(ses, ses.current.value), ses.current.value)))
    case AgentAdds(id, role, title, description) =>
      s.(db := AddTask(s.db, id, role, title, description), late := if InPhase(s, Revising) then s.late + {id} else s.late)
    case AgentSkips(id) => s.(db := SkipTask(s.db, id))
    case AttemptFails(cost) => FailWork(s, cost)
    case AttemptSucceeds(cost) => FinishWork(s, cost)
    case FinalizeBoard =>
      var ses := s.runner.session;
      s.(runner := Running(ses.(tasks := Finalized(ses.tasks), steps := ses.steps + 1, phase := Ended)))
    case Sync => SyncRun(s)
  }

  function FinishApply(s: State, e: FinishEvent): State
    requires FinishEnabled(s, e)
  {
    match e
    case Verdict(approves, cost) => Review(Charge(s, cost).(fixed := false), approves)
    case Revised(cost) => Charge(s, cost)
    case RevisionDone => Move(s, SecondReview)
    case SandboxRan(failed) => SandboxGate(s, failed)
    case QaFixed(cost) => Move(Charge(s, cost).(fixed := true), Sandbox(s.runner.session.phase.attempt))
    case SecretsScanned(clean) => SecretGate(s, clean)
    case DependenciesScanned(clean) => DependencyGate(s, clean)
    case Push(pushed) => Publish(s, pushed)
    case Complete => s.(db := s.db.(status := Completed), runner := Idle)
    case ExecutionBreaks => Fail(s)
    case Crash => s.(runner := Idle)
  }

  function OutsideApply(s: State, e: OutsideEvent): State
    requires OutsideEnabled(s, e)
  {
    match e
    case UserCommits => s.(edited := true)
    case UserPush => Pushed(s, User)
    case JobBreaks => Fail(s)
  }

  ghost function Apply(s: State, e: Event): State
    requires Enabled(s, e)
  {
    match e
    case Gate(p) => PlanApply(s, p)
    case Board(b) => BoardApply(s, b)
    case Finish(f) => FinishApply(s, f)
    case Outside(o) => OutsideApply(s, o)
  }

  /** A run: states joined by enabled events, from an initial state. */
  ghost predicate IsRun(states: seq<State>, events: seq<Event>) {
    && |states| == |events| + 1
    && Init(states[0])
    && forall i :: 0 <= i < |events| ==> Enabled(states[i], events[i]) && states[i + 1] == Apply(states[i], events[i])
  }
}
