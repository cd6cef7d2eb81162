/** How a run's status moves, event by event: what fails it, what completes it, and how many fixes and
    revisions a review allows. */
module RunOutcome {
  import opened Wrappers
  import opened Board
  import opened RunMachine
  import opened BoardRefinement
  import opened RunSafety
  import opened RunTheorems

  /** How many QA fixes were committed since the last verdict. */
  function FixesSinceVerdict(events: seq<Event>, i: nat): nat
    requires i <= |events|
  {
    if i == 0 || IsVerdict(events[i - 1]) then 0
    else FixesSinceVerdict(events, i - 1) + if IsQaFix(events[i - 1]) then 1 else 0
  }

  predicate IsRejection(e: Event) {
    IsVerdict(e) && !e.finish.approves
  }

  /** How many verdicts rejected the changes since the board was last loaded. */
  function RejectionsSinceLoad(events: seq<Event>, i: nat): nat
    requires i <= |events|
  {
    if i == 0 || events[i - 1] == Board(Load) then 0
    else RejectionsSinceLoad(events, i - 1) + if IsRejection(events[i - 1]) then 1 else 0
  }

  // ---- the counts against the phase -----------------------------------------------------------------

  /** What the phase says about the fixes and rejections so far. */
  predicate CountsFit(s: State, fixes: nat, rejections: nat) {
    && fixes <= s.qaAttempts
    && (s.runner.Running? ==>
          match s.runner.session.phase
          case Sandbox(attempt) => attempt == fixes
          case Fixing(attempt) => attempt == fixes + 1 <= s.qaAttempts
          case FirstReview => rejections == 0
          case Revising => rejections == 1
          case SecondReview => rejections == 1
          case phase => phase.InGraph() ==> rejections == 0)
  }

  lemma PlanningKeepsFit(s: State, e: PlanEvent, fixes: nat, rejections: nat)
    requires PlanEnabled(s, e) && CountsFit(s, fixes, rejections) && BoardInv(s.db, s.runner)
    ensures CountsFit(PlanApply(s, e), fixes, rejections) && PlanApply(s, e).qaAttempts == s.qaAttempts
  {
  }

  lemma WorkKeepsFit(s: State, e: BoardEvent, fixes: nat, rejections: nat)
    requires BoardEnabled(s, e) && CountsFit(s, fixes, rejections)
    ensures CountsFit(BoardApply(s, e), fixes, if e.Load? then 0 else rejections)
    ensures BoardApply(s, e).qaAttempts == s.qaAttempts
  {
  }

  lemma FinishKeepsFit(s: State, e: FinishEvent, fixes: nat, rejections: nat)
    requires FinishEnabled(s, e) && CountsFit(s, fixes, rejections)
    ensures CountsFit(FinishApply(s, e), if e.Verdict? then 0 else if e.QaFixed? then fixes + 1 else fixes,
                      if e.Verdict? && !e.approves then rejections + 1 else rejections)
    ensures FinishApply(s, e).qaAttempts == s.qaAttempts
  {
  }

  lemma StepKeepsFit(s: State, e: Event, fixes: nat, rejections: nat)
    requires Enabled(s, e) && CountsFit(s, fixes, rejections) && BoardInv(s.db, s.runner)
    ensures CountsFit(Apply(s, e), if IsVerdict(e) then 0 else if IsQaFix(e) then fixes + 1 else fixes,
                      if e == Board(Load) then 0 else if IsRejection(e) then rejections + 1 else rejections)
    ensures Apply(s, e).qaAttempts == s.qaAttempts
  {
    match e
    case Gate(p) => PlanningKeepsFit(s, p, fixes, rejections);
    case Board(b) => WorkKeepsFit(s, b, fixes, rejections);
    case Finish(f) => FinishKeepsFit(s, f, fixes, rejections);
    case Outside(_) =>
  }

  lemma {:induction false} RunKeepsFit(states: seq<State>, events: seq<Event>, i: nat)
    requires IsRun(states, events) && i < |states|
    ensures CountsFit(states[i], FixesSinceVerdict(events, i), RejectionsSinceLoad(events, i))
    ensures states[i].qaAttempts == states[0].qaAttempts
  {
    if i > 0 {
      RunKeepsFit(states, events, i - 1);
      FitOneMore(states, events, i);
    }
  }

  lemma FitOneMore(states: seq<State>, events: seq<Event>, i: nat)
    requires IsRun(states, events) && 0 < i < |states|
    requires CountsFit(states[i - 1], FixesSinceVerdict(events, i - 1), RejectionsSinceLoad(events, i - 1))
    ensures CountsFit(states[i], FixesSinceVerdict(events, i), RejectionsSinceLoad(events, i))
    ensures states[i].qaAttempts == states[i - 1].qaAttempts
  {
    RunKeepsInv(states, events, i - 1);
    StepKeepsFit(states[i - 1], events[i - 1], FixesSinceVerdict(events, i - 1), RejectionsSinceLoad(events, i - 1));
  }

  // ---- what ends a session ---------------------------------------------------------------------------

  /** What makes an event of review, gates or publishing fail the run, when so many fixes and rejections
      came before it. */
  predicate Fails(e: FinishEvent, fixes: nat, rejections: nat, qaAttempts: nat) {
    match e
    case Verdict(approves, _) => !approves && rejections == 1
    case SandboxRan(failed) => failed && fixes == qaAttempts
    case SecretsScanned(clean) => !clean
    case DependenciesScanned(clean) => !clean
    case ExecutionBreaks => true
    case _ => false
  }

  lemma FinishStatus(s: State, e: FinishEvent, fixes: nat, rejections: nat)
    requires FinishEnabled(s, e) && CountsFit(s, fixes, rejections)
    ensures FinishApply(s, e).db.status ==
            if Fails(e, fixes, rejections, s.qaAttempts) then RunFailed else if e.Complete? then Completed else s.db.status
  {
    match e
    case Verdict(approves, cost) => VerdictStatus(s, approves, cost, fixes, rejections);
    case _ =>
  }

  lemma VerdictStatus(s: State, approves: bool, cost: nat, fixes: nat, rejections: nat)
    requires FinishEnabled(s, Verdict(approves, cost)) && CountsFit(s, fixes, rejections)
    ensures FinishApply(s, Verdict(approves, cost)).db.status ==
            if !approves && rejections == 1 then RunFailed else s.db.status
  {
  }

  lemma FinishSession(s: State, e: FinishEvent, fixes: nat, rejections: nat)
    requires FinishEnabled(s, e) && CountsFit(s, fixes, rejections)
    ensures FinishApply(s, e).runner.Running? <==>
            s.runner.Running? && !Fails(e, fixes, rejections, s.qaAttempts) && !e.Complete? && !e.Crash?
  {
  }

  /** A run under review fails exactly at a second rejection in a session, at a failed test run after the
      allowed fixes since the verdict, at a scan with findings, or when something breaks; it completes
      exactly at the end; otherwise its session goes on, unless the process dies. */
  lemma ReviewFailsIff(states: seq<State>, events: seq<Event>, i: nat)
    requires IsRun(states, events) && i < |events| && events[i].Finish?
    ensures var s, s', e := states[i], states[i + 1], events[i].finish;
            var failed := Fails(e, FixesSinceVerdict(events, i), RejectionsSinceLoad(events, i), states[0].qaAttempts);
            && s'.db.status == (if failed then RunFailed else if e.Complete? then Completed else s.db.status)
            && (s'.runner.Running? <==> s.runner.Running? && !failed && !e.Complete? && !e.Crash?)
  {
    RunKeepsFit(states, events, i);
    FinishStatus(states[i], events[i].finish, FixesSinceVerdict(events, i), RejectionsSinceLoad(events, i));
    FinishSession(states[i], events[i].finish, FixesSinceVerdict(events, i), RejectionsSinceLoad(events, i));
  }

  /** The QA agent never gets more than the configured number of fixes for one verdict, and the number never
      changes during a run. */
  lemma FixesAreBounded(states: seq<State>, events: seq<Event>, i: nat)
    requires IsRun(states, events) && i < |states|
    ensures FixesSinceVerdict(events, i) <= states[0].qaAttempts == states[i].qaAttempts
  {
    RunKeepsFit(states, events, i);
  }

  /** After a failed test run that does not fail the run comes a fix, and the tests run again after it. */
  lemma FixThenTest(states: seq<State>, events: seq<Event>, i: nat)
    requires IsRun(states, events) && i < |events|
    ensures events[i] == Finish(SandboxRan(true)) && FixesSinceVerdict(events, i) < states[0].qaAttempts ==>
              InPhase(states[i + 1], Fixing(FixesSinceVerdict(events, i) + 1))
    ensures IsQaFix(events[i]) ==> InPhase(states[i + 1], Sandbox(FixesSinceVerdict(events, i) + 1))
  {
    RunKeepsFit(states, events, i);
  }

  // ---- the other moves of the status -------------------------------------------------------------------

  /** Where an event before review takes the status. */
  lemma PlanStatus(s: State, e: PlanEvent)
    requires PlanEnabled(s, e)
    ensures PlanApply(s, e).db.status ==
            match e
            case StartPlanning => Planning
            case PlanReady(_, _, _) => AwaitingApproval
            case PlanningBreaks => RunFailed
            case ResetPlan(_) => Queued
            case EditThePlan(_) => s.db.status
            case DecideRun(approved, _) => if approved then Executing else Cancelled
  {
  }

  lemma WorkStatus(s: State, e: BoardEvent)
    requires BoardEnabled(s, e)
    ensures BoardApply(s, e).db.status ==
            match e
            case Deliver(_) => if Resumable(s.db.status) then Executing else s.db.status
            case Sync => if s.runner.session.failure.Some? then RunFailed else Reviewing
            case _ => s.db.status
  {
  }

  /** The whole life of the status, event by event. */
  lemma StatusMoves(states: seq<State>, events: seq<Event>, i: nat)
    requires IsRun(states, events) && i < |events| && !events[i].Finish?
    ensures states[i + 1].db.status ==
            match events[i]
            case Gate(StartPlanning) => Planning
            case Gate(PlanReady(_, _, _)) => AwaitingApproval
            case Gate(PlanningBreaks) => RunFailed
            case Gate(ResetPlan(_)) => Queued
            case Gate(DecideRun(approved, _)) => if approved then Executing else Cancelled
            case Board(Deliver(_)) => if Resumable(states[i].db.status) then Executing else states[i].db.status
            case Board(Sync) => if states[i].runner.session.failure.Some? then RunFailed else Reviewing
            case Outside(JobBreaks) => RunFailed
            case _ => states[i].db.status
  {
    match events[i]
    case Gate(p) => PlanStatus(states[i], p);
    case Board(b) => WorkStatus(states[i], b);
    case Outside(o) => OutsideFrame(states[i], o);
  }

  // ---- a rejected plan -----------------------------------------------------------------------------------

  ghost predicate AllSkipped(db: Db) {
    db.status == Cancelled ==> forall id :: id in db.rows ==> db.rows[id].status == Skipped
  }

  lemma StepKeepsSkipped(s: State, e: Event)
    requires BoardInv(s.db, s.runner) && Enabled(s, e) && AllSkipped(s.db)
    ensures AllSkipped(Apply(s, e).db)
  {
    match e
    case Gate(_) =>
    case Board(b) => WorkStatus(s, b); WorkKeepsDecisions(s, b);
    case Finish(f) => FinishFrame(s, f);
    case Outside(o) => OutsideFrame(s, o);
  }

  /** A run whose plan was rejected keeps every task skipped. */
  lemma {:induction false} RejectionSkipsEverything(states: seq<State>, events: seq<Event>, i: nat)
    requires IsRun(states, events) && i < |states|
    ensures AllSkipped(states[i].db)
  {
    if i > 0 {
      RejectionSkipsEverything(states, events, i - 1);
      RunKeepsInv(states, events, i - 1);
      StepKeepsSkipped(states[i - 1], events[i - 1]);
    }
  }
}
