/** The history variables of a run against its events: what was started, spent, decided, shown and pushed
    is what happened. The guarantees about the record are thereby guarantees about the events. */
module RunRecord {
  import opened Wrappers
  import opened Board
  import opened RunMachine
  import opened BoardRefinement
  import opened RunSafety
  import opened RunTheorems

  // ---- money ------------------------------------------------------------------------------------------

  /** What the model calls of an event cost. */
  function CostOf(e: Event): nat {
    match e
    case Gate(PlanReady(_, _, cost)) => cost
    case Board(AttemptFails(cost)) => cost
    case Board(AttemptSucceeds(cost)) => cost
    case Finish(Verdict(_, cost)) => cost
    case Finish(Revised(cost)) => cost
    case Finish(QaFixed(cost)) => cost
    case _ => 0
  }

  function TotalCost(events: seq<Event>, i: nat): nat
    requires i <= |events|
  {
    if i == 0 then 0 else TotalCost(events, i - 1) + CostOf(events[i - 1])
  }

  lemma PlanCost(s: State, e: PlanEvent)
    requires PlanEnabled(s, e)
    ensures PlanApply(s, e).db.spent == s.db.spent + CostOf(Gate(e)) && PlanApply(s, e).db.cap == s.db.cap
  {
  }

  lemma WorkCost(s: State, e: BoardEvent)
    requires BoardEnabled(s, e)
    ensures BoardApply(s, e).db.spent == s.db.spent + CostOf(Board(e)) && BoardApply(s, e).db.cap == s.db.cap
  {
  }

  lemma FinishCost(s: State, e: FinishEvent)
    requires FinishEnabled(s, e)
    ensures FinishApply(s, e).db.spent == s.db.spent + CostOf(Finish(e)) && FinishApply(s, e).db.cap == s.db.cap
  {
  }

  lemma StepCost(s: State, e: Event)
    requires Enabled(s, e)
    ensures Apply(s, e).db.spent == s.db.spent + CostOf(e) && Apply(s, e).db.cap == s.db.cap
  {
    match e
    case Gate(p) => PlanCost(s, p);
    case Board(b) => WorkCost(s, b);
    case Finish(f) => FinishCost(s, f);
    case Outside(o) => OutsideFrame(s, o);
  }

  /** The recorded spend is the cost of everything that happened, and the cap never moves. */
  lemma {:induction false} SpendIsTheCosts(states: seq<State>, events: seq<Event>, i: nat)
    requires IsRun(states, events) && i < |states|
    ensures states[i].db.spent == TotalCost(events, i) && states[i].db.cap == states[0].db.cap
  {
    if i > 0 {
      SpendIsTheCosts(states, events, i - 1);
      CostOneMore(states, events, i);
    }
  }

  lemma CostOneMore(states: seq<State>, events: seq<Event>, i: nat)
    requires IsRun(states, events) && 0 < i < |states|
    ensures states[i].db.spent == states[i - 1].db.spent + CostOf(events[i - 1]) && states[i].db.cap == states[i - 1].db.cap
  {
    StepCost(states[i - 1], events[i - 1]);
  }

  /** No attempt starts once what has been spent has reached the cap. */
  lemma NoStartBeyondTheCap(states: seq<State>, events: seq<Event>, i: nat)
    requires IsRun(states, events) && i < |events| && events[i] == Board(StartAttempt)
    ensures states[0].db.cap.Some? ==> TotalCost(events, i) < states[0].db.cap.value
  {
    SpendIsTheCosts(states, events, i);
  }

  // ---- attempts -----------------------------------------------------------------------------------------

  /** The attempt an event starts: at the supervisor's current task, with its row's sequence. */
  function StartsAt(s: State, e: Event): seq<Attempt> {
    if e == Board(StartAttempt) && HasCurrent(s)
    then [Attempt(s.runner.session.current.value, s.db.rows[s.runner.session.current.value].sequence, s.db.spent)]
    else []
  }

  function StartsOf(states: seq<State>, events: seq<Event>, i: nat): seq<Attempt>
    requires |states| == |events| + 1 && i <= |events|
  {
    if i == 0 then [] else StartsOf(states, events, i - 1) + StartsAt(states[i - 1], events[i - 1])
  }

  lemma StartIsRecorded(s: State)
    requires BoardInv(s.db, s.runner) && BoardEnabled(s, StartAttempt)
    ensures StartWork(s).history == s.history + StartsAt(s, Board(StartAttempt))
  {
    var id := s.runner.session.current.value;
    assert id in s.runner.session.tasks && s.runner.session.tasks[id].sequence == s.db.rows[id].sequence;
  }

  lemma StepStarts(s: State, e: Event)
    requires BoardInv(s.db, s.runner) && Enabled(s, e)
    ensures Apply(s, e).history == s.history + StartsAt(s, e)
  {
    assert s.history + [] == s.history;
    match e
    case Gate(_) =>
    case Board(StartAttempt) => StartIsRecorded(s);
    case Board(b) => WorkStartsNothing(s, b);
    case Finish(f) => FinishFrame(s, f);
    case Outside(o) => OutsideFrame(s, o);
  }

  lemma WorkStartsNothing(s: State, e: BoardEvent)
    requires BoardEnabled(s, e) && !e.StartAttempt?
    ensures BoardApply(s, e).history == s.history
  {
  }

  /** The history is exactly the attempts started, in order. */
  lemma {:induction false} HistoryIsTheStarts(states: seq<State>, events: seq<Event>, i: nat)
    requires IsRun(states, events) && i < |states|
    ensures states[i].history == StartsOf(states, events, i)
  {
    if i > 0 {
      HistoryIsTheStarts(states, events, i - 1);
      HistoryOneMore(states, events, i);
    }
  }

  lemma HistoryOneMore(states: seq<State>, events: seq<Event>, i: nat)
    requires IsRun(states, events) && 0 < i < |states|
    ensures states[i].history == states[i - 1].history + StartsAt(states[i - 1], events[i - 1])
  {
    RunKeepsInv(states, events, i - 1);
    StepStarts(states[i - 1], events[i - 1]);
  }

  /** In events: once a task is done or skipped no later event starts an attempt at it. */
  lemma SettledTaskIsNotStarted(states: seq<State>, events: seq<Event>, i: nat, j: nat, id: Id)
    requires IsRun(states, events) && i <= j < |events| && events[j] == Board(StartAttempt)
    requires id in states[i].db.rows && Settled(states[i].db.rows[id].status)
    ensures HasCurrent(states[j]) && states[j].runner.session.current != Some(id)
  {
    SettledNeverExecutesAgain(states, events, i, j, id);
    RunKeepsInv(states, events, j);
    StartedRowIsOpen(states[j]);
  }

  // ---- decisions, sessions, recoveries ------------------------------------------------------------------

  function DecidedBy(e: Event): seq<bool> {
    if e.Gate? && e.plan.DecideRun? then [e.plan.approved] else []
  }

  function DecisionsOf(events: seq<Event>, i: nat): seq<bool>
    requires i <= |events|
  {
    if i == 0 then [] else DecisionsOf(events, i - 1) + DecidedBy(events[i - 1])
  }

  /** Whether an event records that the run was recovered: its plan was reset, or it was delivered while
      executing or reviewing and not left alone. */
  ghost predicate Recovers(s: State, e: Event) {
    (e.Gate? && e.plan.ResetPlan?)
    || (e.Board? && e.board.Deliver? && Resumable(s.db.status)
        && !(e.board.quietWhenClean && s.db.status == Executing
             && forall id :: id in s.db.rows ==> s.db.rows[id].status != InProgress))
  }

  /** Whether an event starts a session: the board is loaded while the run is executing. */
  predicate Loads(s: State, e: Event) {
    e == Board(Load) && s.db.status == Executing
  }

  ghost predicate Counted(s: State, e: Event, s': State) {
    && s'.decisions == s.decisions + DecidedBy(e)
    && s'.sessions == s.sessions + (if Loads(s, e) then 1 else 0)
    && s'.recoveries == s.recoveries + (if Recovers(s, e) then 1 else 0)
    && (s'.edited <==> s.edited || e == Outside(UserCommits))
  }

  lemma PlanCounted(s: State, e: PlanEvent)
    requires PlanEnabled(s, e)
    ensures Counted(s, Gate(e), PlanApply(s, e))
  {
  }

  lemma WorkCounted(s: State, e: BoardEvent)
    requires BoardEnabled(s, e)
    ensures Counted(s, Board(e), BoardApply(s, e))
  {
    assert s.decisions + [] == s.decisions;
  }

  lemma FinishCounted(s: State, e: FinishEvent)
    requires FinishEnabled(s, e)
    ensures Counted(s, Finish(e), FinishApply(s, e))
  {
    FinishFrame(s, e);
    FinishEditsNothing(s, e);
    assert s.decisions + [] == s.decisions;
  }

  lemma FinishEditsNothing(s: State, e: FinishEvent)
    requires FinishEnabled(s, e)
    ensures FinishApply(s, e).edited == s.edited
  {
  }

  lemma StepCounted(s: State, e: Event)
    requires Enabled(s, e)
    ensures Counted(s, e, Apply(s, e))
  {
    match e
    case Gate(p) => PlanCounted(s, p);
    case Board(b) => WorkCounted(s, b);
    case Finish(f) => FinishCounted(s, f);
    case Outside(o) => OutsideFrame(s, o); assert s.decisions + [] == s.decisions;
  }

  function SessionsOf(states: seq<State>, events: seq<Event>, i: nat): nat
    requires |states| == |events| + 1 && i <= |events|
  {
    if i == 0 then 0 else SessionsOf(states, events, i - 1) + if Loads(states[i - 1], events[i - 1]) then 1 else 0
  }

  ghost function RecoveriesOf(states: seq<State>, events: seq<Event>, i: nat): nat
    requires |states| == |events| + 1 && i <= |events|
  {
    if i == 0 then 0 else RecoveriesOf(states, events, i - 1) + if Recovers(states[i - 1], events[i - 1]) then 1 else 0
  }

  /** Decisions, sessions, recoveries and the user's commits are counted as they happen. */
  lemma {:induction false} CountsAreTheEvents(states: seq<State>, events: seq<Event>, i: nat)
    requires IsRun(states, events) && i < |states|
    ensures states[i].decisions == DecisionsOf(events, i)
    ensures states[i].sessions == SessionsOf(states, events, i) && states[i].recoveries == RecoveriesOf(states, events, i)
    ensures states[i].edited <==> Happened(events, 0, i, UserCommits)
  {
    if i > 0 {
      CountsAreTheEvents(states, events, i - 1);
      NextCounted(states, events, i - 1);
      LastHappened(events, 0, i, UserCommits);
    }
  }

  lemma NextCounted(states: seq<State>, events: seq<Event>, k: nat)
    requires IsRun(states, events) && k < |events|
    ensures Counted(states[k], events[k], states[k + 1])
  {
    StepCounted(states[k], events[k]);
  }

  // ---- pushes ---------------------------------------------------------------------------------------------

  function PushedBy(s: State, e: Event): seq<Publication> {
    if e == Outside(UserPush) then [Publication(User, s.sessions, s.db.status, s.shown, s.fixed, s.edited)]
    else if e == Finish(Push(true)) then [Publication(Engine, s.sessions, s.db.status, s.shown, s.fixed, s.edited)]
    else []
  }

  function PushesOf(states: seq<State>, events: seq<Event>, i: nat): seq<Publication>
    requires |states| == |events| + 1 && i <= |events|
  {
    if i == 0 then [] else PushesOf(states, events, i - 1) + PushedBy(states[i - 1], events[i - 1])
  }

  lemma WorkPushesNothing(s: State, e: BoardEvent)
    requires BoardEnabled(s, e)
    ensures BoardApply(s, e).publications == s.publications
  {
  }

  lemma FinishPushesOnce(s: State, e: FinishEvent)
    requires FinishEnabled(s, e)
    ensures FinishApply(s, e).publications == s.publications + PushedBy(s, Finish(e))
  {
    assert s.publications + [] == s.publications;
  }

  lemma NextPushes(states: seq<State>, events: seq<Event>, k: nat)
    requires IsRun(states, events) && k < |events|
    ensures states[k + 1].publications == states[k].publications + PushedBy(states[k], events[k])
  {
    var s := states[k];
    assert s.publications + [] == s.publications;
    match events[k]
    case Gate(_) =>
    case Board(b) => WorkPushesNothing(s, b);
    case Finish(f) => FinishPushesOnce(s, f);
    case Outside(_) =>
  }

  /** The publications are exactly the pushes, in order, with what held when they were made. */
  lemma {:induction false} PublicationsAreThePushes(states: seq<State>, events: seq<Event>, i: nat)
    requires IsRun(states, events) && i < |states|
    ensures states[i].publications == PushesOf(states, events, i)
  {
    if i > 0 {
      PublicationsAreThePushes(states, events, i - 1);
      NextPushes(states, events, i - 1);
    }
  }

  // ---- the workspace ----------------------------------------------------------------------------------------

  predicate PlansAt(e: Event) {
    e.Gate? && e.plan.PlanReady?
  }

  predicate Discards(e: Event) {
    e.Gate? && (e.plan.ResetPlan? || (e.plan.DecideRun? && !e.plan.approved))
  }

  /** A plan was stored, and since then neither reset nor rejected. */
  ghost predicate HasPlan(events: seq<Event>, i: nat)
    requires i <= |events|
  {
    exists k :: 0 <= k < i && PlansAt(events[k]) && forall m :: k < m < i ==> !Discards(events[m])
  }

  lemma NextWorkspace(states: seq<State>, events: seq<Event>, k: nat)
    requires IsRun(states, events) && k < |events|
    ensures states[k + 1].workspace <==> PlansAt(events[k]) || (states[k].workspace && !Discards(events[k]))
  {
    var s := states[k];
    match events[k]
    case Gate(_) =>
    case Board(b) => WorkKeepsWorkspace(s, b);
    case Finish(f) => FinishKeepsWorkspace(s, f);
    case Outside(_) =>
  }

  lemma WorkKeepsWorkspace(s: State, e: BoardEvent)
    requires BoardEnabled(s, e)
    ensures BoardApply(s, e).workspace == s.workspace
  {
  }

  lemma FinishKeepsWorkspace(s: State, e: FinishEvent)
    requires FinishEnabled(s, e)
    ensures FinishApply(s, e).workspace == s.workspace
  {
  }

  lemma HasPlanOneMore(events: seq<Event>, i: nat)
    requires 0 < i <= |events|
    ensures HasPlan(events, i) <==> PlansAt(events[i - 1]) || (HasPlan(events, i - 1) && !Discards(events[i - 1]))
  {
    if HasPlan(events, i) && !PlansAt(events[i - 1]) {
      var k :| 0 <= k < i && PlansAt(events[k]) && forall m :: k < m < i ==> !Discards(events[m]);
      assert k < i - 1;
    }
  }

  /** A run has a workspace exactly from its plan on, until that is reset or rejected. */
  lemma {:induction false} WorkspaceIsThePlans(states: seq<State>, events: seq<Event>, i: nat)
    requires IsRun(states, events) && i < |states|
    ensures states[i].workspace <==> HasPlan(events, i)
  {
    if i > 0 {
      WorkspaceIsThePlans(states, events, i - 1);
      NextWorkspace(states, events, i - 1);
      HasPlanOneMore(events, i);
    }
  }

  /** The user commits and pushes only in a finished run that has its plan. */
  lemma UserNeedsAPlan(states: seq<State>, events: seq<Event>, i: nat)
    requires IsRun(states, events) && i < |events|
    requires events[i] == Outside(UserPush) || events[i] == Outside(UserCommits)
    ensures HasPlan(events, i) && states[i].db.status in {Completed, RunFailed}
  {
    WorkspaceIsThePlans(states, events, i);
  }

  // ---- what a session has shown ----------------------------------------------------------------------------

  datatype Showing = Approval | SandboxPass | SecretPass | DependencyPass

  /** The event that establishes it. */
  predicate Establishes(e: Event, what: Showing) {
    e.Finish? &&
    match what
    case Approval => e.finish.Verdict? && e.finish.approves
    case SandboxPass => e.finish == SandboxRan(false)
    case SecretPass => e.finish == SecretsScanned(true)
    case DependencyPass => e.finish == DependenciesScanned(true)
  }

  predicate Holds(shown: Evidence, what: Showing) {
    match what
    case Approval => shown.approved
    case SandboxPass => shown.sandbox
    case SecretPass => shown.secrets
    case DependencyPass => shown.dependencies
  }

  /** It was established in the session that is current at state i. */
  ghost predicate Established(states: seq<State>, events: seq<Event>, i: nat, what: Showing)
    requires |states| == |events| + 1 && i < |states|
  {
    exists k :: 0 <= k < i && Establishes(events[k], what) && states[k].sessions == states[i].sessions
  }

  /** It holds once established, until the next session. */
  predicate ShowingFollows(s: State, s': State, now: bool, what: Showing) {
    && s.sessions <= s'.sessions && (now ==> s'.sessions == s.sessions)
    && (Holds(s'.shown, what) <==> now || (Holds(s.shown, what) && s'.sessions == s.sessions))
  }

  lemma WorkShows(s: State, e: BoardEvent, what: Showing)
    requires BoardEnabled(s, e)
    ensures ShowingFollows(s, BoardApply(s, e), false, what)
  {
  }

  lemma FinishShows(s: State, e: FinishEvent, what: Showing)
    requires FinishEnabled(s, e)
    ensures ShowingFollows(s, FinishApply(s, e), Establishes(Finish(e), what), what)
  {
  }

  lemma NextShows(states: seq<State>, events: seq<Event>, k: nat, what: Showing)
    requires IsRun(states, events) && k < |events|
    ensures ShowingFollows(states[k], states[k + 1], Establishes(events[k], what), what)
  {
    match events[k]
    case Gate(_) =>
    case Board(b) => WorkShows(states[k], b, what);
    case Finish(f) => FinishShows(states[k], f, what);
    case Outside(o) => OutsideFrame(states[k], o);
  }

  lemma EstablishedOneMore(states: seq<State>, events: seq<Event>, i: nat, what: Showing)
    requires |states| == |events| + 1 && 0 < i < |states|
    requires Establishes(events[i - 1], what) ==> states[i].sessions == states[i - 1].sessions
    requires forall k :: 0 <= k < i ==> states[k].sessions <= states[i - 1].sessions <= states[i].sessions
    ensures Established(states, events, i, what) <==>
            Establishes(events[i - 1], what)
            || (Established(states, events, i - 1, what) && states[i].sessions == states[i - 1].sessions)
  {
    if Established(states, events, i, what) && !Establishes(events[i - 1], what) {
      var k :| 0 <= k < i && Establishes(events[k], what) && states[k].sessions == states[i].sessions;
      assert k < i - 1;
    }
  }

  /** What a session has shown is what it established: each piece of the evidence by its own event. */
  lemma {:induction false} ShownIsEstablished(states: seq<State>, events: seq<Event>, i: nat, what: Showing)
    requires IsRun(states, events) && i < |states|
    ensures Holds(states[i].shown, what) <==> Established(states, events, i, what)
  {
    if i > 0 {
      ShownIsEstablished(states, events, i - 1, what);
      NextShows(states, events, i - 1, what);
      SessionsAscend(states, events, i);
      EstablishedOneMore(states, events, i, what);
    }
  }

  lemma SessionsAscend(states: seq<State>, events: seq<Event>, i: nat)
    requires IsRun(states, events) && 0 < i < |states|
    ensures forall k :: 0 <= k < i ==> states[k].sessions <= states[i - 1].sessions <= states[i].sessions
  {
    SessionsNeverDecrease(states, events, i - 1, i);
    forall k | 0 <= k < i
      ensures states[k].sessions <= states[i - 1].sessions
    {
      SessionsNeverDecrease(states, events, k, i - 1);
    }
  }

  /** In events: before the engine pushes, the same session had an approving verdict, a test run that did not
      fail, and clean scans for secrets and dependencies. */
  lemma EnginePushFollowsItsGates(states: seq<State>, events: seq<Event>, i: nat, what: Showing)
    requires IsRun(states, events) && i < |events| && events[i] == Finish(Push(true))
    ensures Established(states, events, i, what) && states[i].db.status == Reviewing
  {
    RunKeepsInv(states, events, i);
    ShownIsEstablished(states, events, i, what);
  }
}
