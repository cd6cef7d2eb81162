/** The guarantees of a whole run: over every interleaving of decisions, attempts, agents' board
    edits, failures, crashes and recoveries. */
module RunTheorems {
  import opened Board
  import opened Routing
  import opened RunMachine
  import opened BoardRefinement
  import opened RunSafety
  import opened StepCount

  lemma {:induction false} RunKeepsInv(states: seq<State>, events: seq<Event>, i: nat)
    requires IsRun(states, events) && i < |states|
    ensures Inv(states[i]) && StepInv(states[i])
  {
    if i > 0 {
      RunKeepsInv(states, events, i - 1);
      StepKeepsInv(states[i - 1], events[i - 1]);
      StepKeepsCount(states[i - 1], events[i - 1]);
    }
  }

  // ---- no task is repeated, none is run out of order, no skip is ignored ----

  lemma StartedRowIsOpen(s: State)
    requires BoardInv(s.db, s.runner) && BoardEnabled(s, StartAttempt)
    ensures s.db.rows[s.runner.session.current.value].status == Pending
  {
  }

  ghost predicate KeepsRow(s: State, s': State, id: Id)
    requires id in s.db.rows
  {
    id in s'.db.rows && s'.db.rows[id].status == s.db.rows[id].status
  }

  ghost predicate StartsOther(s: State, s': State, id: Id) {
    && |s.history| <= |s'.history| && s'.history[..|s.history|] == s.history
    && forall k :: |s.history| <= k < |s'.history| ==> s'.history[k].id != id
  }

  lemma StartKeepsSettled(s: State, id: Id)
    requires BoardInv(s.db, s.runner) && BoardEnabled(s, StartAttempt)
    requires id in s.db.rows && Settled(s.db.rows[id].status)
    ensures KeepsRow(s, StartWork(s), id) && StartsOther(s, StartWork(s), id)
  {
    StartedRowIsOpen(s);
  }

  lemma SyncKeepsSettled(s: State, id: Id)
    requires BoardInv(s.db, s.runner) && BoardEnabled(s, Sync)
    requires id in s.db.rows && Settled(s.db.rows[id].status)
    ensures KeepsRow(s, SyncRun(s), id) && StartsOther(s, SyncRun(s), id)
  {
    SyncedBoard(s.db.rows, s.runner.session, SyncRun(s).db.rows);
  }

  lemma WorkKeepsSettled(s: State, e: BoardEvent, id: Id)
    requires BoardInv(s.db, s.runner) && BoardEnabled(s, e)
    requires id in s.db.rows && Settled(s.db.rows[id].status)
    ensures KeepsRow(s, BoardApply(s, e), id) && StartsOther(s, BoardApply(s, e), id)
  {
    match e
    case StartAttempt => StartKeepsSettled(s, id);
    case Sync => SyncKeepsSettled(s, id);
    case _ =>
  }

  lemma StepKeepsSettled(s: State, e: Event, id: Id)
    requires BoardInv(s.db, s.runner) && Enabled(s, e)
    requires id in s.db.rows && Settled(s.db.rows[id].status)
    ensures KeepsRow(s, Apply(s, e), id) && StartsOther(s, Apply(s, e), id)
  {
    match e
    case Gate(_) =>
    case Board(b) => WorkKeepsSettled(s, b, id);
    case Finish(f) => FinishFrame(s, f);
    case Outside(o) => OutsideFrame(s, o);
  }

  lemma NextKeepsSettled(states: seq<State>, events: seq<Event>, i: nat, id: Id)
    requires IsRun(states, events) && i < |events|
    requires id in states[i].db.rows && Settled(states[i].db.rows[id].status)
    ensures KeepsRow(states[i], states[i + 1], id) && StartsOther(states[i], states[i + 1], id)
  {
    RunKeepsInv(states, events, i);
    StepKeepsSettled(states[i], events[i], id);
  }

  lemma StartsOtherReflexive(a: State, id: Id)
    ensures StartsOther(a, a, id)
  {
    assert a.history[..|a.history|] == a.history;
  }

  lemma StartsOtherComposes(a: State, b: State, c: State, id: Id)
    requires StartsOther(a, b, id) && StartsOther(b, c, id)
    ensures StartsOther(a, c, id)
  {
    assert c.history[..|a.history|] == c.history[..|b.history|][..|a.history|];
    forall k | |a.history| <= k < |c.history|
      ensures c.history[k].id != id
    {
      if k < |b.history| { assert c.history[k] == c.history[..|b.history|][k]; }
    }
  }

  /** A task whose row is done, or was skipped by an agent or at the gate, keeps that status and is
      never started again: not by a retry, not when the skipping attempt itself fails and the
      supervisor is not told, and not after a crash and recovery. */
  lemma {:induction false} SettledNeverExecutesAgain(states: seq<State>, events: seq<Event>, i: nat, j: nat, id: Id)
    requires IsRun(states, events) && i <= j < |states|
    requires id in states[i].db.rows && Settled(states[i].db.rows[id].status)
    ensures KeepsRow(states[i], states[j], id) && StartsOther(states[i], states[j], id)
  {
    if i == j {
      StartsOtherReflexive(states[i], id);
    } else {
      SettledNeverExecutesAgain(states, events, i, j - 1, id);
      NextKeepsSettled(states, events, j - 1, id);
      StartsOtherComposes(states[i], states[j - 1], states[j], id);
    }
  }

  /** Attempts are started in ascending sequence order, retries included, across restarts too. */
  lemma ExecutedSequencesNeverDecrease(states: seq<State>, events: seq<Event>, i: nat, a: nat, b: nat)
    requires IsRun(states, events) && i < |states| && a <= b < |states[i].history|
    ensures states[i].history[a].sequence <= states[i].history[b].sequence
  {
    RunKeepsInv(states, events, i);
  }

  // ---- the scheduler always finds its way ----

  /** The deadlock branch is unreachable, and while nothing has failed the scheduling node starts
      the lowest pending task of its board. */
  lemma NoDeadlock(states: seq<State>, events: seq<Event>, i: nat)
    requires IsRun(states, events) && i < |states| && InPhase(states[i], Scheduling)
    ensures var ses := states[i].runner.session;
            && (ses.failure.Some? ==> ses.failure.value.GaveUp?)
            && (ses.failure.None? ==> !Route(ses.tasks).Stuck?)
            && (ses.failure.None? && (exists id :: id in ses.tasks && ses.tasks[id].status == Pending) ==>
                  Route(ses.tasks).Run? && IsLowestPending(ses.tasks, Route(ses.tasks).id))
  {
    RunKeepsInv(states, events, i);
    var s := states[i];
    if s.runner.session.failure.None? { NeverStuck(s.db.rows, s.runner.session); }
  }

  /** When the graph ends, nothing on the supervisor's board is pending or running; a clean end
      means every task on it is done or skipped. The synchronization then gives every row the
      supervisor's status, and after it a row is pending exactly when the supervisor never heard
      of it and no agent skipped it, which a clean end rules out. */
  lemma GraphEndsSettled(states: seq<State>, events: seq<Event>, i: nat)
    requires IsRun(states, events) && i < |states| && InPhase(states[i], Ended)
    ensures var ses := states[i].runner.session;
            var after := SyncRun(states[i]).db.rows;
            && (forall id :: id in ses.tasks ==>
                  Settled(ses.tasks[id].status) || (ses.failure.Some? && ses.tasks[id].status == Failed))
            && ses.tasks.Keys <= after.Keys == states[i].db.rows.Keys
            && (forall id :: id in ses.tasks ==> after[id].status == ses.tasks[id].status)
            && (forall id :: id in after ==>
                  (after[id].status == Pending <==> id !in ses.tasks && states[i].db.rows[id].status != Skipped))
            && (ses.failure.None? ==> forall id :: id in after ==> Settled(after[id].status))
  {
    RunKeepsInv(states, events, i);
    SyncedBoard(states[i].db.rows, states[i].runner.session, SyncRun(states[i]).db.rows);
  }

  // ---- attempts, money, steps ----

  /** Three attempts, plus one for every session after the first. */
  lemma AttemptsBounded(states: seq<State>, events: seq<Event>, i: nat, id: Id)
    requires IsRun(states, events) && i < |states| && id in states[i].db.rows
    ensures states[i].db.rows[id].attempts <= MAX_RETRIES + states[i].sessions
    ensures states[i].runner.Running? && states[i].runner.session.phase.InGraph() && id in states[i].runner.session.tasks ==>
              states[i].runner.session.tasks[id].attempts <= MAX_RETRIES + states[i].sessions
  {
    RunKeepsInv(states, events, i);
  }

  /** No attempt starts once the recorded spend has reached the cap, and the recorded spend is the
      cost of every attempt that finished, failed or not, plus planning, review, revision and QA. */
  lemma BudgetAndLedger(states: seq<State>, events: seq<Event>, i: nat)
    requires IsRun(states, events) && i < |states|
    ensures forall k :: 0 <= k < |states[i].history| && states[i].db.cap.Some? ==>
              states[i].history[k].spentBefore < states[i].db.cap.value
    ensures states[i].db.spent == states[i].otherSpend + Sum(states[i].ledger)
  {
    RunKeepsInv(states, events, i);
  }

  /** A session makes at most three executor calls per task on its board and takes two node steps
      per call, one more to see the end and one more to finalize a failure. So no board can exceed
      182 steps, and a board of at most 16 tasks never meets the recursion limit; a board of 17 tasks
      that all need their three calls does, because no graph that ends has made more than 49. */
  lemma StepsBounded(states: seq<State>, events: seq<Event>, i: nat)
    requires IsRun(states, events) && i < |states|
    requires states[i].runner.Running? && states[i].runner.session.phase.InGraph()
    ensures var ses := states[i].runner.session;
            && ses.executions <= 3 * |ses.tasks.Keys| <= 3 * MAX_BOARD_TASKS
            && ses.steps <= 2 * ses.executions + 2
            && (ses.phase.Ended? ==> ses.steps == 2 * ses.executions + if ses.failure.None? then 1 else 2)
            && (|ses.tasks.Keys| <= 16 && !ses.phase.Ended? ==> CanTakeNode(states[i]))
            && (ses.phase.Ended? ==> ses.executions <= 49 < 3 * 17)
  {
    RunKeepsInv(states, events, i);
    SubsetSize(states[i].runner.session.tasks.Keys, states[i].db.rows.Keys);
  }

  // ---- the lifecycle of a run ----

  /** At most one decision is ever claimed; nothing executes and the engine publishes nothing without
      an approval; a run that executes, is reviewed or completes was approved, and a cancelled run was
      rejected and never executed. */
  lemma OneDecisionGovernsTheRun(states: seq<State>, events: seq<Event>, i: nat)
    requires IsRun(states, events) && i < |states|
    ensures |states[i].decisions| <= 1
    ensures states[i].history != [] || EnginePushed(states[i]) ==> states[i].decisions == [true]
    ensures Resumable(states[i].db.status) || states[i].db.status == Completed ==> states[i].decisions == [true]
    ensures states[i].db.status == Cancelled ==> states[i].decisions == [false] && states[i].history == []
  {
    RunKeepsInv(states, events, i);
  }

  /** Every push the engine made happened under review and had, within its own session, an approving
      verdict, a sandbox run that did not fail, and clean secret and dependency scans. Every other push
      is the user's, on a run that had completed or failed. */
  lemma EnginePushesOnlyWithEvidence(states: seq<State>, events: seq<Event>, i: nat, k: nat)
    requires IsRun(states, events) && i < |states| && k < |states[i].publications|
    ensures var p := states[i].publications[k];
            if p.pusher == Engine
            then p.status == Reviewing && p.evidence == ALL_SHOWN && !p.edited && 1 <= p.session <= states[i].sessions
            else p.status == Completed || p.status == RunFailed
  {
    RunKeepsInv(states, events, i);
    assert PushFits(states[i].publications[k], states[i].sessions);
  }

  /** What is pushed is what the last session's verdict approved and its gates let through: nobody
      committed to the branch since the verdict. */
  predicate Vouched(p: Publication) {
    p.evidence == ALL_SHOWN && !p.fixed && !p.edited
  }

  ghost predicate IsPush(s: State, e: Event) {
    e == Outside(UserPush) || (e.Finish? && e.finish.Push? && e.finish.pushed)
  }

  predicate IsQaFix(e: Event) {
    e.Finish? && e.finish.QaFixed?
  }

  predicate IsVerdict(e: Event) {
    e.Finish? && e.finish.Verdict?
  }

  /** The QA agent committed a fix in the session that is current at state i, after its last verdict. */
  ghost predicate FixedSinceVerdict(states: seq<State>, events: seq<Event>, i: nat)
    requires |states| == |events| + 1 && i < |states|
  {
    exists k :: 0 <= k < i && IsQaFix(events[k]) && states[k].sessions == states[i].sessions
                && forall m :: k < m < i ==> !IsVerdict(events[m])
  }

  /** A fix is noted, and forgotten with the next verdict or session. */
  predicate FixFollows(s: State, s': State, fix: bool, verdict: bool) {
    && s.sessions <= s'.sessions && (fix ==> s'.sessions == s.sessions)
    && (s'.fixed <==> fix || (s.fixed && !verdict && s'.sessions == s.sessions))
  }

  lemma WorkKeepsFix(s: State, e: BoardEvent)
    requires BoardEnabled(s, e)
    ensures FixFollows(s, BoardApply(s, e), false, false)
  {
  }

  lemma FinishKeepsFix(s: State, e: FinishEvent)
    requires FinishEnabled(s, e)
    ensures FixFollows(s, FinishApply(s, e), e.QaFixed?, e.Verdict?)
  {
  }

  lemma PlanningKeepsFix(s: State, e: PlanEvent)
    requires PlanEnabled(s, e)
    ensures FixFollows(s, PlanApply(s, e), false, false)
  {
  }

  lemma StepKeepsFix(s: State, e: Event)
    requires Enabled(s, e)
    ensures FixFollows(s, Apply(s, e), IsQaFix(e), IsVerdict(e))
  {
    match e
    case Gate(p) => PlanningKeepsFix(s, p);
    case Board(b) => WorkKeepsFix(s, b);
    case Finish(f) => FinishKeepsFix(s, f);
    case Outside(o) => OutsideFrame(s, o);
  }

  lemma NextFix(states: seq<State>, events: seq<Event>, k: nat)
    requires IsRun(states, events) && k < |events|
    ensures FixFollows(states[k], states[k + 1], IsQaFix(events[k]), IsVerdict(events[k]))
  {
    StepKeepsFix(states[k], events[k]);
  }

  lemma FixedOneMore(states: seq<State>, events: seq<Event>, i: nat)
    requires IsRun(states, events) && 0 < i < |states|
    ensures FixedSinceVerdict(states, events, i) <==>
            IsQaFix(events[i - 1])
            || (FixedSinceVerdict(states, events, i - 1) && !IsVerdict(events[i - 1])
                && states[i].sessions == states[i - 1].sessions)
  {
    NextFix(states, events, i - 1);
    forall k | 0 <= k < i
      ensures states[k].sessions <= states[i - 1].sessions <= states[i].sessions
    {
      SessionsNeverDecrease(states, events, k, i - 1);
    }
    FixedAtLast(states, events, i);
  }

  lemma FixedAtLast(states: seq<State>, events: seq<Event>, i: nat)
    requires |states| == |events| + 1 && 0 < i < |states|
    requires IsQaFix(events[i - 1]) ==> states[i].sessions == states[i - 1].sessions
    requires forall k :: 0 <= k < i ==> states[k].sessions <= states[i - 1].sessions <= states[i].sessions
    ensures FixedSinceVerdict(states, events, i) <==>
            IsQaFix(events[i - 1])
            || (FixedSinceVerdict(states, events, i - 1) && !IsVerdict(events[i - 1])
                && states[i].sessions == states[i - 1].sessions)
  {
    if FixedSinceVerdict(states, events, i) && !IsQaFix(events[i - 1]) {
      var k :| 0 <= k < i && IsQaFix(events[k]) && states[k].sessions == states[i].sessions
               && forall m :: k < m < i ==> !IsVerdict(events[m]);
      assert k < i - 1;
    }
  }

  lemma {:induction false} FixedMeansQaFix(states: seq<State>, events: seq<Event>, i: nat)
    requires IsRun(states, events) && i < |states|
    ensures states[i].fixed <==> FixedSinceVerdict(states, events, i)
  {
    if i > 0 {
      FixedMeansQaFix(states, events, i - 1);
      FixedOneMore(states, events, i);
      NextFix(states, events, i - 1);
    }
  }

  /** Exactly when a push is not vouched for: the QA agent committed a fix after the verdict that let the
      session go on, or the user pushes a finished run that the user committed to since, or that failed
      before all gates had let its last session through. */
  lemma PushIsUnvouchedIff(states: seq<State>, events: seq<Event>, i: nat)
    requires IsRun(states, events) && i < |events| && IsPush(states[i], events[i])
    ensures |states[i + 1].publications| == |states[i].publications| + 1
    ensures var s, p := states[i], states[i + 1].publications[|states[i].publications|];
            && (p.pusher == User <==> events[i] == Outside(UserPush))
            && (!Vouched(p) <==>
                  FixedSinceVerdict(states, events, i)
                  || (p.pusher == User && (s.edited || (s.db.status == RunFailed && s.shown != ALL_SHOWN))))
  {
    RunKeepsInv(states, events, i);
    FixedMeansQaFix(states, events, i);
  }

  ghost predicate Happened(events: seq<Event>, i: nat, j: nat, e: OutsideEvent)
    requires j <= |events|
  {
    exists k :: i <= k < j && events[k] == Outside(e)
  }

  /** What a terminal run can still go through: the user's pushes are appended, and a delivered job
      whose first read raises overwrites the status. */
  ghost predicate OnlyOutside(s: State, s': State, broke: bool, pushed: bool) {
    && s'.db == (if broke then s.db.(status := RunFailed) else s.db)
    && s'.history == s.history && s'.decisions == s.decisions
    && s.publications <= s'.publications
    && (forall k :: |s.publications| <= k < |s'.publications| ==> s'.publications[k].pusher == User)
    && (s'.publications != s.publications <==> pushed)
  }

  lemma StepKeepsTerminal(s: State, e: Event)
    requires BoardInv(s.db, s.runner) && Enabled(s, e) && Terminal(s.db.status)
    ensures OnlyOutside(s, Apply(s, e), e == Outside(JobBreaks), e == Outside(UserPush))
  {
  }

  lemma OutsideComposes(a: State, b: State, c: State, broke: bool, pushed: bool, breaks: bool, pushes: bool)
    requires OnlyOutside(a, b, broke, pushed) && OnlyOutside(b, c, breaks, pushes)
    ensures OnlyOutside(a, c, broke || breaks, pushed || pushes)
  {
  }

  /** Completed, failed and cancelled runs keep their rows, spending and history for ever. The status
      changes exactly if a later delivery breaks, and then to failed; the pushes change exactly if the
      user pushes, and then by the user's. */
  lemma {:induction false} TerminalRunsAreFrozen(states: seq<State>, events: seq<Event>, i: nat, j: nat)
    requires IsRun(states, events) && i <= j < |states| && Terminal(states[i].db.status)
    ensures OnlyOutside(states[i], states[j], Happened(events, i, j, JobBreaks), Happened(events, i, j, UserPush))
  {
    if i < j {
      TerminalRunsAreFrozen(states, events, i, j - 1);
      FrozenOneMore(states, events, i, j, Happened(events, i, j - 1, JobBreaks), Happened(events, i, j - 1, UserPush));
      LastHappened(events, i, j, JobBreaks);
      LastHappened(events, i, j, UserPush);
    } else {
      assert !Happened(events, i, i, JobBreaks) && !Happened(events, i, i, UserPush);
      FrozenAtFirst(states[i]);
    }
  }

  lemma FrozenAtFirst(s: State)
    ensures OnlyOutside(s, s, false, false)
  {
  }

  lemma FrozenOneMore(states: seq<State>, events: seq<Event>, i: nat, j: nat, broke: bool, pushed: bool)
    requires IsRun(states, events) && i < j < |states| && Terminal(states[i].db.status)
    requires OnlyOutside(states[i], states[j - 1], broke, pushed)
    ensures OnlyOutside(states[i], states[j], broke || events[j - 1] == Outside(JobBreaks),
                        pushed || events[j - 1] == Outside(UserPush))
  {
    RunKeepsInv(states, events, j - 1);
    StepKeepsTerminal(states[j - 1], events[j - 1]);
    OutsideComposes(states[i], states[j - 1], states[j], broke, pushed,
                    events[j - 1] == Outside(JobBreaks), events[j - 1] == Outside(UserPush));
  }

  lemma LastHappened(events: seq<Event>, i: nat, j: nat, e: OutsideEvent)
    requires i < j <= |events|
    ensures Happened(events, i, j, e) <==> Happened(events, i, j - 1, e) || events[j - 1] == Outside(e)
  {
  }

  // ---- what a completed run leaves open ----

  /** An agent added this task in the revision round of the session that is current at state i. */
  ghost predicate AddedInRevision(states: seq<State>, events: seq<Event>, i: nat, id: Id)
    requires |states| == |events| + 1 && i < |states|
  {
    exists k :: 0 <= k < i && AddsInRevision(states[k], events[k], id) && states[k].sessions == states[i].sessions
  }

  predicate AddsInRevision(s: State, e: Event, id: Id) {
    InPhase(s, Revising) && e.Board? && e.board.AgentAdds? && e.board.id == id
  }

  lemma LateStep(s: State, e: Event, id: Id)
    requires Enabled(s, e)
    ensures LateFollows(s, Apply(s, e), AddsInRevision(s, e, id), id)
  {
    match e
    case Gate(p) => PlanningLeavesLate(s, p, id);
    case Board(b) => WorkLate(s, b, id);
    case Finish(f) => FinishFrame(s, f);
    case Outside(o) => OutsideFrame(s, o);
  }

  /** The tasks added in revision are forgotten with the session, and otherwise only grow by this event. */
  predicate LateFollows(s: State, s': State, adds: bool, id: Id) {
    s.sessions <= s'.sessions && (id in s'.late <==> s'.sessions == s.sessions && (id in s.late || adds))
  }

  lemma PlanningLeavesLate(s: State, e: PlanEvent, id: Id)
    requires PlanEnabled(s, e)
    ensures LateFollows(s, PlanApply(s, e), false, id)
  {
  }

  lemma WorkLate(s: State, e: BoardEvent, id: Id)
    requires BoardEnabled(s, e)
    ensures LateFollows(s, BoardApply(s, e), AddsInRevision(s, Board(e), id), id)
  {
  }

  lemma SessionsNeverDecrease(states: seq<State>, events: seq<Event>, i: nat, j: nat)
    requires IsRun(states, events) && i <= j < |states|
    ensures states[i].sessions <= states[j].sessions
  {
    forall k | 0 <= k < |states| - 1
      ensures states[k].sessions <= states[k + 1].sessions
    {
      NextSessions(states, events, k);
    }
    StepwiseAscends(states, i, j);
  }

  lemma {:induction false} StepwiseAscends(states: seq<State>, i: nat, j: nat)
    requires forall k :: 0 <= k < |states| - 1 ==> states[k].sessions <= states[k + 1].sessions
    requires i <= j < |states|
    ensures states[i].sessions <= states[j].sessions
  {
    if i < j {
      StepwiseAscends(states, i, j - 1);
      assert states[j - 1].sessions <= states[j - 1 + 1].sessions;
    }
  }

  lemma NextSessions(states: seq<State>, events: seq<Event>, k: nat)
    requires IsRun(states, events) && k < |events|
    ensures states[k].sessions <= states[k + 1].sessions
  {
    LateStep(states[k], events[k], 0);
  }

  lemma {:induction false} LateMeansAddedInRevision(states: seq<State>, events: seq<Event>, i: nat, id: Id)
    requires IsRun(states, events) && i < |states|
    ensures id in states[i].late <==> AddedInRevision(states, events, i, id)
  {
    if i > 0 {
      var k := i - 1;
      LateMeansAddedInRevision(states, events, k, id);
      LateStep(states[k], events[k], id);
      forall m | 0 <= m < i && states[m].sessions == states[i].sessions
        ensures states[k].sessions == states[i].sessions
      {
        SessionsNeverDecrease(states, events, m, k);
      }
    }
  }

  /** In a completed run a row is unsettled exactly if an agent added it in the revision round of the
      last session and no agent skipped it since. */
  lemma CompletedLeavesRevisionTasks(states: seq<State>, events: seq<Event>, i: nat, id: Id)
    requires IsRun(states, events) && i < |states| && states[i].db.status == Completed
    requires id in states[i].db.rows
    ensures !Settled(states[i].db.rows[id].status) <==>
            AddedInRevision(states, events, i, id) && states[i].db.rows[id].status != Skipped
  {
    RunKeepsInv(states, events, i);
    LateMeansAddedInRevision(states, events, i, id);
  }
}
