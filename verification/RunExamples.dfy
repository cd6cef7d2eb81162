/** Runs that show what the engine does not guarantee. Each has one planned task. */
module RunExamples {
  import opened Wrappers
  import opened Board
  import opened Routing
  import opened RunMachine
  import opened RunTheorems
  import opened AttemptBound
  import opened RunBuilding
  import opened QuietDelivery

  const PLAN := [PlanTask("title", "backend", "text", [])]

  function OneTask(status: TaskStatus, attempts: nat): Tasks {
    map[1 := Task(1, 1, "backend", "title", Some("text"), status, {}, attempts)]
  }

  const FRESH := State(Db(Queued, map[], 0, None), Idle, 2, false, NOTHING_SHOWN, false, {}, false, 0, 0, [], [], 0, [], [])

  lemma PlannedRow()
    ensures ValidPlan(PLAN) && Distinct([1])
    ensures WithPlanned(map[], PLAN, [1], 1) == OneTask(Pending, 0)
  {
    assert Resolve([], [1]) == {};
    assert PlannedTask(PLAN, [1], 0) == Task(1, 1, "backend", "title", Some("text"), Pending, {}, 0);
    assert WithPlanned(map[], PLAN, [1], 0) == map[];
    assert WithPlanned(map[], PLAN, [1], 1) == map[][1 := PlannedTask(PLAN, [1], 0)];
  }

  lemma Planned() returns (t: Trace)
    ensures IsTrace(t)
    ensures Final(t) == FRESH.(db := Db(AwaitingApproval, OneTask(Pending, 0), 0, None), workspace := true)
  {
    t := Trace([FRESH], []);
    t := Then(t, Gate(StartPlanning));
    PlannedRow();
    t := Then(t, Gate(PlanReady(PLAN, [1], 0)));
  }

  /** Planned, approved and loaded by its first session. */
  lemma Loaded() returns (t: Trace)
    ensures IsTrace(t) && InStep(Final(t)) && Final(t).db == Db(Executing, OneTask(Pending, 0), 0, None)
    ensures Final(t).runner.session.steps == 0 && Final(t).recoveries == 0 && Final(t).workspace
    ensures Final(t).publications == [] && Final(t).history == [] && !Final(t).edited && Final(t).shown == NOTHING_SHOWN
    ensures Final(t).qaAttempts == 2
  {
    t := Planned();
    t := Then(t, Gate(DecideRun(true, true)));
    t := Then(t, Board(Load));
  }

  /** The task is tried again and fails. */
  lemma FailOnce(t: Trace, attempts: nat) returns (u: Trace)
    requires IsTrace(t) && InStep(Final(t)) && Final(t).db == Db(Executing, OneTask(Pending, attempts), 0, None)
    requires attempts <= MAX_RETRIES && Final(t).runner.session.steps <= 2 * attempts && Final(t).recoveries == 0
    ensures IsTrace(u) && Final(u).db == Db(Executing, OneTask(Pending, attempts + 1), 0, None) && Final(u).recoveries == 0
    ensures attempts < MAX_RETRIES ==> InStep(Final(u)) && Final(u).runner.session.steps <= 2 * attempts + 2
  {
    var n := WhoseTurn(t, 1);
    FinalInv(t);
    u := StartTurn(t, 1);
    StartLowest(Final(t), 1);
    FailInStep(Final(u), attempts);
    u := Then(u, Board(AttemptFails(0)));
  }

  lemma FailInStep(s: State, attempts: nat)
    requires HasCurrent(s) && s.runner.session.current == Some(1) && s.runner.session.failure.None? && attempts <= MAX_RETRIES
    requires s.runner.session.tasks == s.db.rows == Started(OneTask(Pending, attempts), 1)
    ensures FailWork(s, 0).db == s.db.(rows := OneTask(Pending, attempts + 1))
    ensures attempts < MAX_RETRIES ==> InStep(FailWork(s, 0))
    ensures FailWork(s, 0).runner.session.steps == s.runner.session.steps && FailWork(s, 0).recoveries == s.recoveries
  {
    SameRows(FailWork(s, 0).db.rows, OneTask(Pending, attempts + 1));
  }

  /** A task is started a fourth time although the run has no recovery event: its third attempt fails,
      the process dies before the board is synchronized, and the re-delivery finds nothing in progress. */
  lemma FourthAttemptWithoutRecovery() returns (u: Trace)
    ensures IsTrace(u) && Starts(Final(u).history, 1) == 4 && Final(u).recoveries == 0
  {
    var t := Loaded();
    t := FailOnce(t, 0);
    t := FailOnce(t, 1);
    t := FailOnce(t, 2);
    t := Then(t, Finish(Crash));
    var d: Trace;
    d, u := OverdueTaskIsStarted(t, 1);
  }

  /** The task done and the board synchronized: the first review is due. */
  lemma UnderReview() returns (t: Trace)
    ensures IsTrace(t) && InPhase(Final(t), FirstReview) && Final(t).db == Db(Reviewing, OneTask(Done, 1), 0, None)
    ensures Final(t).workspace && Final(t).publications == [] && !Final(t).edited && Final(t).shown == NOTHING_SHOWN
    ensures Final(t).qaAttempts == 2
  {
    var loaded := Loaded();
    var n := WhoseTurn(loaded, 1);
    var done := DoLowest(loaded, 1);
    assert WithDone(OneTask(Pending, 0), 1) == OneTask(Done, 1);
    t := SyncDone(done);
  }

  lemma SyncDone(t: Trace) returns (u: Trace)
    requires IsTrace(t) && InStep(Final(t)) && Final(t).db == Db(Executing, OneTask(Done, 1), 0, None)
    requires Final(t).runner.session.steps < RECURSION_LIMIT
    ensures IsTrace(u) && InPhase(Final(u), FirstReview)
    ensures Final(u) == Final(t).(db := Db(Reviewing, OneTask(Done, 1), 0, None), runner := Final(u).runner)
  {
    AllIsSettled(Final(t).runner.session);
    u := Then(t, Board(Schedule));
    SameRows(Final(t).db.rows, Synced(Final(t).db.rows, Final(t).runner.session.tasks));
    u := Then(u, Board(Sync));
  }

  lemma AllIsSettled(ses: Session)
    requires forall id :: id in ses.tasks ==> Settled(ses.tasks[id].status)
    ensures Route(ses.tasks) == AllSettled
  {
    assert forall id :: !IsNext(ses.tasks, id);
  }

  /** A run whose secret scan blocked the branch has failed, and one request of the user pushes it. */
  lemma BlockedBranchIsPushed() returns (t: Trace)
    ensures IsTrace(t) && Final(t).db.status == RunFailed && |t.events| >= 2
    ensures t.events[|t.events| - 2..] == [Finish(SecretsScanned(false)), Outside(UserPush)]
    ensures |Final(t).publications| == 1
    ensures var p := Final(t).publications[0];
            p.pusher == User && p.evidence.approved && !p.evidence.secrets && !Vouched(p)
  {
    t := UnderReview();
    t := Then(t, Finish(Verdict(true, 0)));
    t := Then(t, Finish(SandboxRan(false)));
    t := Then(t, Finish(SecretsScanned(false)));
    t := Then(t, Outside(UserPush));
  }

  /** The engine pushes commits no verdict saw: the tests fail after the approval, the QA agent commits a
      fix, and the gates let it through without another review. */
  lemma UnreviewedFixIsPushed() returns (t: Trace)
    ensures IsTrace(t) && |Final(t).publications| == 1
    ensures var p := Final(t).publications[0];
            p.pusher == Engine && p.status == Reviewing && p.evidence == ALL_SHOWN && !p.edited && !Vouched(p)
  {
    t := UnderReview();
    t := Then(t, Finish(Verdict(true, 0)));
    t := Then(t, Finish(SandboxRan(true)));
    t := Then(t, Finish(QaFixed(0)));
    t := PassedGates(t);
  }

  /** From a sandbox run that does not fail to the push. */
  lemma PassedGates(t: Trace) returns (u: Trace)
    requires IsTrace(t) && Final(t).runner.Running? && Final(t).runner.session.phase.Sandbox?
    ensures IsTrace(u) && t.events <= u.events
    ensures Final(u).publications == Pushed(Final(t).(shown := Final(u).shown), Engine).publications
    ensures Final(u) == Final(t).(publications := Final(u).publications, runner := Final(u).runner, shown := Final(u).shown)
    ensures InPhase(Final(u), Finishing) && Final(u).shown == ALL_SHOWN.(approved := Final(t).shown.approved)
  {
    u := Then(t, Finish(SandboxRan(false)));
    u := Then(u, Finish(SecretsScanned(true)));
    u := Then(u, Finish(DependenciesScanned(true)));
    u := Then(u, Finish(Push(true)));
  }

  /** A run completes with a pending task: an agent added it in the revision round. */
  lemma CompletedWithPendingTask() returns (t: Trace)
    ensures IsTrace(t) && Final(t).db.status == Completed
    ensures 2 in Final(t).db.rows && Final(t).db.rows[2].status == Pending
  {
    t := UnderReview();
    t := Then(t, Finish(Verdict(false, 0)));
    assert |OneTask(Done, 1).Keys| == 1;
    t := Then(t, Board(AgentAdds(2, "backend", "later", None)));
    t := Then(t, Finish(RevisionDone));
    t := Approved(t);
  }

  /** From a review to the end, with every gate passed. */
  lemma Approved(t: Trace) returns (u: Trace)
    requires IsTrace(t) && (InPhase(Final(t), FirstReview) || InPhase(Final(t), SecondReview))
    ensures IsTrace(u) && t.events <= u.events && Final(u).db.status == Completed && Final(u).db.rows == Final(t).db.rows
  {
    u := Then(t, Finish(Verdict(true, 0)));
    u := PassedGates(u);
    u := Then(u, Finish(Complete));
  }

  /** A completed run turns into a failed one when its job is delivered again and the first read raises. */
  lemma CompletedRunCanFail(t: Trace) returns (u: Trace)
    requires IsTrace(t) && Final(t).db.status == Completed && Final(t).runner == Idle
    ensures IsTrace(u) && Final(u).db == Final(t).db.(status := RunFailed)
  {
    u := Then(t, Board(Deliver(true)));
    u := Then(u, Outside(JobBreaks));
  }
}
