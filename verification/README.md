# Verification model of the engine

A Dafny 4.11 project that models five parts of the engine, two smaller algorithms beside them, and the
guarantees that follow only when several files agree. `dafny verify dfyconfig.toml` checks everything.

**The task-board run.** A plan becomes a board of tasks; a supervisor works through its in-memory copy while
agents edit the durable rows; a crash loses the copy and recovery rebuilds it.

- `Board` holds the durable rows and every transaction on them, `Routing` the supervisor's routing on a board.
- `RunMachine` is the whole life of a run as a transition system (planning, editing, deciding, attempts, agent
  edits, failures, review, gates, publishing, crashes, re-deliveries, and the user's commits and pushes once it
  is finished); a run is any sequence of enabled events.
- `BoardRefinement` says how memory refines the rows, `RunSafety` is the inductive invariant, `StepCount` the
  account of node steps, `RunTheorems` the guarantees over all runs, `AttemptBound` and `QuietDelivery` how often a
  task can be started.
- `RunRecord` ties the history variables to the events, and `RunOutcome` says what each event does to the status.
- `RunBuilding` builds runs event by event; `RunExamples` uses it for runs that show what is not guaranteed,
  `RunLiveness` to show that an approved run can always complete.
- `Supervisor`, `PlanValidation` and `RunStore` are the code itself (lists, loops, a class over the stored rows),
  proved to do what the specification says.

**The live timeline.** `Timeline` is the protocol of log, wake-ups, connection and client cursor, with the code of
both ends. `Sse` is the text framing: printer, incremental parser, and the standard's parser as a reference.

**The backlog graph.** `Backlog` keeps it acyclic through every edit; `Insights` depends on that.

**The code index.** `CodeIndex` (incremental equals full), `Chunker` (no text lost), `RankFusion`.

**The rate limiter.** `RateLimit`: the bucket over time, and two tables that forget idle callers; `PruneLimit`: exactly
when the in-process one is seen to forget.

**Search and scanning.** `LikeEscape`, and the diff scanners: `DiffText` (structure and text of a diff), `DiffScan`,
`DependencyScan`, and both on the diff as one text: `SplitScan` (what they read), `TextPlaces` and `TextPins` (when it
is right). `Text` and `Wrappers` are shared helpers.

Where the code and its documentation differ the model follows the code. Findings worth knowing:

- A QA fix is committed after the approving verdict and pushed without another review (`UnreviewedFixIsPushed`).
- The push endpoint takes any finished run. A branch the secret scan blocked belongs to a failed run and can be pushed
  (`BlockedBranchIsPushed`). `PushIsUnvouchedIff` says exactly when a push, the engine's or the user's, is not covered
  by verdict and gates.
- The engineers keep their board tools during the revision round, after the board was synchronized. A completed run
  can therefore have pending rows (`CompletedWithPendingTask`), and only those (`CompletedLeavesRevisionTasks`).
- A re-delivery that finds nothing in progress records no recovery event, so a task can be started a fourth time in a
  run without one (`FourthAttemptWithoutRecovery`). Sessions bound the starts (`StartsBounded`); recovery events do
  exactly as long as no such delivery meets an overdue task (`QuietDeliveryIsHarmlessIff`, `RecoveriesBoundStarts`).
- The handler around a job fails a run whatever its status: a completed run can become a failed one
  (`CompletedRunCanFail`, `TerminalRunsAreFrozen`).
- A drain reads the run's status before the events. The completeness of the stream needs that order.
- The polling fallback does not: it reads status and events at once, and one page of events only. It stops incomplete
  after a late commit or with more than a page unseen (`PollingMissesALateCommit`, `PollingStopsAfterOnePage`;
  `PollingMissesBeyondOnePage`, `PollingStopsCompleteIff`).
- Pruning idle callers is seen when ten minutes do not fill a bucket, as with the default burst of 30 at one or two
  requests a minute (`PruningIsInvisibleIff`).
- `splitlines()` also splits at form feeds and other separators, a third way to misplace a scanned line besides the
  "++ " text and the "no newline" marker (`FormFeedMisplaces`, `TextPlacesAreTrueIff`); CRLF line ends are harmless.
- The dependency scanner takes an added "++ " line of any file for a file header, so a line of another file can be
  checked as a manifest's. It keeps the package of a lockfile across hunks, so a line whose package the diff does not
  show is checked as that of an earlier one (`StalePairing`). `PinsAreTrueIff` says exactly when neither matters.
- The separation of the rank fusion holds up to 61 candidates per arm; 30 and 20 are asked for.
- The chunker's coverage needs no order among the definitions, only that they lie within the file.

## Model

| member | source | states |
|---|---|---|
| RunTheorems.SettledNeverExecutesAgain | apps/engine/src/engine/agents/supervisor.py:66-138 | In every run of attempts, agent edits, failures, crashes, recoveries and re-deliveries, a row that is done or skipped keeps its status and its task is never started again, also when the attempt that skipped it fails and the supervisor is not told |
| RunTheorems.ExecutedSequencesNeverDecrease | apps/engine/src/engine/agents/supervisor.py:71-85 | Attempts start in ascending sequence order over the whole run, retries and restarts included |
| RunTheorems.NoDeadlock | apps/engine/src/engine/agents/supervisor.py:71-85 | The deadlock branch is unreachable in every reachable state, and while nothing has failed the lowest-sequence pending task is the one that runs |
| RunTheorems.GraphEndsSettled | apps/engine/src/engine/agents/runner.py:345-372 | When the graph ends no task on its board is pending or running, a clean end means all are done or skipped, and after the synchronization a row is pending exactly when the supervisor never heard of it and no agent skipped it |
| RunTheorems.AttemptsBounded | apps/engine/src/engine/agents/supervisor.py:107-123 | The stored attempts counter of a row or of the board in memory never exceeds two plus one per session |
| AttemptBound.StartsBounded | apps/engine/src/engine/agents/supervisor.py:107-123 | The attempts started at a task, counted in the history, never exceed two plus one per session: three in one session, one more for each resumption; until the run ends the row counts them exactly |
| AttemptBound.StepKeepsCounts | apps/engine/src/engine/agents/runner.py:692-710 | Every event keeps the counters of rows and memory in step with the recorded starts; refused attempts count in memory only |
| QuietDelivery.RecoveriesBoundStarts | apps/engine/src/engine/agents/recovery.py:118-134 | If no re-delivery without a recovery event meets, with budget left, a pending task that used up its attempts, no task is started more than three times plus once per recovery event |
| QuietDelivery.QuietDeliveryIsHarmlessIff | apps/engine/src/engine/agents/recovery.py:118-119 | After any run so far within that bound, a delivery that finds nothing in progress keeps every continuation without further deliveries within it exactly when the budget is gone or no pending task has used up the attempts the recovery events allow |
| RunExamples.FourthAttemptWithoutRecovery | apps/engine/src/engine/worker.py:48-54 | A run with four starts of one task and no recovery event: the third attempt fails, the process dies before the synchronization, and the re-delivery finds nothing in progress |
| RunTheorems.BudgetAndLedger | apps/engine/src/engine/agents/runner.py:102-116 | No attempt starts once recorded spend has reached the cap; recorded spend is the sum of every finished attempt, failed ones included, plus the spend outside attempts |
| RunTheorems.StepsBounded | apps/engine/src/engine/agents/runner.py:337-343 | At most three executor calls per task, exactly two node steps per call plus one or two at the end, so a board that stays within 16 tasks never meets the recursion limit of 100 and one of 17 that needs all its calls does |
| RunTheorems.OneDecisionGovernsTheRun | apps/engine/src/engine/api/runs.py:381-428 | At most one decision is ever claimed; nothing executes and the engine pushes nothing before an approval; a cancelled run was rejected and never executed |
| RunTheorems.EnginePushesOnlyWithEvidence | apps/engine/src/engine/agents/runner.py:374-422 | Every push the engine makes happens under review, after an approving verdict and all three gates of the same session; every other push is the user's, on a completed or failed run |
| RunTheorems.PushIsUnvouchedIff | apps/engine/src/engine/api/runs.py:792-829 | A push carries commits its last session did not approve and let through exactly when the QA agent committed a fix after that session's last verdict, or the push is the user's and the user committed since or the run failed before every gate had passed |
| RunTheorems.FixedMeansQaFix | apps/engine/src/engine/agents/runner.py:522-533 | Whether the branch carries such a fix can be read from the events: a QA fix in the current session with no verdict after it |
| RunExamples.UnreviewedFixIsPushed | apps/engine/src/engine/agents/runner.py:522-533 | The engine itself pushes a fix no verdict saw: the tests fail after the approval, the QA agent commits, and the gates let it through without another review |
| RunExamples.BlockedBranchIsPushed | apps/engine/src/engine/api/runs.py:703-712 | A run whose secret scan blocked the branch has failed, which is a status the push request accepts: the branch goes out |
| RunTheorems.CompletedLeavesRevisionTasks | apps/engine/src/engine/agents/runner.py:374-403 | In a completed run a row is unsettled exactly when an agent added it in the revision round of the last session and no agent skipped it since |
| RunExamples.CompletedWithPendingTask | apps/engine/src/engine/agents/runner.py:374-403 | A run that completes with a pending task, added in its revision round |
| RunTheorems.TerminalRunsAreFrozen | apps/engine/src/engine/agents/recovery.py:78-82 | From a terminal status on, rows, spending, decisions and history stay as they are; the status changes exactly when a delivered job breaks, and to failed; the pushes change exactly when the user pushes |
| RunExamples.CompletedRunCanFail | apps/engine/src/engine/agents/runner.py:197-207 | A completed run becomes a failed one when its job is delivered again and the first read raises |
| RunTheorems.RunKeepsInv | apps/engine/src/engine/agents/runner.py:308-431 | Every state of every run satisfies the inductive invariant that ties rows, memory, history, spend and lifecycle together |
| RunOutcome.ReviewFailsIff | apps/engine/src/engine/agents/runner.py:374-431 | Under review a run fails exactly at the second rejection of a session, at a failed test run after as many QA fixes since the verdict as are allowed, at a scan with findings or when something breaks; it completes exactly at the end, and otherwise the session goes on unless the process dies |
| RunOutcome.FixesAreBounded | apps/engine/src/engine/agents/runner.py:522-545 | Since a verdict there are never more QA fixes than the configured number, which never changes during a run |
| RunOutcome.FixThenTest | apps/engine/src/engine/agents/runner.py:528-533 | After a failed test run with a fix left comes the next fix, and after the fix the tests run again |
| RunOutcome.StatusMoves | apps/engine/src/engine/agents/runner.py:345-372 | Where each event outside review takes the status, for every event of every run |
| RunOutcome.RejectionSkipsEverything | apps/engine/src/engine/api/runs.py:381-421 | In every state of a run whose plan was rejected every task is skipped |
| RunRecord.SpendIsTheCosts | apps/engine/src/engine/agents/runner.py:722-742 | Recorded spend is the total cost of all events that cost something, and the cap never moves |
| RunRecord.NoStartBeyondTheCap | apps/engine/src/engine/agents/runner.py:102-116 | No event starts an attempt once the costs so far have reached the cap |
| RunRecord.HistoryIsTheStarts | apps/engine/src/engine/agents/runner.py:692-710 | The history the guarantees speak of is exactly the attempts started, in order, at the current task, with its row's sequence and the spend at that moment |
| RunRecord.SettledTaskIsNotStarted | apps/engine/src/engine/agents/supervisor.py:66-138 | In events: once a task is done or skipped no later event starts an attempt at it |
| RunRecord.CountsAreTheEvents | apps/engine/src/engine/agents/recovery.py:100-134 | Decisions, sessions, recovery events and the user's commits are recorded as they happen, and nothing else is |
| RunRecord.PublicationsAreThePushes | apps/engine/src/engine/agents/runner.py:462-509 | The publications are exactly the pushes, in order, with the status and evidence of that moment |
| RunRecord.ShownIsEstablished | apps/engine/src/engine/agents/runner.py:374-422 | Each piece of evidence holds exactly when its own event (approving verdict, test run that did not fail, clean secret scan, clean dependency scan) happened in the current session |
| RunRecord.EnginePushFollowsItsGates | apps/engine/src/engine/agents/runner.py:403-422 | In events: before the engine pushes, the same session had the approving verdict and each of the three passed gates |
| RunRecord.WorkspaceIsThePlans | apps/engine/src/engine/agents/runner.py:235-277 | A run has a workspace exactly from its stored plan on, until that is reset or rejected |
| RunRecord.UserNeedsAPlan | apps/engine/src/engine/api/runs.py:703-712 | The user commits and pushes only in a completed or failed run that has its plan |
| RunLiveness.ApprovedRunCanComplete | apps/engine/src/engine/agents/recovery.py:100-134 | From every reachable state of an approved, unfinished run with budget left, crashes included, some continuation completes it with every task settled, the same tasks on the board and the settled ones as they were |
| BoardRefinement.NeverStuck | apps/engine/src/engine/agents/supervisor.py:71-85 | Memory that refines a well-formed board either has nothing pending or has an eligible task, so routing never reports a deadlock |
| BoardRefinement.ScheduleKeeps | apps/engine/src/engine/agents/supervisor.py:71-93 | The scheduling node keeps the refinement between rows and memory, whatever it routes to |
| BoardRefinement.StartKeeps | apps/engine/src/engine/agents/runner.py:692-710 | Starting an attempt moves row and memory together and keeps the refinement |
| BoardRefinement.GivingBackKeeps | apps/engine/src/engine/agents/runner.py:722-742 | A failed attempt puts row and memory back in step although agents may have edited other rows meanwhile |
| BoardRefinement.AgentAddKeeps | apps/engine/src/engine/agents/tools.py:241-288 | A task added mid-attempt leaves memory a refinement of the rows: only the current attempt drifts |
| BoardRefinement.AgentSkipKeeps | apps/engine/src/engine/agents/tools.py:291-333 | A task skipped mid-attempt leaves memory a refinement of the rows: the drift is held by the current task |
| BoardRefinement.SuccessKeeps | apps/engine/src/engine/agents/runner.py:744-772 | After a successful attempt the merge has caught up: memory equals the rows in shape and status |
| BoardRefinement.SyncedBoard | apps/engine/src/engine/agents/runner.py:345-366 | Writing the final states back gives every row the supervisor knew its status, leaves the others, and keeps the board well formed |
| RunSafety.StepKeepsInv | apps/engine/src/engine/agents/recovery.py:100-134 | Every event of the run machine, crashes, resets, re-deliveries, failing jobs and the user's commits and pushes included, keeps the invariant |
| StepCount.StepKeepsCount | apps/engine/src/engine/agents/supervisor.py:104-136 | Every event keeps the account of node steps, executor calls made and calls left |
| Board.EditKeepsBoard | apps/engine/src/engine/api/runs.py:302-365 | A plan edit that is accepted keeps the board well formed: no survivor depends on a dropped task, dependencies still point to lower sequences |
| Board.EditKeepsDependencies | apps/engine/src/engine/api/runs.py:342-351 | After an edit each survivor has exactly its old dependencies minus the dropped tasks |
| Board.AddKeepsBoard | apps/engine/src/engine/agents/tools.py:262-287 | The added task joins above every sequence, without dependencies, and the board stays well formed within its 30-row cap |
| Board.SkipKeepsBoardIff | apps/engine/src/engine/agents/tools.py:307-317 | Skipping a pending task keeps the board free of unfinished tasks that wait on skipped ones exactly when no unfinished task depends on it: the refusal is the right one |
| Board.PlannedRowsWellFormed | apps/engine/src/engine/agents/runner.py:259-271 | The rows stored for a valid plan form a well-formed board, whatever ids they get |
| Board.StoredPlanIs | apps/engine/src/engine/agents/runner.py:259-277 | Each stored row carries its plan task's role, title and description, is pending and untried, has its position as sequence, and depends on exactly the rows at the positions the plan names |
| Board.EditPlanMeans | apps/engine/src/engine/api/runs.py:302-365 | Which edits are accepted and which error the others get; of an accepted one exactly the dropped rows are gone, each text is the one last sent, a blank description clears and one not sent stays, and dependencies on dropped rows are gone |
| Board.AddTaskMeans | apps/engine/src/engine/agents/tools.py:262-287 | Adding leaves every row and adds one pending, untried task without dependencies, one above the highest sequence |
| PlanValidation.FaultMeans | apps/engine/src/engine/agents/product_manager.py:126-161 | What each fault is: not an object, no title, a role that is none of the three, or a position that is not an earlier one, in this order; otherwise there is none |
| PlanValidation.ValidatePlan | apps/engine/src/engine/agents/product_manager.py:126-161 | A plan is accepted exactly when it has a summary, one to eight tasks and no faulty one; otherwise the blank summary, then the wrong count, then the first faulty task is reported; what is accepted is the cleaned text with dependencies on earlier tasks only |
| PlanValidation.AcceptedPlanMakesABoard | apps/engine/src/engine/agents/runner.py:259-271 | Whatever plan is accepted becomes a well-formed board with sequences 1 to n: the scheduler's assumption is discharged at the gate |
| Supervisor.ScheduleFollowsRoute | apps/engine/src/engine/agents/supervisor.py:66-93 | The list code (eligible tasks, minimum by sequence, deadlock report) routes exactly as the specification on the board as a map, and the edge after it leads to the chosen task, to finalizing after a failure or deadlock, and to the end when all is settled |
| Supervisor.BeginTask | apps/engine/src/engine/agents/supervisor.py:104-111 | In a copy of the list the current task is in progress with one attempt more; every other is as before |
| Supervisor.GiveBackTask | apps/engine/src/engine/agents/supervisor.py:112-123 | After an exception the current task is pending again, or failed with the run giving up once its attempts exceed two; every other is as before |
| Supervisor.MergeOutcome | apps/engine/src/engine/agents/supervisor.py:124-136 | After a success the list is the old board with the task done, the unknown new tasks appended and the reported skips applied to pending tasks only |
| Routing.AfterSuccessMeans | apps/engine/src/engine/agents/supervisor.py:124-136 | Task by task: the current one is done, unknown ones have joined as reported, pending ones reported as skipped are skipped, all else is as before |
| Supervisor.Finalize | apps/engine/src/engine/agents/supervisor.py:96-101 | Turns pending tasks, and only those, into skipped ones |
| RunStore.RunStore.CreateBoard | apps/engine/src/engine/agents/runner.py:259-277 | The planning loop stores exactly the planned rows, with positions resolved to ids, and stops at the approval gate |
| RunStore.RunStore.EditThePlan | apps/engine/src/engine/api/runs.py:311-365 | Checks, retitling, deletion and dependency repair add up to the edit transaction; a refused edit changes nothing |
| RunStore.RunStore.DecideRun | apps/engine/src/engine/api/runs.py:381-421 | The compare-and-set claims the decision only from the approval gate; an approval leaves the rows, a rejection skips every one |
| RunStore.RunStore.AddTask | apps/engine/src/engine/agents/tools.py:245-287 | The tool inserts one row with the next sequence, or refuses with the first of its checks that fails: blank title, role, full board |
| RunStore.RunStore.UpdateTaskStatus | apps/engine/src/engine/agents/tools.py:296-333 | The tool skips the task of that sequence exactly when it is pending and nothing unfinished depends on it |
| RunStore.RunStore.BeginAttempt | apps/engine/src/engine/agents/runner.py:692-710 | Refuses on an exhausted budget without touching the rows; otherwise the row is running with the attempt counted |
| RunStore.RunStore.FailAttempt | apps/engine/src/engine/agents/runner.py:722-741 | The row goes back to pending and the usage is charged |
| RunStore.RunStore.FinishAttempt | apps/engine/src/engine/agents/runner.py:744-772 | The row is done, the usage charged, and what is reported is every row not known before and every skipped row |
| RunStore.RunStore.Sync | apps/engine/src/engine/agents/runner.py:345-372 | The loop over the final states writes them back and the run fails or goes to review |
| RunStore.RunStore.ResetInterruptedPlanning | apps/engine/src/engine/agents/recovery.py:68-97 | Only a run frozen in planning (or queued, if asked) loses its rows and is queued again |
| RunStore.RunStore.ResetInterruptedExecution | apps/engine/src/engine/agents/recovery.py:100-134 | Running rows go back to pending and the run to executing, except for a clean first delivery, which is left alone; any other status refuses |
| RunStore.RunStore.LoadBoard | apps/engine/src/engine/agents/runner.py:308-335 | A session starts only from the executing status, with every row exactly once, lowest sequence first |
| Timeline.TimelineIsExact | apps/engine/src/engine/api/runs.py:903-932 | At every moment the client shows exactly the log entries up to its cursor, in order and without duplicates, under lost pings, dropped connections and resumes |
| Timeline.EndMeansComplete | apps/engine/src/engine/api/runs.py:925-931 | When the client has seen the end, it shows every event committed up to and with the terminal status |
| Timeline.ClientCanCatchUp | apps/engine/src/engine/api/runs.py:903-932 | Once the run has ended, from every reachable state a client that streams can reach the end of the stream without anything more being committed, and then holds everything |
| Timeline.ResumedStreamSendsNews | apps/web/src/components/runs/run-detail-panel.tsx:330-344 | What a resumed stream sends is always new to the client and continues its timeline without a gap |
| Timeline.PollingStopsCompleteIff | apps/web/src/components/runs/run-detail-panel.tsx:355-368 | The polling fallback stops with a complete timeline exactly when it already held everything sealed, or its last page was fetched after the final commit and the unseen sealed events fit into one page of 500 |
| Timeline.PollingMissesALateCommit | apps/web/src/components/runs/run-detail-panel.tsx:357-367 | A run that stops polling without the last event: the page was read before the final commit, the status after it |
| Timeline.PollingMissesBeyondOnePage | apps/engine/src/engine/api/runs.py:831-848 | In every run, a polling round that finds more than 500 sealed events unseen leaves the client without some of them, in whatever order it reads, and stops it there if the status was read as finished |
| Timeline.PollingStopsAfterOnePage | apps/web/src/components/runs/run-detail-panel.tsx:355-369 | For every log of more than 500 events there is such a run: the client held nothing and stops after one page |
| Timeline.TimelineView.OnPage | apps/web/src/components/runs/run-detail-panel.tsx:361-364 | A polled page is appended and moves the cursor to its last row; an empty one changes nothing |
| Timeline.StepKeepsInv | apps/engine/src/engine/api/runs.py:871-932 | Commits, queries, sends, drops, resumes, receipts and polls all keep log, wire, page and client in step |
| Timeline.TimelineView.OnMessage | apps/web/src/components/runs/run-detail-panel.tsx:332-338 | The callback appends an entry and advances the cursor exactly when its id is beyond the cursor |
| Timeline.EventStream.constructor | apps/engine/src/engine/api/runs.py:919-920 | A connection starts at the larger of the query cursor and Last-Event-ID |
| Timeline.EventStream.Drain | apps/engine/src/engine/api/runs.py:925-931 | One pass sends the next batch of at most 500, leaves the cursor at its last entry and closes only on a short batch with a terminal status |
| Timeline.DrainAdvances | apps/engine/src/engine/api/runs.py:871-900 | A pass sends the log from the cursor without a gap, and a short batch is all there was |
| Sse.ChunkingIsInvisible | apps/web/src/lib/sse.ts:12-28 | However the text is cut into chunks, the events yielded and the text left over are those of the whole text |
| Sse.RoundTrip | apps/engine/src/engine/api/chat.py:41-42 | Parsing the concatenated printouts of any list of printable events returns the list with nothing left over |
| Sse.RoundTripIffPrintable | apps/engine/src/engine/api/chat.py:41-42 | One event survives printing and parsing exactly when name and data are trimmed and free of line feeds and the data is not empty |
| Sse.ParsedEventsArePrintable | apps/web/src/lib/sse.ts:16-27 | Whatever text arrives, every event yielded is trimmed, free of line feeds and has data |
| Sse.StandardAgrees | apps/web/src/lib/sse.ts:16-27 | On tidy text (single data lines, no stray white space) the parser yields what the line-by-line parser of section 9.2 of the WHATWG HTML Living Standard dispatches |
| Sse.StandardReadsPrintedEvents | apps/engine/src/engine/api/chat.py:41-42 | A client that implements the standard reads the same list back from the printed text |
| Sse.Parser.Feed | apps/web/src/lib/sse.ts:14-28 | The buffer loop yields the events of all complete blocks and keeps the rest |
| Sse.Parser.ReadBlock | apps/web/src/lib/sse.ts:19-26 | The line loop reads the last event name and the joined data of a block, and yields nothing without data |
| Sse.BlockMeans | apps/web/src/lib/sse.ts:19-26 | A block yields an event exactly if its data lines have text: their trimmed values joined, named by the last event line, or message without one |
| Backlog.ClosesCycle | apps/engine/src/engine/api/work_items.py:193-215 | The worklist terminates and answers whether the item is reachable from a proposed dependency, by any path |
| Backlog.EditIsAcyclicIff | apps/engine/src/engine/api/work_items.py:196-199 | An edit leaves the graph acyclic exactly when no proposed dependency reaches the item: the check refuses every edit that closes a cycle and no other |
| Backlog.ReachingTheEditedItem | apps/engine/src/engine/api/work_items.py:200-215 | Walking the old graph is enough: whether the item is reached does not depend on its own dependencies |
| Backlog.CreationKeepsAcyclic | apps/engine/src/engine/api/work_items.py:218-240 | A new item needs no check: with known dependencies it cannot close a cycle |
| Backlog.RoadmapKeepsAcyclic | apps/engine/src/engine/agents/scrum_master.py:161-188 | Adding a roadmap in bulk without any check keeps the backlog closed and acyclic |
| Backlog.ValidateDependencies | apps/engine/src/engine/api/work_items.py:162-190 | Self-references are dropped; unknown ids are reported, also when there is a cycle; with all known the answer is a cycle exactly when the item is reached from one of them, and otherwise the ids |
| Backlog.OthersInOrder | apps/engine/src/engine/api/work_items.py:165-168 | Self-references are dropped and the rest kept, element by element and in order |
| Backlog.MissingInOrder | apps/engine/src/engine/api/work_items.py:176-180 | The unknown ids are reported element by element and in order |
| Backlog.FaultMeans | apps/engine/src/engine/agents/scrum_master.py:128-158 | What each fault of a roadmap item is, in this order: not an object, no title, a position that is not an earlier one |
| Backlog.ValidateRoadmap | apps/engine/src/engine/agents/scrum_master.py:128-158 | Accepts exactly the roadmaps of 1 to 20 faultless items whose positions are earlier ones; otherwise the wrong count, or else the first fault, is reported |
| Backlog.BacklogStore.CreateWorkItem | apps/engine/src/engine/api/work_items.py:219-240 | Adds the item exactly when every dependency is known, and keeps the backlog closed and acyclic |
| Backlog.BacklogStore.UpdateWorkItem | apps/engine/src/engine/api/work_items.py:265-282 | Every field sent is in the result and every other is the old one; dependencies are refused exactly when unknown or when they would close a cycle, and then nothing changes |
| Backlog.BacklogStore.PersistRoadmap | apps/engine/src/engine/agents/scrum_master.py:161-188 | The two passes add exactly the roadmap's items with positions resolved to their ids, leave the rest, and keep the backlog acyclic |
| Insights.PlanInsights | apps/engine/src/engine/planning/insights.py:43-77 | Reports exactly the blocked items in board order and recommends the first item in board order among the most urgent unblocked startable ones, or nothing if there is none |
| Insights.RecommendedIsMostUrgent | apps/engine/src/engine/planning/insights.py:19-24 | By labels: the recommended item is critical if any candidate is, else high if any is, and low only if all are; no earlier candidate is as urgent |
| Insights.ConditionsMean | apps/engine/src/engine/planning/insights.py:43-68 | By labels: blocked is what is neither done nor cancelled and waits on an item of the board that is not done; a candidate is proposed, ready or on hold and waits on none |
| Insights.BlockedInOrder | apps/engine/src/engine/planning/insights.py:52-62 | The report is item by item in board order, with what each waits on |
| Insights.AcyclicBacklogProgresses | apps/engine/src/engine/planning/insights.py:52-72 | In an acyclic backlog where no unsettled item waits on a cancelled one, while anything is unsettled some item is recommendable or in progress and unblocked |
| Insights.CycleStallsTheBacklog | apps/engine/src/engine/api/work_items.py:196-199 | Two items waiting on each other leave nothing to recommend: acyclicity is needed |
| Insights.CancelledDependencyStallsTheBacklog | apps/engine/src/engine/planning/insights.py:4-7 | One item waiting on a cancelled one stalls an acyclic backlog: the other condition is needed too |
| Insights.SortedHeadIsFirstBest | apps/engine/src/engine/planning/insights.py:70-72 | The head of the stable sort is the first of the items with the smallest key |
| Insights.SortKeepsItems | apps/engine/src/engine/planning/insights.py:71-71 | The stable sort rearranges and loses nothing |
| CodeIndex.IncrementalEqualsFull | apps/engine/src/engine/indexing/indexer.py:84-153 | After any history of snapshots the stored chunks, fingerprints and edges are those of a first index of the last snapshot: the same rows equally often, each file's in the same order |
| CodeIndex.IndexHoldsTheFiles | apps/engine/src/engine/indexing/indexer.py:104-135 | After any history the index holds, for every file of the last snapshot, its digest and one row for each of its chunks, in order, with that chunk's embedding |
| CodeIndex.IndexHoldsNothingElse | apps/engine/src/engine/indexing/indexer.py:117-122 | And nothing for any other path; its edges are those of the last snapshot |
| CodeIndex.CountsMean | apps/engine/src/engine/indexing/indexer.py:97-102 | A file counts as changed exactly if its digest is not the stored one, a path as deleted exactly if it is stored and has no file, and every file counts once |
| CodeIndex.ReindexMirrorsIff | apps/engine/src/engine/indexing/indexer.py:97-119 | One incremental run yields the new snapshot's index exactly when no change is hidden from the digest |
| CodeIndex.SameSnapshotIsFree | apps/engine/src/engine/indexing/indexer.py:97-102 | Indexing an unchanged snapshot embeds nothing and changes nothing |
| CodeIndex.RowsAfter | apps/engine/src/engine/indexing/indexer.py:117-135 | After the delete and the inserts a path has its new rows if it changed, none if it vanished and its old rows otherwise |
| CodeIndex.IndexStore.BuildIndex | apps/engine/src/engine/indexing/indexer.py:84-153 | One run updates the three tables as specified and reports how many files there are, changed and vanished, and how many chunks were written |
| CodeIndex.IndexStore.ChunkFiles | apps/engine/src/engine/indexing/indexer.py:104-110 | The chunks of the changed files, in walk order |
| CodeIndex.IndexStore.Embed | apps/engine/src/engine/indexing/indexer.py:156-160 | Embedding in batches of 64 loses, repeats and reorders nothing |
| CodeIndex.FingerprintsAreCurrent | apps/engine/src/engine/indexing/indexer.py:178-195 | After any run the fingerprints are the digests of the current files, whatever was stored before |
| Chunker.NoLineIsLost | apps/engine/src/engine/indexing/chunker.py:155-241 | Every line that is not blank lies in a chunk and its stripped text is part of that chunk's content, for any definitions and on every fallback |
| Chunker.ChunksAreFaithful | apps/engine/src/engine/indexing/chunker.py:212-241 | Each chunk's content is the stripped join of the lines it names, is not empty and spans at most 200 lines |
| Chunker.WindowsOverlap | apps/engine/src/engine/indexing/chunker.py:219-241 | Adjacent windows share exactly ten lines, every window but the last has sixty, and each goes past the one before |
| Chunker.DefinitionStaysWhole | apps/engine/src/engine/indexing/chunker.py:194-197 | A definition of at most 200 lines with text in it is a chunk of its own, never cut |
| Chunker.FileIsCovered | apps/engine/src/engine/indexing/chunker.py:177-200 | Every line of the file lies in some range, whatever the order of the definitions |
| Chunker.Window | apps/engine/src/engine/indexing/chunker.py:219-241 | The loop cuts exactly the specified windows and drops those without text |
| Chunker.ChunkByAst | apps/engine/src/engine/indexing/chunker.py:177-200 | The cursor loop emits gaps as windows, definitions whole unless too long, and the tail |
| Chunker.ChunkFile | apps/engine/src/engine/indexing/chunker.py:155-174 | A file of at most 60 lines is one chunk, if it has text; a longer one has every definition of at most 200 lines with text as a chunk of its own; without definitions it is windowed |
| Chunker.FileIsTiled | apps/engine/src/engine/indexing/chunker.py:177-241 | With definitions in file order the ranges lie end to end from the first line to the last, only consecutive windows share lines, exactly ten, and a range of more than 60 lines is a definition of at most 200 |
| Chunker.RangesRespectDefinitions | apps/engine/src/engine/indexing/chunker.py:177-200 | No range crosses the edge of a definition |
| RankFusion.BothArmsComeFirst | apps/engine/src/engine/indexing/retrieval.py:90-99 | With at most 61 candidates per arm whatever both arms found precedes whatever one found, whatever ranks and distances |
| RankFusion.SeparationFailsAtSixtyTwo | apps/engine/src/engine/knowledge/recall.py:100-109 | The bound is tight: with 62 candidates the item both arms rank last can come after the first of one arm |
| RankFusion.ArmsCommute | apps/engine/src/engine/indexing/retrieval.py:90-100 | Swapping the arms leaves the ranking unchanged when they report equal distances |
| RankFusion.FusedIsRanking | apps/engine/src/engine/indexing/retrieval.py:100-100 | The ranking holds every candidate once, in strict order of score, then distance, then id |
| RankFusion.OrderedIsUnique | apps/engine/src/engine/knowledge/recall.py:110-110 | The order determines the list, so any correct sort gives the same answer |
| RankFusion.Fuse | apps/engine/src/engine/knowledge/recall.py:100-123 | The dictionaries filled by the nested loops yield the ids of the first entries of the ranking, as many as the limit allows |
| RankFusion.EntryMeans | apps/engine/src/engine/indexing/retrieval.py:95-99 | A candidate scores 1/(60 + place) for each arm that lists it, and its distance is that of the second arm if it is there |
| RankFusion.RankingMeans | apps/engine/src/engine/indexing/retrieval.py:100-100 | The ranking is by falling score, then by distance, then by id |
| RankFusion.AddArm | apps/engine/src/engine/indexing/retrieval.py:95-99 | One pass adds the weight of every place to its id's score, keeps insertion order and lets the last distance stand |
| RateLimit.TokenBucket.Take | apps/engine/src/engine/ratelimit.py:43-50 | Refills up to the capacity, takes a token if there is a whole one, and otherwise answers the time until there is |
| RateLimit.RateBound | apps/engine/src/engine/ratelimit.py:43-50 | In every stretch of a monotone run at most the capacity plus rate times elapsed time is allowed |
| RateLimit.TakeKeepsSound | apps/engine/src/engine/ratelimit.py:45-48 | Tokens stay between zero and the capacity |
| RateLimit.WaitIsExact | apps/engine/src/engine/ratelimit.py:44-50 | A denied caller is next allowed exactly from the returned wait onward if the capacity is at least one, and never otherwise |
| RateLimit.EarlyRetriesLeaveNoTrace | apps/engine/src/engine/ratelimit.py:45-50 | Retrying too early, however often, does not postpone the next token |
| RateLimit.SteadyCallerIsAllowed | apps/engine/src/engine/ratelimit.py:43-50 | A caller that leaves the refill time of one token between takes is never denied |
| RateLimit.ForgettingIsInvisible | apps/engine/src/engine/ratelimit.py:60-73 | A table that forgets only buckets that would be full answers every series of requests like one that never forgets |
| PruneLimit.PruningIsInvisibleIff | apps/engine/src/engine/ratelimit.py:60-73 | The limiter that prunes answers every series of requests in order like one that never forgets exactly when the capacity is at most 600 times the rate or below one |
| PruneLimit.PruningShows | apps/engine/src/engine/ratelimit.py:68-73 | Otherwise one caller who drains his bucket, 5000 others, and more than ten idle minutes give a series of requests that is answered differently |
| RateLimit.LocalPruningIsInvisible | apps/engine/src/engine/ratelimit.py:68-73 | The pruning limiter is indistinguishable whenever the capacity is at most 600 times the rate |
| RateLimit.PruningRuleIsSafeIff | apps/engine/src/engine/ratelimit.py:34-35 | Ten idle minutes fill every possible bucket exactly when the capacity is at most 600 times the rate |
| RateLimit.ForgettingIsVisibleUnlessFull | apps/engine/src/engine/ratelimit.py:63-66 | Replacing a bucket by a new one goes unnoticed exactly when it would be full |
| RateLimit.ExpiryIsInvisible | apps/engine/src/engine/ratelimit.py:115-116 | The shared limiter's time to live is never seen, whatever capacity and rate |
| RateLimit.LocalLimiter.Take | apps/engine/src/engine/ratelimit.py:60-66 | Prunes, finds or creates the caller's bucket and takes from it; no other bucket changes and no two callers share one |
| RateLimit.LocalLimiter.Prune | apps/engine/src/engine/ratelimit.py:68-73 | Up to 5000 callers nobody is dropped; above that exactly those idle for more than 600 seconds |
| RateLimit.SharedLimiter.RunScript | apps/engine/src/engine/ratelimit.py:81-102 | The script answers and stores what a take from the caller's unexpired or new bucket answers and leaves |
| RateLimit.SharedLimiter.Take | apps/engine/src/engine/ratelimit.py:115-130 | One bucket for all while the store is reachable, otherwise this replica's own; the other table is untouched |
| LikeEscape.EscapedPatternMeansContains | apps/engine/src/engine/api/runs.py:448-451 | Under section 8.5 of ISO/IEC 9075-2 with escape character backslash, the wrapped pattern matches a text exactly when the query is a substring up to case folding |
| LikeEscape.SearchFindsContaining | apps/engine/src/engine/api/runs.py:445-451 | The pattern a search builds matches exactly the texts that contain the trimmed query up to case, and a query without ink builds none |
| LikeEscape.EscapeIsInjective | apps/engine/src/engine/api/runs.py:450-450 | Different queries never share a pattern |
| LikeEscape.UnescapedQueryOvermatches | apps/engine/src/engine/api/runs.py:449-449 | Without escaping, a query of one underscore matches texts that do not contain it |
| DiffScan.PlacesAreTrueIff | apps/engine/src/engine/security/secrets_scanner.py:65-89 | Over a printed diff, deleted files and files without hunks included, every added line is looked at once, in order, under its true path and new-file line, exactly when no added text starts with "++ " and nothing is added after a "no newline" marker of its hunk |
| DiffScan.AddedLinesStand | apps/engine/src/engine/security/secrets_scanner.py:81-88 | The true places are true: the new file has that text at that line |
| TextPlaces.TextPlacesAreTrueIff | apps/engine/src/engine/security/secrets_scanner.py:65-89 | Of the diff as one text, split by splitlines() at whatever its lines hold: paths and line numbers are right if no further part of a line starts with a plus, no added text starts with "++ " and the line counter, moved or reset by the parts, is right at every added line; and only then, unless a part that adds a line meets one that hides a line |
| TextPlaces.TwoWrongsCancel | apps/engine/src/engine/security/secrets_scanner.py:70-89 | Why that case is apart: an added line taken for a header and a part taken for an added line can leave the right path and number |
| SplitScan.DiffAlike | apps/engine/src/engine/security/secrets_scanner.py:70-70 | From any state, either scanner reads the split text as another diff: every line cut at its first separator, and every further part an added, removed or unchanged line or the start of a hunk |
| SplitScan.CarriageReturnIsSafe | apps/engine/src/engine/security/secrets_scanner.py:70-70 | The carriage return of a CRLF file splits nothing off: the line is read without it |
| DiffScan.FormFeedMisplaces | apps/engine/src/engine/security/secrets_scanner.py:70-70 | A form feed in an unchanged line shifts the reported number of what follows |
| DiffScan.ScanDiff | apps/engine/src/engine/security/secrets_scanner.py:65-89 | The loop reports the findings of the places it visits, in order |
| DiffScan.FindingsInOrder | apps/engine/src/engine/security/secrets_scanner.py:81-88 | One finding for each place whose text a rule matches, in order, and none for the others |
| DiffText.HeaderRoundTrip | apps/engine/src/engine/security/secrets_scanner.py:61-62 | The new-file start is read back from any printed hunk header |
| DiffText.HeadersHaveShape | apps/engine/src/engine/security/secrets_scanner.py:61-62 | Only a line of a hunk header's shape is taken for one, and the start read is that of its second range |
| DiffText.PathRoundTrip | apps/engine/src/engine/security/secrets_scanner.py:123-127 | The path is read back from a printed name line if it has no tab and no white space at its end |
| DiffText.SplitUndoesJoinIff | apps/engine/src/engine/security/secrets_scanner.py:70-70 | Splitting a diff into lines undoes joining exactly when no line holds a line-ending character |
| DependencyScan.PinsAreTrueIff | apps/engine/src/engine/security/dependency_scanner.py:107-150 | The second scanner looks at exactly the added lines of manifest files, at their true places, pairing a lockfile line with the package named last at or before it in the new file, exactly when no added line of a manifest looks like a header or follows a "no newline" marker, no hunk whose added line comes before any package name of the hunk has a different name nearest above it that no hunk shows, and no other file adds a line after one that names a manifest the way a header does |
| DependencyScan.LastKeyMeans | apps/engine/src/engine/security/dependency_scanner.py:133-139 | The package named last is that of the last line of a lockfile that names one; lines of other manifests name none |
| DependencyScan.StalePairing | apps/engine/src/engine/security/dependency_scanner.py:107-131 | A lockfile changed in two packages of which the diff shows only the first one's name: whatever they are, the second line is paired with the first package |
| TextPins.TextPinsAreTrueIff | apps/engine/src/engine/security/dependency_scanner.py:107-150 | The same of the diff as one text off whose lines at most a carriage return is cut, against the new files as cut |
| DependencyScan.PinsAreAddedLines | apps/engine/src/engine/security/dependency_scanner.py:140-149 | The true pins of a hunk of a manifest are its added lines at their true places |
| DependencyScan.ScanDiff | apps/engine/src/engine/security/dependency_scanner.py:107-150 | The loop reports the findings of the pinned lines, in order |

## Left out

- Model calls, prompts, the tool loop and token accounting: an attempt is success or failure, board edits and a cost.
- Docker, git, HTTP, Redis and Postgres internals: a session is an atomic transaction, a gate an outcome.
- Event payloads, timestamps, task results and titles in events: the log holds ids; the timeline proves order and completeness.
- `publish_run_ping` and `RunEventSubscription.wait`: a send that may be lost and a wake-up at any time; no guarantee depends on either.
- Ids are integers instead of UUIDs; the rank fusion numbers them in the order of their text.
- A run's dependency lists are sets: order and repeats in them are never read. The order of rows in an unordered SELECT is arbitrary.
- The similarity score and the other fields returned with a fused candidate: the fusion returns ids in order.
- Money is in micro-dollars, already rounded; limiter times, amounts and fusion scores are real numbers without rounding.
- Plan edits racing a decision, concurrent backlog edits and concurrent index runs: serialized here, the code does not prevent them. One runner works on a run.
- The budget check guards task attempts only, as in the code: review, revision and QA may spend beyond the cap.
- The edit's count of edited tasks is not returned; the plan header and summary text are not stored.
- RunTheorems.GraphEndsSettled: says nothing about rows added after the synchronization; RunTheorems.CompletedLeavesRevisionTasks does.
- RunTheorems.TerminalRunsAreFrozen: a job breaks outside a session only while no other runner works on the run; the user's edits of workspace files show as a commit.
- RunTheorems.PushIsUnvouchedIff: a commit the user makes always changes something, and the push reaches the host; a run without a remote is refused. Deleting a run is not modelled.
- Timeline.EndMeansComplete: assumes event ids in commit order within a run; a run deleted while streamed (the drain then reports failed) is not modelled.
- Timeline.PollingStopsCompleteIff: the panel is not closed while it polls; closing it ends the rounds at any point.
- Sse.RoundTrip: data is the encoded JSON text, trimmed and free of line feeds; UTF-8 decoding across chunks and JSON itself are not modelled.
- Sse.StandardAgrees: line ends are line feeds and a block has at most one data line, because the parser joins several without the standard's line feed.
- Work items keep title, status, priority and dependencies; kind, estimate, milestone and position are not stored, and board order is the given list.
- Insights.AcyclicBacklogProgresses: says that something can move, not how long it takes.
- CodeIndex.IncrementalEqualsFull: the digest is injective, chunker, embedding and import graph are functions; row ids and the failure path of an index run are not modelled.
- Chunker.NoLineIsLost: tree-sitter is an input (definitions within the file, or none); file selection and size caps are not modelled.
- RateLimit.RateBound: clocks are monotone; the shared limiter's wall clock may jump in reality. The Retry-After header, which rounds, is not modelled.
- RateLimit.ExpiryIsInvisible: the capacity and the rate stay the same over the series of requests.
- LikeEscape.EscapedPatternMeansContains: case folding is one character to one character.
- DiffScan.PlacesAreTrueIff: quoted file names and hunk numbers in other than ASCII digits are not modelled; the secret rules are an input.
- TextPlaces.TextPlacesAreTrueIff: file names are single lines; compares paths and numbers, because the text of a line is read up to its first separator; a diff with both a part that adds a line and one that looks like a header may be right or wrong (TextPlaces.TwoWrongsCancel).
- DependencyScan.PinsAreTrueIff: the hunks stand in the new files in ascending order; manifest, key and advisory patterns are inputs, and the marker line names no package. A pin is stated for every added line, whether or not it holds a version.
- TextPins.TextPinsAreTrueIff: a line with a further part is left out; SplitScan.DiffAlike says what the scanner makes of it.
- Row-level security, authentication, webhooks, settings, rendering and migrations: flat case splits or library calls.
