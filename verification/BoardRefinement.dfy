/** How the supervisor's in-memory board relates to the durable rows while the graph runs, and why
    every step keeps the relation. The two copies may differ only by edits agents made inside the
    attempts of the current task: rows added above everything, and skips of later tasks. */
module BoardRefinement {
  import opened Wrappers
  import opened Board
  import opened Routing
  import opened RunMachine

  /** The routing fields agree, and rows unknown to the supervisor lie above all it knows and wait
      on nothing. */
  ghost predicate Placed(rows: Tasks, ts: Tasks) {
    && ts.Keys <= rows.Keys
    && (forall id :: id in ts ==>
          ts[id].id == id && ts[id].sequence == rows[id].sequence && ts[id].dependsOn == rows[id].dependsOn)
    && (forall id :: id in rows && id !in ts ==> rows[id].dependsOn == {})
    && (forall id, k :: id in rows && id !in ts && k in ts ==> ts[k].sequence < rows[id].sequence)
  }

  predicate Agree(mem: TaskStatus, row: TaskStatus, failed: bool, ended: bool) {
    match mem
    case Pending => row == Pending || row == Skipped
    case InProgress => row == InProgress
    case Done => row == Done
    case Failed => row == Pending && failed
    case Skipped => row == Skipped || (row == Pending && failed && ended)
    case Blocked => false
  }

  ghost predicate StatusesAgree(rows: Tasks, ses: Session)
    requires ses.tasks.Keys <= rows.Keys
  {
    && (forall id :: id in ses.tasks ==>
          Agree(ses.tasks[id].status, rows[id].status, ses.failure.Some?, ses.phase.Ended?))
    && (forall id :: id in ses.tasks && ses.tasks[id].status == InProgress ==>
          ses.phase.Working? && ses.current == Some(id))
    && (forall id :: id in rows && id !in ses.tasks ==> rows[id].status == Pending || rows[id].status == Skipped)
    && (forall id :: id in rows && id !in ses.tasks ==> rows[id].attempts == 0)
  }

  /** An edit of this row has not reached the supervisor. */
  ghost predicate Drifted(rows: Tasks, ts: Tasks, id: Id) {
    id in rows && (id !in ts || (ts[id].status == Pending && rows[id].status == Skipped))
  }

  /** Task c is open in both copies and every other task the supervisor could run lies above it. */
  ghost predicate OnTurn(rows: Tasks, ts: Tasks, c: Id) {
    && c in ts && c in rows
    && (ts[c].status == Pending || ts[c].status == InProgress) && rows[c].status == ts[c].status
    && forall k :: k in ts && ts[k].status == Pending && k != c ==> ts[c].sequence < ts[k].sequence
  }

  /** While anything is unreported, the current task is the one whose attempts hide it. */
  ghost predicate DriftHeld(rows: Tasks, ses: Session) {
    ses.failure.None? ==>
      forall id :: Drifted(rows, ses.tasks, id) ==>
        ses.current.Some? && OnTurn(rows, ses.tasks, ses.current.value)
        && rows[ses.current.value].sequence < rows[id].sequence
  }

  ghost predicate NoDeadWaitInMemory(ses: Session) {
    ses.failure.None? ==>
      forall id, d :: id in ses.tasks && Unfinished(ses.tasks[id].status) && d in ses.tasks[id].dependsOn && d in ses.tasks
                      ==> ses.tasks[d].status != Skipped
  }

  ghost predicate PhaseFits(rows: Tasks, ses: Session) {
    match ses.phase
    case Scheduling => true
    case Starting => ses.failure.None? && ses.current.Some? && OnTurn(rows, ses.tasks, ses.current.value)
                     && ses.tasks[ses.current.value].status == Pending
    case Working => ses.failure.None? && ses.current.Some? && OnTurn(rows, ses.tasks, ses.current.value)
                    && ses.tasks[ses.current.value].status == InProgress
    case Finalizing => ses.failure.Some?
    case Ended =>
      forall id :: id in ses.tasks ==>
        Settled(ses.tasks[id].status) || (ses.failure.Some? && ses.tasks[id].status == Failed)
    case _ => false
  }

  ghost predicate Refines(rows: Tasks, ses: Session) {
    && ses.known == ses.tasks.Keys
    && Placed(rows, ses.tasks)
    && StatusesAgree(rows, ses)
    && DriftHeld(rows, ses)
    && NoDeadWaitInMemory(ses)
    && PhaseFits(rows, ses)
    && (ses.failure.Some? ==> ses.failure.value.GaveUp?)
  }

  ghost predicate NoneFailed(rows: Tasks) {
    forall id :: id in rows ==> rows[id].status != Failed
  }

  ghost predicate NoneRunning(rows: Tasks) {
    forall id :: id in rows ==> rows[id].status != InProgress
  }

  // ---- the graph's entry and its scheduling node ----

  lemma LoadedRefines(rows: Tasks, ses: Session)
    requires Shaped(rows) && NoDeadWait(rows) && NoneBlocked(rows) && NoneFailed(rows) && NoneRunning(rows)
    requires ses.tasks == rows && ses.known == rows.Keys && ses.failure == None && ses.phase == Scheduling
    ensures Refines(rows, ses)
  {
  }

  lemma PlacedBoard(rows: Tasks, ts: Tasks)
    requires Shaped(rows) && Placed(rows, ts)
    ensures DistinctSequences(ts) && DependsDownward(ts) && Keyed(ts)
  {
  }

  /** The scheduling node never finds a deadlock: with no failure recorded it starts the lowest
      pending task, whose row is still pending, or finds everything settled and reported. */
  lemma NeverStuck(rows: Tasks, ses: Session)
    requires Shaped(rows) && Refines(rows, ses) && ses.phase == Scheduling && ses.failure.None?
    ensures !Route(ses.tasks).Stuck?
    ensures Route(ses.tasks).Run? ==>
              IsLowestPending(ses.tasks, Route(ses.tasks).id) && rows[Route(ses.tasks).id].status == Pending
    ensures Route(ses.tasks).AllSettled? ==>
              (forall id :: id in ses.tasks ==> Settled(ses.tasks[id].status))
              && forall id :: !Drifted(rows, ses.tasks, id)
  {
    var ts := ses.tasks;
    PlacedBoard(rows, ts);
    var pending := set id | id in ts && ts[id].status == Pending;
    if some :| some in pending {
      var least := LeastSequence(ts, pending, some);
      LeastPendingRuns(rows, ses, least);
    } else {
      forall id | id in ts
        ensures Settled(ts[id].status)
      {
        assert id !in pending;
      }
      assert forall id :: IsNext(ts, id) ==> id in pending;
    }
  }

  lemma LeastPendingRuns(rows: Tasks, ses: Session, least: Id)
    requires Shaped(rows) && Refines(rows, ses) && ses.phase == Scheduling && ses.failure.None?
    requires IsLowestPending(ses.tasks, least)
    ensures Route(ses.tasks) == Run(least) && rows[least].status == Pending
  {
    var ts := ses.tasks;
    PlacedBoard(rows, ts);
    forall d | d in ts[least].dependsOn
      ensures ts[d].status == Pending || ts[d].status == Done
    {
      assert Agree(ts[d].status, rows[d].status, false, false);
    }
    LowestPendingIsNext(ts, least);
    if Drifted(rows, ts, least) { assert false; }
  }

  lemma ScheduleKeeps(rows: Tasks, ses: Session)
    requires Shaped(rows) && Refines(rows, ses) && ses.phase == Scheduling
    ensures Refines(rows, ScheduleNode(ses))
  {
    if ses.failure.None? {
      NeverStuck(rows, ses);
      var out := ScheduleNode(ses);
      if out.phase == Starting {
        var c := out.current.value;
        PlacedBoard(rows, ses.tasks);
        assert OnTurn(rows, ses.tasks, c);
        forall id | Drifted(rows, ses.tasks, id)
          ensures rows[c].sequence < rows[id].sequence
        {
          assert id != c;
        }
      }
    }
  }

  // ---- attempts ----

  /** The rows and the board before and after a change of one task's status in both copies. */
  ghost predicate OneTaskMoved(rows: Tasks, ts: Tasks, rows': Tasks, ts': Tasks, id: Id) {
    && id in ts && id in rows
    && SameShape(rows, rows') && SameShape(ts, ts')
    && (forall k :: k in rows && k != id ==> rows'[k] == rows[k])
    && (forall k :: k in ts && k != id ==> ts'[k] == ts[k])
  }

  lemma MovedStaysPlaced(rows: Tasks, ts: Tasks, rows': Tasks, ts': Tasks, id: Id)
    requires Placed(rows, ts) && OneTaskMoved(rows, ts, rows', ts', id)
    ensures Placed(rows', ts')
  {
  }

  lemma MovedStaysOnTurn(rows: Tasks, ts: Tasks, rows': Tasks, ts': Tasks, id: Id)
    requires OnTurn(rows, ts, id) && OneTaskMoved(rows, ts, rows', ts', id)
    requires ts'[id].status == rows'[id].status
    requires ts'[id].status == Pending || ts'[id].status == InProgress
    ensures OnTurn(rows', ts', id)
    ensures forall k :: Drifted(rows', ts', k) ==> Drifted(rows, ts, k)
  {
  }

  lemma MovedKeepsBoard(rows: Tasks, rows': Tasks, id: Id)
    requires WellFormed(rows) && SameShape(rows, rows') && id in rows && Unfinished(rows[id].status)
    requires forall k :: k in rows && k != id ==> rows'[k] == rows[k]
    requires rows'[id].status != Skipped && rows'[id].status != Blocked
    ensures WellFormed(rows')
  {
    SameShapeKeepsShape(rows, rows');
  }

  lemma StartKeeps(rows: Tasks, ses: Session, rows': Tasks, ses': Session)
    requires Refines(rows, ses) && ses.phase == Starting
    requires var id := ses.current.value;
             rows' == rows[id := rows[id].(status := InProgress, attempts := ses.tasks[id].attempts + 1)]
             && ses' == BeginExecution(ses, id)
    ensures Refines(rows', ses')
  {
    var id := ses.current.value;
    MovedStaysPlaced(rows, ses.tasks, rows', ses'.tasks, id);
    MovedStaysOnTurn(rows, ses.tasks, rows', ses'.tasks, id);
  }

  /** An attempt that failed, or was refused before it began: the task goes back, or is given up. */
  lemma GivingBackKeeps(rows: Tasks, ses: Session, rows': Tasks, ses': Session, id: Id)
    requires Refines(rows, ses) && (ses.phase == Starting || ses.phase == Working) && ses.current == Some(id)
    requires OneTaskMoved(rows, ses.tasks, rows', ses'.tasks, id)
    requires rows'[id].status == Pending
    requires ses'.tasks[id].status == if ses'.failure.None? then Pending else Failed
    requires ses'.failure.Some? ==> ses'.failure.value.GaveUp?
    requires ses'.phase == Scheduling && ses'.known == ses.known && ses'.current == ses.current
    ensures Refines(rows', ses')
  {
    MovedStaysPlaced(rows, ses.tasks, rows', ses'.tasks, id);
    if ses'.failure.None? { MovedStaysOnTurn(rows, ses.tasks, rows', ses'.tasks, id); }
  }

  // ---- what agents do meanwhile ----

  lemma AgentAddKeeps(rows: Tasks, ses: Session, t: Task, rows': Tasks)
    requires Refines(rows, ses) && ses.phase == Working
    requires t.id !in rows && t.status == Pending && t.dependsOn == {} && t.attempts == 0
    requires forall k :: k in rows ==> rows[k].sequence < t.sequence
    requires rows' == rows[t.id := t]
    ensures Refines(rows', ses)
  {
    assert forall k :: k in rows ==> rows'[k] == rows[k];
    assert OnTurn(rows', ses.tasks, ses.current.value);
    forall k | Drifted(rows', ses.tasks, k)
      ensures k == t.id || Drifted(rows, ses.tasks, k)
    {
    }
  }

  lemma AgentSkipKeeps(rows: Tasks, ses: Session, id: Id, rows': Tasks)
    requires Refines(rows, ses) && ses.phase == Working
    requires id in rows && rows[id].status == Pending
    requires rows' == rows[id := rows[id].(status := Skipped)]
    ensures Refines(rows', ses)
  {
    var c := ses.current.value;
    assert id != c;
    if id in ses.tasks {
      assert Agree(ses.tasks[id].status, Pending, false, false);
      assert ses.tasks[c].sequence < ses.tasks[id].sequence;
    }
    assert OnTurn(rows', ses.tasks, c);
    forall k | Drifted(rows', ses.tasks, k)
      ensures k == id || Drifted(rows, ses.tasks, k)
    {
    }
  }

  // ---- a success: the supervisor hears everything ----

  lemma MergedTask(rows: Tasks, ses: Session, rows': Tasks, id: Id, k: Id)
    requires Placed(rows, ses.tasks) && StatusesAgree(rows, ses) && ses.known == ses.tasks.Keys
    requires ses.phase == Working && ses.current == Some(id) && id in ses.tasks && ses.failure.None?
    requires rows' == rows[id := rows[id].(status := Done)] && Keyed(rows) && k in rows
    ensures var t := Merge(ses, id, rows').tasks;
            k in t && t[k].id == k && t[k].sequence == rows'[k].sequence
            && t[k].dependsOn == rows'[k].dependsOn && t[k].status == rows'[k].status
  {
    if k in ses.tasks {
      assert Agree(ses.tasks[k].status, rows[k].status, false, false);
      assert ses.tasks[k].status == InProgress ==> k == id;
    }
  }

  /** After a success the copies agree on every row: nothing an agent did is still unreported. */
  lemma MergeCatchesUp(rows: Tasks, ses: Session, rows': Tasks, id: Id)
    requires Keyed(rows) && Refines(rows, ses) && ses.phase == Working && ses.current == Some(id)
    requires rows' == rows[id := rows[id].(status := Done)]
    ensures var t := Merge(ses, id, rows').tasks;
            t.Keys == rows'.Keys && SameShape(t, rows')
            && forall k :: k in rows' ==> t[k].status == rows'[k].status
  {
    var t := Merge(ses, id, rows').tasks;
    assert t.Keys == rows'.Keys;
    forall k | k in rows'
      ensures k in t && t[k].id == k && t[k].sequence == rows'[k].sequence
              && t[k].dependsOn == rows'[k].dependsOn && t[k].status == rows'[k].status
    {
      MergedTask(rows, ses, rows', id, k);
    }
  }

  lemma CaughtUpRefines(rows: Tasks, ses: Session)
    requires Keyed(rows) && NoDeadWait(rows) && NoneBlocked(rows) && NoneFailed(rows) && NoneRunning(rows)
    requires SameShape(ses.tasks, rows) && forall k :: k in rows ==> ses.tasks[k].status == rows[k].status
    requires ses.known == rows.Keys && ses.failure.None? && ses.phase == Scheduling
    ensures Refines(rows, ses)
  {
  }

  lemma OnlyCurrentRuns(rows: Tasks, ses: Session, id: Id)
    requires Refines(rows, ses) && id in rows && rows[id].status == InProgress
    ensures ses.phase == Working && ses.current == Some(id)
  {
    if id in ses.tasks {
      assert Agree(ses.tasks[id].status, InProgress, ses.failure.Some?, ses.phase.Ended?);
    }
  }

  lemma NoneRunsAfter(rows: Tasks, ses: Session, rows': Tasks, id: Id)
    requires NoneFailed(rows) && Refines(rows, ses) && ses.current == Some(id)
    requires id in rows && rows' == rows[id := rows[id].(status := Done)]
    ensures NoneRunning(rows') && NoneFailed(rows')
  {
    forall k | k in rows && rows[k].status == InProgress
      ensures k == id
    {
      OnlyCurrentRuns(rows, ses, k);
    }
  }

  lemma SuccessLeavesBoard(rows: Tasks, ses: Session, rows': Tasks, id: Id)
    requires WellFormed(rows) && NoneFailed(rows) && Refines(rows, ses)
    requires ses.phase == Working && ses.current == Some(id)
    requires rows' == rows[id := rows[id].(status := Done)]
    ensures WellFormed(rows') && NoneRunning(rows') && NoneFailed(rows')
  {
    NoneRunsAfter(rows, ses, rows', id);
    MovedKeepsBoard(rows, rows', id);
  }

  lemma MergeGoesOn(ses: Session, id: Id, rows': Tasks)
    requires id in ses.tasks && ses.failure.None? && ses.known <= rows'.Keys
    ensures var after := Merge(ses, id, rows');
            after.known == rows'.Keys && after.failure.None? && after.phase == Scheduling
  {
  }

  lemma SuccessKeeps(rows: Tasks, ses: Session, rows': Tasks, id: Id)
    requires WellFormed(rows) && NoneFailed(rows) && Refines(rows, ses)
    requires ses.phase == Working && ses.current == Some(id)
    requires rows' == rows[id := rows[id].(status := Done)]
    ensures Refines(rows', Merge(ses, id, rows'))
  {
    MergeCatchesUp(rows, ses, rows', id);
    SuccessLeavesBoard(rows, ses, rows', id);
    MergeGoesOn(ses, id, rows');
    CaughtUpRefines(rows', Merge(ses, id, rows'));
  }

  // ---- the end of the graph ----

  lemma FinalizeKeeps(rows: Tasks, ses: Session, ses': Session)
    requires Refines(rows, ses) && ses.phase == Finalizing
    requires ses'.tasks == Finalized(ses.tasks) && ses'.phase == Ended
    requires ses'.known == ses.known && ses'.failure == ses.failure
    ensures Refines(rows, ses')
  {
  }

  /** What the final synchronization leaves behind. Every task on the supervisor's board gets the
      supervisor's status; a clean end settles every row; after any end a row is pending exactly
      when the supervisor never heard of it and no agent skipped it; nothing settled changes. */
  lemma SyncedBoard(rows: Tasks, ses: Session, rows': Tasks)
    requires Refines(rows, ses) && ses.phase == Ended && rows' == Synced(rows, ses.tasks)
    ensures SameShape(rows, rows')
    ensures forall id :: id in ses.tasks ==> rows'[id].status == ses.tasks[id].status
    ensures forall id :: id in rows && id !in ses.tasks ==> rows'[id] == rows[id]
    ensures ses.failure.None? ==> forall id :: id in rows' ==> Settled(rows'[id].status)
    ensures forall id :: id in rows' ==>
              (rows'[id].status == Pending <==> id !in ses.tasks && rows[id].status != Skipped)
    ensures forall id :: id in rows && Settled(rows[id].status) ==> rows'[id].status == rows[id].status
  {
    forall id | id in ses.tasks
      ensures Settled(rows[id].status) ==> ses.tasks[id].status == rows[id].status
    {
      assert Agree(ses.tasks[id].status, rows[id].status, ses.failure.Some?, true);
    }
    if ses.failure.None? {
      forall id | id in rows
        ensures id in ses.tasks
      {
        assert id !in ses.tasks ==> Drifted(rows, ses.tasks, id);
      }
    }
  }

  lemma SyncKeepsBoard(rows: Tasks, ses: Session, rows': Tasks)
    requires WellFormed(rows) && Refines(rows, ses) && ses.phase == Ended && rows' == Synced(rows, ses.tasks)
    ensures WellFormed(rows')
    ensures ses.failure.None? ==> NoneFailed(rows') && NoneRunning(rows')
  {
    SyncedBoard(rows, ses, rows');
    SameShapeKeepsShape(rows, rows');
    forall id | id in rows' && Unfinished(rows'[id].status)
      ensures rows'[id].dependsOn == {}
    {
    }
  }
}
