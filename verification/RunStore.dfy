/** The code that reads and writes one run's rows, as a class over those rows. Every method is
    proved to make exactly the transaction Board describes. */
module RunStore {
  import opened Wrappers
  import opened Board
  import opened Routing
  import Supervisor
  import Text

  const TASK_ROLES := {"backend", "frontend", "devops"}

  datatype ToolError =
    | EmptyTitle
    | RoleCannotTakeTasks
    | BoardFull(count: nat)
    | OnlySkippedAllowed
    | NoSuchTask
    | NotPending
    | StillNeeded(dependents: set<nat>)

  class RunStore {
    var status: RunStatus
    var rows: Tasks
    var spent: nat
    var cap: Option<nat>

    function Value(): Db
      reads this
    {
      Db(status, rows, spent, cap)
    }

    constructor (cap: Option<nat>)
      ensures Value() == Db(Queued, map[], 0, cap)
    {
      this.status, this.rows, this.spent, this.cap := Queued, map[], 0, cap;
    }

    /** Rows are stored under their own ids. */
    ghost predicate Valid()
      reads this
    {
      Keyed(rows)
    }

    /** Storing the plan row by row: each row is added first and its dependencies resolved against
        the rows before it. */
    method CreateBoard(plan: seq<PlanTask>, ids: seq<Id>, cost: nat)
      requires ValidPlan(plan) && |ids| == |plan|
      modifies this
      ensures Value() == StorePlan(old(Value()), plan, ids, cost)
      ensures status == AwaitingApproval && spent == old(spent) + cost && cap == old(cap)
    {
      var i := 0;
      while i < |plan|
        invariant i <= |plan|
        invariant rows == WithPlanned(old(rows), plan, ids, i)
        invariant status == old(status) && spent == old(spent) && cap == old(cap)
      {
        var row := Task(ids[i], i + 1, plan[i].role, plan[i].title, Some(plan[i].description), Pending, {}, 0);
        rows := rows[ids[i] := row];
        row := row.(dependsOn := ResolveEarlier(plan, ids, i));
        rows := rows[ids[i] := row];
        i := i + 1;
      }
      spent := spent + cost;
      status := AwaitingApproval;
    }

    /** The approval gate's edit: texts first, then the dropped rows, then their traces in the
        dependency lists of the rows that remain. */
    method EditThePlan(edits: seq<PlanTaskEdit>) returns (r: Result<nat, EditError>)
      requires Valid()
      modifies this
      ensures match EditPlan(old(Value()), edits)
              case Ok(after) => r == Ok(|Dropped(edits)|) && Value() == after
              case Err(e) => r == Err(e) && Value() == old(Value())
    {
      if |edits| == 0 { return Err(NoEdits); }
      if status != AwaitingApproval { return Err(NotAwaitingApproval); }
      var unknown := set e | e in edits && e.id !in rows :: e.id;
      if unknown != {} { return Err(UnknownTasks(unknown)); }
      var dropped := Dropped(edits);
      if |dropped| >= |rows| { return Err(NothingLeft); }

      ghost var was := rows;
      SameRows(Retitled(was, edits[..0]), was);
      var i := 0;
      while i < |edits|
        invariant i <= |edits|
        invariant rows == Retitled(was, edits[..i])
        invariant status == old(status) && spent == old(spent) && cap == old(cap)
      {
        var e := edits[i];
        assert e.id in was by { assert e in edits; assert e.id !in was ==> e.id in unknown; }
        RetitledOneMore(was, edits, i);
        if !e.drop {
          var row := rows[e.id];
          rows := rows[e.id := row.(title := e.title, description := EditedDescription(row.description, e.description))];
        }
        i := i + 1;
      }
      assert edits[..|edits|] == edits;
      rows := WithoutDropped(rows, dropped);
      return Ok(|dropped|);
    }

    /** The human decision, claimed by comparing and setting the status in one statement. */
    method DecideRun(approved: bool) returns (claimed: bool)
      modifies this
      ensures match Decide(old(Value()), approved)
              case Some(after) => claimed && Value() == after
              case None => !claimed && Value() == old(Value())
      ensures claimed <==> old(status) == AwaitingApproval
      ensures claimed ==> status == (if approved then Executing else Cancelled) && rows.Keys == old(rows).Keys
      ensures claimed ==> forall id :: id in rows ==>
                rows[id] == if approved then old(rows)[id] else old(rows)[id].(status := Skipped)
      ensures spent == old(spent) && cap == old(cap)
    {
      if status != AwaitingApproval { return false; }
      status := if approved then Executing else Cancelled;
      if !approved {
        ghost var was := rows;
        var todo := rows.Keys;
        while todo != {}
          invariant todo <= rows.Keys == was.Keys
          invariant forall id :: id in rows ==> rows[id] == if id in todo then was[id] else was[id].(status := Skipped)
          invariant status == Cancelled && spent == old(spent) && cap == old(cap)
          decreases |todo|
        {
          var id := Any(todo);
          rows := rows[id := rows[id].(status := Skipped)];
          todo := todo - {id};
        }
        SameRows(rows, SkipAll(was));
      }
      return true;
    }

    // ---- the agents' board tools ----

    /** The highest sequence on the board, 0 for an empty one. */
    method HighestSequence() returns (m: nat)
      ensures m == MaxSequence(rows)
    {
      m := 0;
      ghost var top: Option<Id> := None;
      var todo := rows.Keys;
      while todo != {}
        invariant todo <= rows.Keys
        invariant forall id :: id in rows && id !in todo ==> rows[id].sequence <= m
        invariant if top.None? then m == 0 else top.value in rows && rows[top.value].sequence == m
        invariant todo != rows.Keys ==> top.Some?
        decreases |todo|
      {
        var id := Any(todo);
        if rows[id].sequence >= m { m, top := rows[id].sequence, Some(id); }
        todo := todo - {id};
      }
      assert top.None? ==> rows.Keys == {};
      assert top.None? ==> rows == map[];
      if top.Some? { MaxSequenceWitness(rows, top.value, m); }
      assert IsMaxSequence(rows, m);
    }

    /** A new pending task at the top of the board, or the reason it was refused. */
    method AddTask(id: Id, title: string, description: string, role: string) returns (r: Result<nat, ToolError>)
      requires id !in rows
      modifies this
      ensures r.Ok? <==> Text.Strip(title) != "" && role in {"backend", "frontend", "devops"} && |old(rows).Keys| < 30
      ensures r.Ok? ==>
                var text := Text.Strip(description);
                Value() == Board.AddTask(old(Value()), id, role, Text.Title(title), if text == "" then None else Some(text))
                && r.value == Value().rows[id].sequence
      ensures r.Err? ==>
                && Value() == old(Value())
                && r.error == (if Text.Strip(title) == "" then EmptyTitle
                               else if role !in TASK_ROLES then RoleCannotTakeTasks
                               else BoardFull(|old(rows)|))
    {
      if Text.Strip(title) == "" { return Err(EmptyTitle); }
      if role !in TASK_ROLES { return Err(RoleCannotTakeTasks); }
      var count := |rows.Keys|;
      if count >= MAX_BOARD_TASKS { return Err(BoardFull(count)); }
      var highest := HighestSequence();
      var text := Text.Strip(description);
      var task := Task(id, highest + 1, role, Text.Title(title), if text == "" then None else Some(text), Pending, {}, 0);
      rows := rows[id := task];
      return Ok(highest + 1);
    }

    /** Skips a pending task nothing unfinished depends on; every other request is refused. */
    method UpdateTaskStatus(sequence: nat, newStatus: TaskStatus) returns (r: Result<Id, ToolError>)
      modifies this
      ensures r.Ok? ==>
                newStatus == Skipped && CanSkip(old(rows), r.value) && old(rows)[r.value].sequence == sequence
                && Value() == SkipTask(old(Value()), r.value)
      ensures r.Ok? ==>
                && old(rows)[r.value].status == Pending
                && (forall k :: k in old(rows) && r.value in old(rows)[k].dependsOn ==>
                      old(rows)[k].status in {Done, Failed, Skipped})
                && rows == old(rows)[r.value := old(rows)[r.value].(status := Skipped)]
                && status == old(status) && spent == old(spent) && cap == old(cap)
      ensures r.Err? ==> Value() == old(Value())
      ensures r.Err? && newStatus == Skipped && DistinctSequences(old(rows)) ==>
                forall id :: id in old(rows) && old(rows)[id].sequence == sequence ==> !CanSkip(old(rows), id)
    {
      if newStatus != Skipped { return Err(OnlySkippedAllowed); }
      if id :| id in rows.Keys && rows[id].sequence == sequence {
        if rows[id].status != Pending { return Err(NotPending); }
        var dependents := set k | k in rows && id in rows[k].dependsOn && Unfinished(rows[k].status) :: rows[k].sequence;
        if dependents != {} {
          DependentsWitness(rows, id, dependents);
          return Err(StillNeeded(dependents));
        }
        assert forall k :: k in rows && id in rows[k].dependsOn && Unfinished(rows[k].status) ==> rows[k].sequence in dependents;
        rows := rows[id := rows[id].(status := Skipped)];
        return Ok(id);
      }
      return Err(NoSuchTask);
    }

    // ---- one attempt ----

    /** Marks the row running unless the budget is spent; the caller has already counted the attempt. */
    method BeginAttempt(id: Id, attempts: nat) returns (allowed: bool)
      requires id in rows
      modifies this
      ensures allowed == WithinBudget(old(Value()))
      ensures Value() == if allowed then Board.BeginAttempt(old(Value()), id, attempts) else old(Value())
      ensures allowed <==> cap.None? || old(spent) < cap.value
      ensures rows == if allowed then old(rows)[id := old(rows)[id].(status := InProgress, attempts := attempts)] else old(rows)
      ensures status == old(status) && spent == old(spent) && cap == old(cap)
    {
      if cap.Some? && spent >= cap.value { return false; }
      rows := rows[id := rows[id].(status := InProgress, attempts := attempts)];
      return true;
    }

    method FailAttempt(id: Id, cost: nat)
      requires id in rows
      modifies this
      ensures Value() == EndAttempt(old(Value()), id, Pending, cost)
      ensures rows == old(rows)[id := old(rows)[id].(status := Pending)]
      ensures spent == old(spent) + cost && status == old(status) && cap == old(cap)
    {
      rows := rows[id := rows[id].(status := Pending)];
      spent := spent + cost;
    }

    /** Records the success and reports what agents changed meanwhile: rows the executor had not
        seen, and every row that is skipped by now. */
    method FinishAttempt(id: Id, cost: nat, known: set<Id>)
      returns (newTasks: seq<Task>, skipped: set<Id>, seen: set<Id>)
      requires id in rows && Valid()
      modifies this
      ensures Value() == EndAttempt(old(Value()), id, Done, cost)
      ensures rows == old(rows)[id := old(rows)[id].(status := Done)]
      ensures spent == old(spent) + cost && status == old(status) && cap == old(cap)
      ensures Supervisor.Lists(newTasks, map k | k in rows && k !in known :: rows[k])
      ensures skipped == set k | k in rows && rows[k].status == Skipped
      ensures seen == known + rows.Keys
    {
      rows := rows[id := rows[id].(status := Done)];
      spent := spent + cost;
      newTasks := RowsAmong(rows.Keys - known);
      skipped := set k | k in rows && rows[k].status == Skipped;
      seen := known + rows.Keys;
      assert (map k | k in rows.Keys - known :: rows[k]) == map k | k in rows && k !in known :: rows[k];
    }

    /** The rows with these ids, in some order. */
    method RowsAmong(ids: set<Id>) returns (tasks: seq<Task>)
      requires ids <= rows.Keys && Valid()
      ensures Supervisor.Lists(tasks, map k | k in ids :: rows[k])
    {
      tasks := [];
      var todo := ids;
      while todo != {}
        invariant todo <= ids
        invariant |tasks| + |todo| == |ids|
        invariant forall i :: 0 <= i < |tasks| ==>
                    tasks[i].id in ids && tasks[i].id !in todo && rows[tasks[i].id] == tasks[i]
        invariant Supervisor.DistinctIds(tasks)
        decreases |todo|
      {
        var id := Any(todo);
        tasks := tasks + [rows[id]];
        todo := todo - {id};
      }
      assert (map k | k in ids :: rows[k]).Keys == ids;
    }

    // ---- loading, synchronizing, recovering ----

    /** The board a session starts from, lowest sequence first; nothing unless the run is executing. */
    method LoadBoard() returns (r: Option<seq<Task>>)
      requires Valid() && DistinctSequences(rows)
      ensures r.Some? <==> status == Executing
      ensures r.Some? ==> Supervisor.Lists(r.value, rows)
      ensures r.Some? ==> forall i, j :: 0 <= i < j < |r.value| ==> r.value[i].sequence < r.value[j].sequence
    {
      if status != Executing { return None; }
      var tasks: seq<Task> := [];
      var todo := rows.Keys;
      while todo != {}
        invariant todo <= rows.Keys
        invariant |tasks| + |todo| == |rows.Keys|
        invariant forall i :: 0 <= i < |tasks| ==>
                    tasks[i].id in rows && tasks[i].id !in todo && rows[tasks[i].id] == tasks[i]
        invariant forall i, k :: 0 <= i < |tasks| && k in todo ==> tasks[i].sequence < rows[k].sequence
        invariant forall i, j :: 0 <= i < j < |tasks| ==> tasks[i].sequence < tasks[j].sequence
        decreases |todo|
      {
        ghost var some := Member(todo);
        ghost var lowest := LeastSequence(rows, todo, some);
        var id :| id in todo && forall k :: k in todo ==> rows[id].sequence <= rows[k].sequence;
        tasks := tasks + [rows[id]];
        todo := todo - {id};
      }
      return Some(tasks);
    }

    /** Copies the supervisor's verdicts onto the rows that differ, then fails the run or sends it
        to review. */
    method Sync(final: seq<Task>, ghost ts: Tasks, failed: bool)
      requires Supervisor.Lists(final, ts) && ts.Keys <= rows.Keys
      modifies this
      ensures Value() == SyncBoard(old(Value()), ts, failed)
      ensures rows.Keys == old(rows).Keys
      ensures forall id :: id in rows ==>
                rows[id] == if id in ts && ts[id].status != old(rows)[id].status
                            then old(rows)[id].(status := ts[id].status, attempts := ts[id].attempts) else old(rows)[id]
      ensures status == (if failed then RunFailed else Reviewing) && spent == old(spent) && cap == old(cap)
    {
      ghost var was := rows;
      ghost var visited: set<Id> := {};
      var i := 0;
      while i < |final|
        invariant i <= |final| && rows.Keys == was.Keys && visited <= ts.Keys
        invariant forall j :: 0 <= j < i ==> final[j].id in visited
        invariant forall j :: i <= j < |final| ==> final[j].id !in visited
        invariant forall id :: id in rows ==> rows[id] == if id in visited then Synced(was, ts)[id] else was[id]
        invariant status == old(status) && spent == old(spent) && cap == old(cap)
      {
        var state := final[i];
        var row := rows[state.id];
        if row.status != state.status {
          rows := rows[state.id := row.(status := state.status, attempts := state.attempts)];
        }
        visited := visited + {state.id};
        i := i + 1;
      }
      forall id | id in ts
        ensures id in visited
      {
        var k := Supervisor.Listed(final, ts, id);
      }
      SameRows(rows, Synced(was, ts));
      status := if failed then RunFailed else Reviewing;
    }

    method ResetInterruptedPlanning(includeQueued: bool) returns (reset: bool)
      modifies this
      ensures match Board.ResetPlanning(old(Value()), includeQueued)
              case Some(after) => reset && Value() == after
              case None => !reset && Value() == old(Value())
      ensures reset <==> old(status) == Planning || (includeQueued && old(status) == Queued)
      ensures reset ==> rows == map[] && status == Queued && spent == old(spent) && cap == old(cap)
    {
      if !(status == Planning || (includeQueued && status == Queued)) { return false; }
      rows := map[];
      status := Queued;
      return true;
    }

    /** Puts the interrupted task back to pending; true when the run can be resumed. */
    method ResetInterruptedExecution(quietWhenClean: bool) returns (resumable: bool)
      modifies this
      ensures match Board.ResetExecution(old(Value()), quietWhenClean)
              case Some(after) => resumable && Value() == after
              case None => !resumable && Value() == old(Value())
      ensures resumable <==> old(status) == Executing || old(status) == Reviewing
      ensures resumable ==> status == Executing && rows.Keys == old(rows).Keys
      ensures resumable ==> forall id :: id in rows ==>
                rows[id] == if old(rows)[id].status == InProgress then old(rows)[id].(status := Pending) else old(rows)[id]
      ensures spent == old(spent) && cap == old(cap)
    {
      if status != Executing && status != Reviewing { return false; }
      var running := set id | id in rows && rows[id].status == InProgress;
      RunningWitness(rows, running);
      if quietWhenClean && status == Executing && running == {} { return true; }
      RequeueRows(running);
      status := Executing;
      return true;
    }

    method RequeueRows(running: set<Id>)
      requires running == set id | id in rows && rows[id].status == InProgress
      modifies this`rows
      ensures rows == Requeue(old(rows))
    {
      ghost var was := rows;
      var todo := running;
      while todo != {}
        invariant todo <= running && rows.Keys == was.Keys
        invariant forall id :: id in rows ==>
                    rows[id] == if id in running && id !in todo then was[id].(status := Pending) else was[id]
        decreases |todo|
      {
        var id := Any(todo);
        rows := rows[id := rows[id].(status := Pending)];
        todo := todo - {id};
      }
      SameRows(rows, Requeue(was));
    }
  }

  lemma MaxSequenceWitness(rows: Tasks, top: Id, m: nat)
    requires top in rows && rows[top].sequence == m && forall id :: id in rows ==> rows[id].sequence <= m
    ensures IsMaxSequence(rows, m)
  {
    assert rows != map[];
  }

  /** A row's dependencies need only the ids of the rows stored before it. */
  function ResolveEarlier(plan: seq<PlanTask>, ids: seq<Id>, i: nat): (deps: set<Id>)
    requires ValidPlan(plan) && |ids| == |plan| && i < |plan|
    ensures deps == PlannedTask(plan, ids, i).dependsOn
  {
    Resolve(plan[i].dependsOn, ids[..i])
  }

  lemma RetitledOneMore(rows: Tasks, edits: seq<PlanTaskEdit>, i: nat)
    requires Keyed(rows) && i < |edits| && edits[i].id in rows
    ensures var before := Retitled(rows, edits[..i]);
            var e := edits[i];
            Retitled(rows, edits[..i + 1]) ==
            if e.drop then before
            else before[e.id := before[e.id].(title := e.title,
                                              description := EditedDescription(before[e.id].description, e.description))]
  {
    assert edits[..i + 1][..i] == edits[..i];
    assert edits[..i + 1][i] == edits[i];
    forall id | id in rows
      ensures Retitle(rows[id], edits[..i + 1]) ==
              if edits[i].id == id && !edits[i].drop
              then Retitle(rows[id], edits[..i]).(title := edits[i].title,
                     description := EditedDescription(Retitle(rows[id], edits[..i]).description, edits[i].description))
              else Retitle(rows[id], edits[..i])
    {
    }
  }

  lemma RunningWitness(rows: Tasks, running: set<Id>)
    requires running == set id | id in rows && rows[id].status == InProgress
    ensures AnyInProgress(rows) <==> running != {}
  {
    if AnyInProgress(rows) {
      var id :| id in rows && rows[id].status == InProgress;
      assert id in running;
    }
    if running != {} { var id := Member(running); }
  }

  lemma DependentsWitness(rows: Tasks, id: Id, dependents: set<nat>)
    requires dependents == set k | k in rows && id in rows[k].dependsOn && Unfinished(rows[k].status) :: rows[k].sequence
    requires dependents != {}
    ensures HasUnfinishedDependent(rows, id)
  {
    var n := Member(dependents);
  }
}
