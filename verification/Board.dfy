/** The durable side of one agent run: its status, its task rows, what it has spent, and the
    transactions that change them. Each function below is one committed transaction; RunStore
    proves that the imperative code computes exactly these. */
module Board {
  import opened Wrappers
  import Text

  /** A task id: opaque in the code, compared for equality only. */
  type Id = int

  const MAX_PLAN_TASKS := 8
  const MAX_BOARD_TASKS := 30
  const MAX_RETRIES := 2

  datatype TaskStatus = Pending | Blocked | InProgress | Done | Failed | Skipped

  datatype RunStatus =
    | Queued
    | Planning
    | AwaitingApproval
    | Executing
    | Reviewing
    | Completed
    | RunFailed
    | Cancelled

  /** dependsOn is a stored list that is only ever searched and filtered, so it is a set here. */
  datatype Task = Task(
    id: Id,
    sequence: nat,
    role: string,
    title: string,
    description: Option<string>,
    status: TaskStatus,
    dependsOn: set<Id>,
    attempts: nat)

  type Tasks = map<Id, Task>

  /** The run's row and its task rows; money is counted in millionths of a dollar. */
  datatype Db = Db(status: RunStatus, rows: Tasks, spent: nat, cap: Option<nat>)

  predicate Unfinished(status: TaskStatus) {
    status == Pending || status == InProgress || status == Blocked
  }

  predicate Settled(status: TaskStatus) {
    status == Done || status == Skipped
  }

  predicate Terminal(status: RunStatus) {
    status == Completed || status == RunFailed || status == Cancelled
  }

  predicate Resumable(status: RunStatus) {
    status == Executing || status == Reviewing
  }

  // What a board must satisfy for the supervisor never to get stuck on it.

  ghost predicate Keyed(ts: Tasks) {
    forall id :: id in ts ==> ts[id].id == id
  }

  ghost predicate DistinctSequences(ts: Tasks) {
    forall a, b :: a in ts && b in ts && ts[a].sequence == ts[b].sequence ==> a == b
  }

  ghost predicate DependsDownward(ts: Tasks) {
    forall id, d :: id in ts && d in ts[id].dependsOn ==> d in ts && ts[d].sequence < ts[id].sequence
  }

  ghost predicate NoDeadWait(ts: Tasks) {
    forall id, d :: id in ts && Unfinished(ts[id].status) && d in ts[id].dependsOn && d in ts
                    ==> ts[d].status != Skipped
  }

  /** The part of a board no status change can touch. */
  ghost predicate Shaped(ts: Tasks) {
    Keyed(ts) && DistinctSequences(ts) && DependsDownward(ts) && |ts.Keys| <= MAX_BOARD_TASKS
  }

  ghost predicate NoneBlocked(ts: Tasks) {
    forall id :: id in ts ==> ts[id].status != Blocked
  }

  ghost predicate WellFormed(ts: Tasks) {
    Shaped(ts) && NoDeadWait(ts) && NoneBlocked(ts)
  }

  ghost predicate SameShape(ts: Tasks, us: Tasks) {
    && ts.Keys == us.Keys
    && forall id :: id in ts ==>
         ts[id].id == us[id].id && ts[id].sequence == us[id].sequence && ts[id].dependsOn == us[id].dependsOn
  }

  ghost function MaxSequence(ts: Tasks): (m: nat)
    ensures forall id :: id in ts ==> ts[id].sequence <= m
    ensures if ts == map[] then m == 0 else exists id :: id in ts && ts[id].sequence == m
  {
    MaxSequenceExists(ts);
    var m: nat :| IsMaxSequence(ts, m);
    m
  }

  ghost predicate IsMaxSequence(ts: Tasks, m: nat) {
    && (forall id :: id in ts ==> ts[id].sequence <= m)
    && (if ts == map[] then m == 0 else exists id :: id in ts && ts[id].sequence == m)
  }

  lemma MaxSequenceExists(ts: Tasks)
    ensures exists m: nat :: IsMaxSequence(ts, m)
    decreases |ts.Keys|
  {
    if id :| id in ts {
      var rest := ts - {id};
      assert rest.Keys == ts.Keys - {id};
      MaxSequenceExists(rest);
      var m: nat :| IsMaxSequence(rest, m);
      forall k | k in ts
        ensures k == id || (k in rest && rest[k] == ts[k])
      {
      }
      if m < ts[id].sequence || rest == map[] {
        assert IsMaxSequence(ts, ts[id].sequence);
      } else {
        assert IsMaxSequence(ts, m);
      }
    } else {
      assert forall id :: id !in ts;
      assert ts == map[];
      assert IsMaxSequence(ts, 0);
    }
  }

  // ---- the plan and the approval gate ----

  datatype PlanTask = PlanTask(title: string, role: string, description: string, dependsOn: seq<nat>)

  predicate EarlierOnly(deps: seq<int>, sequence: nat) {
    forall d :: d in deps ==> 1 <= d < sequence
  }

  predicate ValidPlan(plan: seq<PlanTask>) {
    && 1 <= |plan| <= MAX_PLAN_TASKS
    && forall i :: 0 <= i < |plan| ==> EarlierOnly(plan[i].dependsOn, i + 1)
  }

  predicate Distinct<T(==)>(s: seq<T>) {
    forall i, j :: 0 <= i < j < |s| ==> s[i] != s[j]
  }

  /** Positions become the ids of the rows already created. */
  function Resolve(deps: seq<nat>, ids: seq<Id>): set<Id>
    requires forall d :: d in deps ==> 1 <= d <= |ids|
  {
    set d | d in deps :: ids[d - 1]
  }

  function PlannedTask(plan: seq<PlanTask>, ids: seq<Id>, i: nat): Task
    requires ValidPlan(plan) && |ids| == |plan| && i < |plan|
  {
    Task(ids[i], i + 1, plan[i].role, plan[i].title, Some(plan[i].description), Pending,
         Resolve(plan[i].dependsOn, ids), 0)
  }

  /** The rows after the first n tasks of the plan were stored. */
  function WithPlanned(rows: Tasks, plan: seq<PlanTask>, ids: seq<Id>, n: nat): Tasks
    requires ValidPlan(plan) && |ids| == |plan| && n <= |plan|
  {
    if n == 0 then rows
    else WithPlanned(rows, plan, ids, n - 1)[ids[n - 1] := PlannedTask(plan, ids, n - 1)]
  }

  function StorePlan(db: Db, plan: seq<PlanTask>, ids: seq<Id>, cost: nat): Db
    requires ValidPlan(plan) && |ids| == |plan|
  {
    db.(rows := WithPlanned(db.rows, plan, ids, |plan|), spent := db.spent + cost, status := AwaitingApproval)
  }

  datatype PlanTaskEdit = PlanTaskEdit(id: Id, title: string, description: Option<string>, drop: bool)

  datatype EditError = NoEdits | NotAwaitingApproval | UnknownTasks(ids: set<Id>) | NothingLeft

  function Dropped(edits: seq<PlanTaskEdit>): set<Id> {
    set e | e in edits && e.drop :: e.id
  }

  /** The text changes, in the order they were sent; a dropped task's text is not touched. */
  function Retitle(row: Task, edits: seq<PlanTaskEdit>): Task {
    if edits == [] then row
    else
      var before := Retitle(row, edits[..|edits| - 1]);
      var e := edits[|edits| - 1];
      if e.id == row.id && !e.drop then
        before.(title := e.title, description := EditedDescription(before.description, e.description))
      else before
  }

  function EditedDescription(current: Option<string>, sent: Option<string>): Option<string> {
    if sent.None? then current
    else if Text.Strip(sent.value) == "" then None
    else Some(Text.Strip(sent.value))
  }

  function Retitled(rows: Tasks, edits: seq<PlanTaskEdit>): (out: Tasks)
    ensures out.Keys == rows.Keys
  {
    map id | id in rows :: Retitle(rows[id], edits)
  }

  function WithoutDropped(rows: Tasks, dropped: set<Id>): Tasks {
    map id | id in rows && id !in dropped :: rows[id].(dependsOn := rows[id].dependsOn - dropped)
  }

  function EditedRows(rows: Tasks, edits: seq<PlanTaskEdit>): Tasks {
    WithoutDropped(Retitled(rows, edits), Dropped(edits))
  }

  ghost function EditPlan(db: Db, edits: seq<PlanTaskEdit>): Result<Db, EditError> {
    var unknown := set e | e in edits && e.id !in db.rows :: e.id;
    if |edits| == 0 then Err(NoEdits)
    else if db.status != AwaitingApproval then Err(NotAwaitingApproval)
    else if unknown != {} then Err(UnknownTasks(unknown))
    else if |Dropped(edits)| >= |db.rows| then Err(NothingLeft)
    else Ok(db.(rows := EditedRows(db.rows, edits)))
  }

  function SkipAll(rows: Tasks): (out: Tasks)
    ensures out.Keys == rows.Keys
  {
    map id | id in rows :: rows[id].(status := Skipped)
  }

  /** The compare-and-set claim of a human decision; None is the 409 answer. */
  function Decide(db: Db, approved: bool): Option<Db> {
    if db.status != AwaitingApproval then None
    else if approved then Some(db.(status := Executing))
    else Some(db.(status := Cancelled, rows := SkipAll(db.rows)))
  }

  // ---- what agents may change while they work ----

  ghost function AddTask(db: Db, id: Id, role: string, title: string, description: Option<string>): Db {
    db.(rows := db.rows[id := Task(id, MaxSequence(db.rows) + 1, role, title, description, Pending, {}, 0)])
  }

  ghost predicate CanAdd(db: Db, id: Id) {
    id !in db.rows && |db.rows.Keys| < MAX_BOARD_TASKS
  }

  ghost predicate HasUnfinishedDependent(rows: Tasks, id: Id) {
    exists k :: k in rows && id in rows[k].dependsOn && Unfinished(rows[k].status)
  }

  ghost predicate CanSkip(rows: Tasks, id: Id) {
    id in rows && rows[id].status == Pending && !HasUnfinishedDependent(rows, id)
  }

  function SkipTask(db: Db, id: Id): Db
    requires id in db.rows
  {
    db.(rows := db.rows[id := db.rows[id].(status := Skipped)])
  }

  // ---- one attempt at a task ----

  predicate WithinBudget(db: Db) {
    db.cap.None? || db.spent < db.cap.value
  }

  function BeginAttempt(db: Db, id: Id, attempts: nat): Db
    requires id in db.rows
  {
    db.(rows := db.rows[id := db.rows[id].(status := InProgress, attempts := attempts)])
  }

  function EndAttempt(db: Db, id: Id, status: TaskStatus, cost: nat): Db
    requires id in db.rows
  {
    db.(rows := db.rows[id := db.rows[id].(status := status)], spent := db.spent + cost)
  }

  function Synced(rows: Tasks, final: Tasks): Tasks {
    map id | id in rows ::
      if id in final && final[id].status != rows[id].status
      then rows[id].(status := final[id].status, attempts := final[id].attempts)
      else rows[id]
  }

  function SyncBoard(db: Db, final: Tasks, failed: bool): Db {
    db.(rows := Synced(db.rows, final), status := if failed then RunFailed else Reviewing)
  }

  // ---- recovery ----

  function ResetPlanning(db: Db, includeQueued: bool): Option<Db> {
    if db.status == Planning || (includeQueued && db.status == Queued)
    then Some(db.(rows := map[], status := Queued))
    else None
  }

  function Requeue(rows: Tasks): (out: Tasks)
    ensures out.Keys == rows.Keys
  {
    map id | id in rows ::
      if rows[id].status == InProgress then rows[id].(status := Pending) else rows[id]
  }

  predicate AnyInProgress(rows: Tasks) {
    exists id :: id in rows && rows[id].status == InProgress
  }

  /** A delivery that resets nothing and records no recovery event. */
  predicate IsQuiet(db: Db, quietWhenClean: bool) {
    quietWhenClean && db.status == Executing && !AnyInProgress(db.rows)
  }

  function ResetExecution(db: Db, quietWhenClean: bool): Option<Db> {
    if !Resumable(db.status) then None
    else if IsQuiet(db, quietWhenClean) then Some(db)
    else Some(db.(rows := Requeue(db.rows), status := Executing))
  }

  // ---- every transaction keeps the board well formed ----

  lemma SameRows(ts: Tasks, us: Tasks)
    requires ts.Keys == us.Keys && forall id :: id in ts ==> ts[id] == us[id]
    ensures ts == us
  {
    if ts.Keys == us.Keys && forall id :: id in ts ==> ts[id] == us[id] { assert ts == us; }
  }

  lemma SameShapeKeepsShape(ts: Tasks, us: Tasks)
    requires Shaped(ts) && SameShape(ts, us)
    ensures Shaped(us)
  {
  }

  /** Part of a board, with only the dependencies whose ends are both kept, is still well formed. */
  lemma Restricted(ts: Tasks, us: Tasks)
    requires Shaped(ts) && us.Keys <= ts.Keys
    requires forall id :: id in us ==> us[id].id == ts[id].id && us[id].sequence == ts[id].sequence
    requires forall id :: id in us ==> us[id].dependsOn <= ts[id].dependsOn * us.Keys
    ensures Shaped(us)
  {
    SubsetSize(us.Keys, ts.Keys);
  }

  lemma SubsetSize<T>(a: set<T>, b: set<T>)
    requires a <= b
    ensures |a| <= |b|
  {
    assert b == a + (b - a);
  }

  lemma PlannedDependencies(plan: seq<PlanTask>, ids: seq<Id>, i: nat, d: Id)
    requires ValidPlan(plan) && |ids| == |plan| && Distinct(ids) && i < |plan|
    requires d in PlannedTask(plan, ids, i).dependsOn
    ensures exists k: nat :: k < i && d == ids[k]
  {
    var n :| n in plan[i].dependsOn && d == ids[n - 1];
    assert d == ids[n - 1];
  }

  lemma {:induction false} PlannedRowsAre(plan: seq<PlanTask>, ids: seq<Id>, n: nat)
    requires ValidPlan(plan) && |ids| == |plan| && Distinct(ids) && n <= |plan|
    ensures var rows := WithPlanned(map[], plan, ids, n);
            && (forall i :: 0 <= i < n ==> ids[i] in rows && rows[ids[i]] == PlannedTask(plan, ids, i))
            && (forall id :: id in rows ==> exists i :: 0 <= i < n && ids[i] == id)
            && |rows.Keys| <= n
  {
    if n > 0 {
      PlannedRowsAre(plan, ids, n - 1);
      var before, rows := WithPlanned(map[], plan, ids, n - 1), WithPlanned(map[], plan, ids, n);
      assert rows.Keys == before.Keys + {ids[n - 1]};
    }
  }

  lemma {:induction false} WithPlannedHolds(rows: Tasks, plan: seq<PlanTask>, ids: seq<Id>, n: nat)
    requires ValidPlan(plan) && |ids| == |plan| && Distinct(ids) && n <= |plan|
    ensures var after := WithPlanned(rows, plan, ids, n);
            && (forall i :: 0 <= i < n ==> ids[i] in after && after[ids[i]] == PlannedTask(plan, ids, i))
            && (forall id :: id !in ids[..n] ==> (id in after <==> id in rows) && (id in rows ==> after[id] == rows[id]))
  {
    if n > 0 {
      WithPlannedHolds(rows, plan, ids, n - 1);
      assert ids[..n] == ids[..n - 1] + [ids[n - 1]];
    }
  }

  /** What is stored for the task at a position of the plan: its own text, pending and untried, waiting on
      exactly the tasks at the positions it names. */
  lemma StoredPlanIs(db: Db, plan: seq<PlanTask>, ids: seq<Id>, cost: nat, i: nat)
    requires ValidPlan(plan) && |ids| == |plan| && Distinct(ids) && i < |plan|
    ensures var after := StorePlan(db, plan, ids, cost).rows;
            && ids[i] in after
            && after[ids[i]].(dependsOn := {}) ==
               Task(ids[i], i + 1, plan[i].role, plan[i].title, Some(plan[i].description), Pending, {}, 0)
            && (forall d :: d in after[ids[i]].dependsOn ==> d in ids && d in after && after[d].sequence in plan[i].dependsOn)
            && (forall n :: n in plan[i].dependsOn ==>
                  exists d :: d in after[ids[i]].dependsOn && d in after && after[d].sequence == n)
    ensures StorePlan(db, plan, ids, cost).status == AwaitingApproval
    ensures StorePlan(db, plan, ids, cost).spent == db.spent + cost && StorePlan(db, plan, ids, cost).cap == db.cap
    ensures forall id :: id !in ids ==>
              (id in StorePlan(db, plan, ids, cost).rows <==> id in db.rows)
              && (id in db.rows ==> StorePlan(db, plan, ids, cost).rows[id] == db.rows[id])
  {
    WithPlannedHolds(db.rows, plan, ids, |plan|);
    assert ids[..|plan|] == ids;
    var after := StorePlan(db, plan, ids, cost).rows;
    forall d | d in after[ids[i]].dependsOn
      ensures d in ids && d in after && after[d].sequence in plan[i].dependsOn
    {
      var n :| n in plan[i].dependsOn && d == ids[n - 1];
      assert after[ids[n - 1]].sequence == n;
    }
    forall n | n in plan[i].dependsOn
      ensures exists d :: d in after[ids[i]].dependsOn && d in after && after[d].sequence == n
    {
      assert ids[n - 1] in after[ids[i]].dependsOn && after[ids[n - 1]].sequence == n;
    }
  }

  lemma PlannedRowsWellFormed(plan: seq<PlanTask>, ids: seq<Id>)
    requires ValidPlan(plan) && |ids| == |plan| && Distinct(ids)
    ensures var rows := WithPlanned(map[], plan, ids, |plan|);
            WellFormed(rows)
            && (forall i :: 0 <= i < |plan| ==> ids[i] in rows && rows[ids[i]] == PlannedTask(plan, ids, i))
            && forall id :: id in rows ==> rows[id].status == Pending && rows[id].attempts == 0
  {
    var rows := WithPlanned(map[], plan, ids, |plan|);
    PlannedRowsAre(plan, ids, |plan|);
    forall id, d | id in rows && d in rows[id].dependsOn
      ensures d in rows && rows[d].sequence < rows[id].sequence
    {
      var i: nat :| i < |plan| && ids[i] == id;
      PlannedDependencies(plan, ids, i, d);
    }
  }

  lemma RetitleKeepsRouting(row: Task, edits: seq<PlanTaskEdit>)
    ensures var r := Retitle(row, edits);
            r.id == row.id && r.sequence == row.sequence && r.role == row.role && r.status == row.status
            && r.dependsOn == row.dependsOn && r.attempts == row.attempts
  {
  }

  predicate Edits(e: PlanTaskEdit, id: Id) {
    e.id == id && !e.drop
  }

  predicate Describes(e: PlanTaskEdit, id: Id) {
    Edits(e, id) && e.description.Some?
  }

  /** The last edit of a task's text, and the last that sends a description for it. */
  predicate IsLastEdit(edits: seq<PlanTaskEdit>, id: Id, k: nat) {
    k < |edits| && Edits(edits[k], id) && forall j :: k < j < |edits| ==> !Edits(edits[j], id)
  }

  predicate IsLastDescription(edits: seq<PlanTaskEdit>, id: Id, k: nat) {
    k < |edits| && Describes(edits[k], id) && forall j :: k < j < |edits| ==> !Describes(edits[j], id)
  }

  /** Of several edits of a task's title the last one counts. */
  lemma {:induction false} LastTitleWins(row: Task, edits: seq<PlanTaskEdit>, k: nat)
    requires IsLastEdit(edits, row.id, k)
    ensures Retitle(row, edits).title == edits[k].title
  {
    var n := |edits| - 1;
    RetitleKeepsRouting(row, edits[..n]);
    if k < n { LastTitleWins(row, edits[..n], k); }
  }

  /** Of several descriptions sent the last one counts; a blank one clears it. */
  lemma {:induction false} LastDescriptionWins(row: Task, edits: seq<PlanTaskEdit>, k: nat)
    requires IsLastDescription(edits, row.id, k)
    ensures var text := Text.Strip(edits[k].description.value);
            Retitle(row, edits).description == if text == "" then None else Some(text)
  {
    var n := |edits| - 1;
    RetitleKeepsRouting(row, edits[..n]);
    if k < n { LastDescriptionWins(row, edits[..n], k); }
  }

  /** What no edit sends stays. */
  lemma {:induction false} UnsentTextStays(row: Task, edits: seq<PlanTaskEdit>)
    ensures (forall e :: e in edits ==> !Edits(e, row.id)) ==> Retitle(row, edits).title == row.title
    ensures (forall e :: e in edits ==> !Describes(e, row.id)) ==> Retitle(row, edits).description == row.description
  {
    if edits != [] {
      var n := |edits| - 1;
      UnsentTextStays(row, edits[..n]);
      RetitleKeepsRouting(row, edits[..n]);
      assert edits[n] in edits && forall e :: e in edits[..n] ==> e in edits;
    }
  }

  /** The text is the one last sent, where any was. */
  ghost predicate TextIsAsSent(before: Task, after: Task, edits: seq<PlanTaskEdit>) {
    && (forall k: nat :: IsLastEdit(edits, before.id, k) ==> after.title == edits[k].title)
    && ((forall e :: e in edits ==> !Edits(e, before.id)) ==> after.title == before.title)
    && (forall k: nat :: IsLastDescription(edits, before.id, k) ==>
          var text := Text.Strip(edits[k].description.value);
          after.description == if text == "" then None else Some(text))
    && ((forall e :: e in edits ==> !Describes(e, before.id)) ==> after.description == before.description)
  }

  lemma RetitleIsAsSent(row: Task, edits: seq<PlanTaskEdit>)
    ensures TextIsAsSent(row, Retitle(row, edits), edits)
  {
    forall k: nat | IsLastEdit(edits, row.id, k)
      ensures Retitle(row, edits).title == edits[k].title
    {
      LastTitleWins(row, edits, k);
    }
    forall k: nat | IsLastDescription(edits, row.id, k)
      ensures var text := Text.Strip(edits[k].description.value);
              Retitle(row, edits).description == if text == "" then None else Some(text)
    {
      LastDescriptionWins(row, edits, k);
    }
    UnsentTextStays(row, edits);
  }

  predicate IsDropped(edits: seq<PlanTaskEdit>, id: Id) {
    exists e :: e in edits && e.drop && e.id == id
  }

  /** The rows after an edit, without saying how they are computed: exactly the dropped ones are gone, the
      rest carry the text sent and have lost only their dependencies on dropped tasks. */
  ghost predicate EditedAsSent(before: Tasks, after: Tasks, edits: seq<PlanTaskEdit>) {
    && (forall id :: id in after <==> id in before && !IsDropped(edits, id))
    && forall id :: id in after ==>
         && TextIsAsSent(before[id], after[id], edits)
         && after[id].id == before[id].id && after[id].sequence == before[id].sequence && after[id].role == before[id].role
         && after[id].status == before[id].status && after[id].attempts == before[id].attempts
         && forall d :: d in after[id].dependsOn <==> d in before[id].dependsOn && !IsDropped(edits, d)
  }

  lemma DroppedMatches(edits: seq<PlanTaskEdit>, id: Id)
    ensures id in Dropped(edits) <==> IsDropped(edits, id)
  {
  }

  lemma EditedRowsAreAsSent(rows: Tasks, edits: seq<PlanTaskEdit>)
    ensures EditedAsSent(rows, EditedRows(rows, edits), edits)
  {
    var after := EditedRows(rows, edits);
    forall id
      ensures id in Dropped(edits) <==> IsDropped(edits, id)
    {
      DroppedMatches(edits, id);
    }
    forall id | id in after
      ensures TextIsAsSent(rows[id], after[id], edits)
      ensures after[id].id == rows[id].id && after[id].sequence == rows[id].sequence && after[id].role == rows[id].role
      ensures after[id].status == rows[id].status && after[id].attempts == rows[id].attempts
      ensures forall d :: d in after[id].dependsOn <==> d in rows[id].dependsOn && !IsDropped(edits, d)
    {
      RetitleIsAsSent(rows[id], edits);
      RetitleKeepsRouting(rows[id], edits);
    }
  }

  /** Fewer drops than rows leave a row; as many drop them all. */
  lemma SomeRowIsLeft(rows: Tasks, edits: seq<PlanTaskEdit>)
    requires forall e :: e in edits ==> e.id in rows
    ensures if |Dropped(edits)| >= |rows| then forall id :: id in rows ==> IsDropped(edits, id)
            else exists id :: id in rows && !IsDropped(edits, id)
  {
    var dropped := Dropped(edits);
    assert dropped <= rows.Keys;
    assert rows.Keys == dropped + (rows.Keys - dropped) && |rows| == |rows.Keys|;
    if |dropped| >= |rows| {
      assert rows.Keys - dropped == {};
      forall id | id in rows
        ensures IsDropped(edits, id)
      {
        assert id in dropped;
        DroppedMatches(edits, id);
      }
    } else {
      var id := Member(rows.Keys - dropped);
      DroppedMatches(edits, id);
    }
  }

  ghost predicate AllKnown(rows: Tasks, edits: seq<PlanTaskEdit>) {
    forall e :: e in edits ==> e.id in rows
  }

  /** Which edits are accepted, which error the others get, and what an accepted one leaves. */
  lemma EditPlanMeans(db: Db, edits: seq<PlanTaskEdit>)
    ensures match EditPlan(db, edits)
            case Err(NoEdits) => edits == []
            case Err(NotAwaitingApproval) => edits != [] && db.status != AwaitingApproval
            case Err(UnknownTasks(ids)) =>
              edits != [] && db.status == AwaitingApproval && !AllKnown(db.rows, edits)
              && forall id :: id in ids <==> id !in db.rows && exists e :: e in edits && e.id == id
            case Err(NothingLeft) =>
              edits != [] && db.status == AwaitingApproval && AllKnown(db.rows, edits)
              && forall id :: id in db.rows ==> IsDropped(edits, id)
            case Ok(after) =>
              edits != [] && db.status == AwaitingApproval && AllKnown(db.rows, edits)
              && (exists id :: id in db.rows && !IsDropped(edits, id))
              && EditedAsSent(db.rows, after.rows, edits) && after == db.(rows := after.rows)
  {
    var unknown := set e | e in edits && e.id !in db.rows :: e.id;
    EditedRowsAreAsSent(db.rows, edits);
    if unknown == {} {
      forall e | e in edits
        ensures e.id in db.rows
      {
        assert e.id !in db.rows ==> e.id in unknown;
      }
      SomeRowIsLeft(db.rows, edits);
    } else {
      var id := Member(unknown);
    }
  }

  /** What the agents' tool adds: one pending task above all others, waiting on nothing. */
  lemma AddTaskMeans(db: Db, id: Id, role: string, title: string, description: Option<string>)
    requires id !in db.rows
    ensures var after := AddTask(db, id, role, title, description);
            && after == db.(rows := after.rows) && after.rows.Keys == db.rows.Keys + {id}
            && (forall k :: k in db.rows ==> after.rows[k] == db.rows[k])
            && after.rows[id].(sequence := 0) == Task(id, 0, role, title, description, Pending, {}, 0)
            && (forall k :: k in db.rows ==> db.rows[k].sequence < after.rows[id].sequence)
            && (after.rows[id].sequence == 1 || exists k :: k in db.rows && db.rows[k].sequence + 1 == after.rows[id].sequence)
  {
  }

  /** Dropping tasks at the gate leaves no ghost: a dependency survives exactly when both of its
      ends do, and nothing else about routing changes. */
  lemma EditKeepsDependencies(rows: Tasks, edits: seq<PlanTaskEdit>, id: Id)
    requires WellFormed(rows) && id in EditedRows(rows, edits)
    ensures var r := EditedRows(rows, edits)[id];
            r.id == rows[id].id && r.status == rows[id].status && r.attempts == rows[id].attempts
            && r.sequence == rows[id].sequence && r.role == rows[id].role
            && forall d :: d in r.dependsOn <==> d in rows[id].dependsOn && d in EditedRows(rows, edits)
  {
    RetitleKeepsRouting(rows[id], edits);
  }

  lemma EditKeepsBoard(rows: Tasks, edits: seq<PlanTaskEdit>)
    requires WellFormed(rows)
    ensures WellFormed(EditedRows(rows, edits))
  {
    var out := EditedRows(rows, edits);
    forall id | id in out
      ensures out[id].id == rows[id].id && out[id].status == rows[id].status
              && out[id].sequence == rows[id].sequence
              && forall d :: d in out[id].dependsOn <==> d in rows[id].dependsOn && d in out
    {
      EditKeepsDependencies(rows, edits, id);
    }
    Restricted(rows, out);
  }

  lemma LoneTaskKeepsDependencies(ts: Tasks, id: Id, out: Tasks)
    requires DependsDownward(ts) && NoDeadWait(ts)
    requires out.Keys == ts.Keys + {id} && id !in ts && out[id].dependsOn == {}
    requires forall k :: k in ts ==> out[k] == ts[k]
    ensures DependsDownward(out) && NoDeadWait(out)
  {
    forall k, d | k in out && d in out[k].dependsOn
      ensures k in ts && d in ts
    {
    }
  }

  /** A task above all others that waits on nothing can join any board that has room. */
  lemma JoinAtTop(ts: Tasks, t: Task, out: Tasks)
    requires WellFormed(ts) && t.id !in ts && |ts.Keys| < MAX_BOARD_TASKS
    requires t.status == Pending && t.dependsOn == {}
    requires forall id :: id in ts ==> ts[id].sequence < t.sequence
    requires out.Keys == ts.Keys + {t.id} && out[t.id] == t
    requires forall k :: k in ts ==> out[k] == ts[k]
    ensures WellFormed(out)
  {
    LoneTaskKeepsDependencies(ts, t.id, out);
  }

  lemma AddKeepsBoard(db: Db, id: Id, role: string, title: string, description: Option<string>)
    requires WellFormed(db.rows) && CanAdd(db, id)
    ensures WellFormed(AddTask(db, id, role, title, description).rows)
  {
    var out := AddTask(db, id, role, title, description).rows;
    assert out.Keys == db.rows.Keys + {id};
    JoinAtTop(db.rows, out[id], out);
  }

  /** A refused skip is the only one that could strand a task: skipping a pending task keeps the
      board free of dead waits if and only if nothing unfinished depends on it. */
  lemma SkipKeepsBoardIff(db: Db, id: Id)
    requires WellFormed(db.rows) && id in db.rows && db.rows[id].status == Pending
    ensures WellFormed(SkipTask(db, id).rows) <==> CanSkip(db.rows, id)
  {
    var out := SkipTask(db, id).rows;
    assert out.Keys == db.rows.Keys;
    SameShapeKeepsShape(db.rows, out);
    if !CanSkip(db.rows, id) {
      var k :| k in db.rows && id in db.rows[k].dependsOn && Unfinished(db.rows[k].status);
      assert db.rows[id].sequence < db.rows[k].sequence;
      assert !NoDeadWait(out);
    }
  }
}
