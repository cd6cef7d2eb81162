/** The contract the scheduler relies on: a plan's tasks depend on earlier tasks only. */
module PlanValidation {
  import opened Wrappers
  import opened Board
  import Text

  const ENGINEER_ROLES := {"backend", "frontend", "devops"}

  /** A task as a model wrote it, before validation. */
  datatype RawTask = NotAnObject | RawTask(title: Option<string>, role: string, description: string, dependsOn: Option<seq<int>>)

  datatype PlanError =
    | NoSummary
    | WrongTaskCount(count: nat)
    | NotAnObjectAt(sequence: nat)
    | NoTitle(sequence: nat)
    | BadRole(sequence: nat)
    | BadDependencies(sequence: nat)

  /** The first thing wrong with the task at this position, if anything is. */
  function Fault(task: RawTask, sequence: nat): Option<PlanError> {
    if task.NotAnObject? then Some(NotAnObjectAt(sequence))
    else if task.title.None? || Text.Strip(task.title.value) == "" then Some(NoTitle(sequence))
    else if task.role !in ENGINEER_ROLES then Some(BadRole(sequence))
    else if task.dependsOn.None? || !EarlierOnly(task.dependsOn.value, sequence) then Some(BadDependencies(sequence))
    else None
  }

  /** Which fault a task has: an object with a title, a role of the three, and positions of earlier tasks
      only has none, and of several the first in this order is reported. */
  lemma FaultMeans(task: RawTask, sequence: nat)
    ensures var titled := task.RawTask? && task.title.Some? && Text.Strip(task.title.value) != "";
            var cast := titled && task.role in {"backend", "frontend", "devops"};
            var placed := cast && task.dependsOn.Some? && forall d :: d in task.dependsOn.value ==> 1 <= d <= sequence - 1;
            && (Fault(task, sequence) == Some(NotAnObjectAt(sequence)) <==> task.NotAnObject?)
            && (Fault(task, sequence) == Some(NoTitle(sequence)) <==> task.RawTask? && !titled)
            && (Fault(task, sequence) == Some(BadRole(sequence)) <==> titled && !cast)
            && (Fault(task, sequence) == Some(BadDependencies(sequence)) <==> cast && !placed)
            && (Fault(task, sequence).None? <==> placed)
  {
  }

  /** What the accepted task keeps of the raw one. */
  predicate Cleans(raw: RawTask, clean: PlanTask) {
    && raw.RawTask? && raw.title.Some? && raw.dependsOn.Some?
    && clean.title == Text.Title(raw.title.value)
    && clean.role == raw.role
    && clean.description == Text.Strip(raw.description)
    && |clean.dependsOn| == |raw.dependsOn.value|
    && forall k :: 0 <= k < |clean.dependsOn| ==> clean.dependsOn[k] == raw.dependsOn.value[k]
  }

  function AsPositions(deps: seq<int>): (positions: seq<nat>)
    requires forall d :: d in deps ==> 0 <= d
    ensures |positions| == |deps| && forall k :: 0 <= k < |deps| ==> positions[k] == deps[k]
  {
    if deps == [] then []
    else
      assert deps[0] in deps;
      assert forall d :: d in deps[1..] ==> d in deps;
      [deps[0]] + AsPositions(deps[1..])
  }

  /** Accepts a plan exactly when its summary is not blank, it has 1 to 8 tasks and no task has a fault;
      otherwise reports the first of these that fails. An accepted plan is one the board can hold. */
  method ValidatePlan(summary: string, tasks: seq<RawTask>) returns (r: Result<seq<PlanTask>, PlanError>)
    ensures r.Ok? <==>
              Text.Strip(summary) != "" && 1 <= |tasks| <= 8
              && forall i :: 0 <= i < |tasks| ==> Fault(tasks[i], i + 1).None?
    ensures r.Ok? ==> ValidPlan(r.value) && |r.value| == |tasks|
    ensures r.Ok? ==> forall i :: 0 <= i < |tasks| ==> Cleans(tasks[i], r.value[i])
    ensures Text.Strip(summary) == "" ==> r == Err(NoSummary)
    ensures Text.Strip(summary) != "" && !(1 <= |tasks| <= MAX_PLAN_TASKS) ==> r == Err(WrongTaskCount(|tasks|))
    ensures r.Err? && Text.Strip(summary) != "" && 1 <= |tasks| <= MAX_PLAN_TASKS ==>
              exists i :: 0 <= i < |tasks| && Fault(tasks[i], i + 1) == Some(r.error)
                          && forall k :: 0 <= k < i ==> Fault(tasks[k], k + 1).None?
  {
    if Text.Strip(summary) == "" { return Err(NoSummary); }
    if !(1 <= |tasks| <= MAX_PLAN_TASKS) { return Err(WrongTaskCount(|tasks|)); }
    var clean: seq<PlanTask> := [];
    var i := 0;
    while i < |tasks|
      invariant i <= |tasks| && |clean| == i
      invariant forall k :: 0 <= k < i ==> Fault(tasks[k], k + 1).None?
      invariant forall k :: 0 <= k < i ==> Cleans(tasks[k], clean[k]) && EarlierOnly(clean[k].dependsOn, k + 1)
    {
      var fault := Fault(tasks[i], i + 1);
      if fault.Some? { return Err(fault.value); }
      var raw := tasks[i];
      var positions := AsPositions(raw.dependsOn.value);
      assert EarlierOnly(positions, i + 1) by {
        forall d | d in positions
          ensures 1 <= d < i + 1
        {
          var k :| 0 <= k < |positions| && positions[k] == d;
          assert raw.dependsOn.value[k] in raw.dependsOn.value;
        }
      }
      clean := clean + [PlanTask(Text.Title(raw.title.value), raw.role,
                                 Text.Strip(raw.description), positions)];
      i := i + 1;
    }
    return Ok(clean);
  }

  /** Whatever plan is accepted and whatever ids its rows get, the stored board is well formed: the
      scheduler's assumption is discharged where the plan enters. */
  lemma AcceptedPlanMakesABoard(db: Db, plan: seq<PlanTask>, ids: seq<Id>, cost: nat)
    requires ValidPlan(plan) && |ids| == |plan| && Distinct(ids) && db.rows == map[]
    ensures WellFormed(StorePlan(db, plan, ids, cost).rows)
    ensures forall i :: 0 <= i < |plan| ==>
              ids[i] in StorePlan(db, plan, ids, cost).rows
              && StorePlan(db, plan, ids, cost).rows[ids[i]].sequence == i + 1
  {
    PlannedRowsWellFormed(plan, ids);
  }
}
