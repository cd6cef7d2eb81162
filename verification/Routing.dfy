/** How the supervisor routes over its in-memory board, seen as a map from task id to task. The
    list code in Supervisor is proved to compute these functions. */
module Routing {
  import opened Wrappers
  import opened Board

  datatype Failure = Deadlock(stuck: set<nat>) | GaveUp(sequence: nat, attempts: nat)

  datatype Decision = Run(id: Id) | AllSettled | Stuck(stuck: set<nat>)

  ghost predicate IsEligible(ts: Tasks, id: Id) {
    && id in ts && ts[id].status == Pending
    && forall d :: d in ts[id].dependsOn ==> d in ts && ts[d].status == Done
  }

  ghost predicate IsNext(ts: Tasks, id: Id) {
    IsEligible(ts, id) && forall k :: IsEligible(ts, k) ==> ts[id].sequence <= ts[k].sequence
  }

  ghost predicate IsLowestPending(ts: Tasks, id: Id) {
    && id in ts && ts[id].status == Pending
    && forall k :: k in ts && ts[k].status == Pending ==> ts[id].sequence <= ts[k].sequence
  }

  function StuckSequences(ts: Tasks): set<nat> {
    set id | id in ts && ts[id].status == Pending :: ts[id].sequence
  }

  ghost function Route(ts: Tasks): Decision {
    if exists id :: IsNext(ts, id) then
      var id :| IsNext(ts, id);
      Run(id)
    else if forall id :: id in ts ==> Settled(ts[id].status) then AllSettled
    else Stuck(StuckSequences(ts))
  }

  /** The board while a task runs: in progress, its attempt counted. */
  function Started(ts: Tasks, id: Id): Tasks
    requires id in ts
  {
    ts[id := ts[id].(status := InProgress, attempts := ts[id].attempts + 1)]
  }

  function AfterFailure(ts: Tasks, id: Id): Tasks
    requires id in ts
  {
    ts[id := ts[id].(status := if ts[id].attempts > MAX_RETRIES then Failed else Pending)]
  }

  function FailureOf(ts: Tasks, id: Id): Option<Failure>
    requires id in ts
  {
    if ts[id].attempts > MAX_RETRIES then Some(GaveUp(ts[id].sequence, ts[id].attempts)) else None
  }

  function SkipReported(t: Task, skipped: set<Id>): Task {
    if t.id in skipped && t.status == Pending then t.(status := Skipped) else t
  }

  function SkipsApplied(ts: Tasks, skipped: set<Id>): Tasks {
    map k | k in ts :: SkipReported(ts[k], skipped)
  }

  /** The board after a success: the task is done, tasks agents added join it, and the skips they
      reported take effect. */
  function AfterSuccess(ts: Tasks, id: Id, added: Tasks, skipped: set<Id>): Tasks
    requires id in ts
  {
    SkipsApplied(added + ts[id := ts[id].(status := Done)], skipped)
  }

  /** The board after a success, task by task: the task is done, tasks not known yet have joined, and
      pending tasks reported as skipped are skipped. */
  lemma AfterSuccessMeans(ts: Tasks, id: Id, added: Tasks, skipped: set<Id>)
    requires id in ts && Keyed(ts) && Keyed(added)
    ensures var after := AfterSuccess(ts, id, added, skipped);
            && after.Keys == ts.Keys + added.Keys && after[id] == ts[id].(status := Done)
            && forall k :: k in after && k != id ==>
                 var before := if k in ts then ts[k] else added[k];
                 after[k] == if before.status == Pending && k in skipped then before.(status := Skipped) else before
  {
  }

  function Finalized(ts: Tasks): Tasks {
    map id | id in ts :: if ts[id].status == Pending then ts[id].(status := Skipped) else ts[id]
  }

  lemma LeastSequence(ts: Tasks, ids: set<Id>, some: Id) returns (least: Id)
    requires ids <= ts.Keys && some in ids
    ensures least in ids && forall k :: k in ids ==> ts[least].sequence <= ts[k].sequence
    decreases |ids|
  {
    least := some;
    if k :| k in ids && k != some {
      var other := LeastSequence(ts, ids - {some}, k);
      if ts[other].sequence < ts[some].sequence { least := other; }
    }
  }

  lemma NextIsUnique(ts: Tasks, a: Id, b: Id)
    requires DistinctSequences(ts) && IsNext(ts, a) && IsNext(ts, b)
    ensures a == b
  {
  }

  /** Something eligible means something is chosen. */
  lemma EligibleHasNext(ts: Tasks, id: Id)
    requires IsEligible(ts, id)
    ensures exists n :: IsNext(ts, n)
  {
    var eligible := set k | k in ts && IsEligible(ts, k);
    assert id in eligible;
    var n := LeastSequence(ts, eligible, id);
    assert IsNext(ts, n);
  }

  /** Why the deadlock branch is dead code: on a board whose dependencies point down to tasks that
      are neither skipped, failed, blocked nor running, the lowest pending task can always run and
      is the one chosen. */
  lemma LowestPendingIsNext(ts: Tasks, id: Id)
    requires DistinctSequences(ts) && DependsDownward(ts) && IsLowestPending(ts, id)
    requires forall d :: d in ts[id].dependsOn ==> ts[d].status == Pending || ts[d].status == Done
    ensures IsNext(ts, id) && Route(ts) == Run(id)
  {
    assert IsEligible(ts, id);
    EligibleHasNext(ts, id);
    var n :| IsNext(ts, n);
    NextIsUnique(ts, n, id);
  }
}
