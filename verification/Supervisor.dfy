/** The supervisor's code over its list of tasks, proved to compute the routing functions. */
module Supervisor {
  import opened Wrappers
  import opened Board
  import opened Routing

  datatype SupervisorState = SupervisorState(tasks: seq<Task>, current: Option<Id>, failure: Option<Failure>)

  datatype Node = ExecuteNode | FinalizeNode | End

  ghost predicate DistinctIds(tasks: seq<Task>) {
    forall i, j :: 0 <= i < j < |tasks| ==> tasks[i].id != tasks[j].id
  }

  /** The list holds each task of the map exactly once, and nothing else. */
  ghost predicate Lists(tasks: seq<Task>, ts: Tasks) {
    && DistinctIds(tasks)
    && |tasks| == |ts.Keys|
    && forall i :: 0 <= i < |tasks| ==> tasks[i].id in ts && ts[tasks[i].id] == tasks[i]
  }

  lemma {:induction false} IdCount(tasks: seq<Task>, ids: set<Id>)
    requires DistinctIds(tasks)
    requires forall id :: id in ids <==> exists i :: 0 <= i < |tasks| && tasks[i].id == id
    ensures |ids| == |tasks|
  {
    if tasks == [] {
      assert forall id :: id !in ids;
    } else {
      var rest := ids - {tasks[0].id};
      forall id | id in rest
        ensures exists i :: 0 <= i < |tasks[1..]| && tasks[1..][i].id == id
      {
        var i :| 0 <= i < |tasks| && tasks[i].id == id;
        assert tasks[1..][i - 1].id == id;
      }
      IdCount(tasks[1..], rest);
      assert tasks[0].id in ids;
    }
  }

  /** Every task of the map is somewhere in the list. */
  lemma Listed(tasks: seq<Task>, ts: Tasks, id: Id) returns (i: nat)
    requires Lists(tasks, ts) && id in ts
    ensures i < |tasks| && tasks[i] == ts[id] && tasks[i].id == id
  {
    var ids := set k | 0 <= k < |tasks| :: tasks[k].id;
    IdCount(tasks, ids);
    assert ids <= ts.Keys;
    SubsetSize(ids + {id}, ts.Keys);
    assert id !in ids ==> |ids + {id}| == |ids| + 1;
    i :| 0 <= i < |tasks| && tasks[i].id == id;
  }

  function DoneIds(tasks: seq<Task>): set<Id> {
    set t | t in tasks && t.status == Done :: t.id
  }

  function PendingWithin(tasks: seq<Task>, done: set<Id>): (eligible: seq<Task>)
    ensures forall t :: t in eligible <==> t in tasks && t.status == Pending && t.dependsOn <= done
  {
    if tasks == [] then []
    else
      var rest := PendingWithin(tasks[1..], done);
      if tasks[0].status == Pending && tasks[0].dependsOn <= done then [tasks[0]] + rest else rest
  }

  function EligibleTasks(tasks: seq<Task>): seq<Task> {
    PendingWithin(tasks, DoneIds(tasks))
  }

  function MinBySequence(tasks: seq<Task>): (least: Task)
    requires tasks != []
    ensures least in tasks && forall t :: t in tasks ==> least.sequence <= t.sequence
  {
    if |tasks| == 1 then tasks[0]
    else
      var rest := MinBySequence(tasks[1..]);
      if tasks[0].sequence <= rest.sequence then tasks[0] else rest
  }

  function Schedule(state: SupervisorState): SupervisorState {
    if state.failure.Some? then state.(current := None)
    else
      var eligible := EligibleTasks(state.tasks);
      if eligible != [] then state.(current := Some(MinBySequence(eligible).id))
      else if forall t :: t in state.tasks ==> Settled(t.status) then state.(current := None)
      else
        var stuck := set t | t in state.tasks && t.status == Pending :: t.sequence;
        state.(current := None, failure := Some(Deadlock(stuck)))
  }

  function AfterSchedule(state: SupervisorState): Node {
    if state.current.Some? then ExecuteNode
    else if state.failure.Some? then FinalizeNode
    else End
  }

  lemma DoneMatches(tasks: seq<Task>, ts: Tasks, d: Id)
    requires Lists(tasks, ts)
    ensures d in DoneIds(tasks) <==> d in ts && ts[d].status == Done
  {
    if d in ts && ts[d].status == Done {
      var i := Listed(tasks, ts, d);
      assert tasks[i] in tasks;
    }
  }

  lemma EligibleMatches(tasks: seq<Task>, ts: Tasks, i: nat)
    requires Lists(tasks, ts) && i < |tasks|
    ensures tasks[i] in EligibleTasks(tasks) <==> IsEligible(ts, tasks[i].id)
  {
    var t := tasks[i];
    forall d | d in t.dependsOn
      ensures d in DoneIds(tasks) <==> d in ts && ts[d].status == Done
    {
      DoneMatches(tasks, ts, d);
    }
    if IsEligible(ts, t.id) {
      forall d | d in t.dependsOn
        ensures d in DoneIds(tasks)
      {
        assert d in ts[t.id].dependsOn;
      }
    }
  }

  lemma MinIsNext(tasks: seq<Task>, ts: Tasks)
    requires Lists(tasks, ts) && EligibleTasks(tasks) != []
    ensures IsNext(ts, MinBySequence(EligibleTasks(tasks)).id)
  {
    var least := MinBySequence(EligibleTasks(tasks));
    var l :| 0 <= l < |tasks| && tasks[l] == least;
    EligibleMatches(tasks, ts, l);
    forall k | IsEligible(ts, k)
      ensures least.sequence <= ts[k].sequence
    {
      var i := Listed(tasks, ts, k);
      EligibleMatches(tasks, ts, i);
    }
  }

  lemma NoneEligible(tasks: seq<Task>, ts: Tasks, id: Id)
    requires Lists(tasks, ts) && EligibleTasks(tasks) == []
    ensures !IsNext(ts, id)
  {
    if IsEligible(ts, id) {
      var i := Listed(tasks, ts, id);
      EligibleMatches(tasks, ts, i);
    }
  }

  lemma StuckMatches(tasks: seq<Task>, ts: Tasks)
    requires Lists(tasks, ts)
    ensures (set t | t in tasks && t.status == Pending :: t.sequence) == StuckSequences(ts)
    ensures (forall t :: t in tasks ==> Settled(t.status)) <==> forall id :: id in ts ==> Settled(ts[id].status)
  {
    forall id | id in ts
      ensures ts[id] in tasks
    {
      var i := Listed(tasks, ts, id);
    }
  }

  /** The scheduling code takes exactly the route the map-level decision describes, and its edge leads on
      to the task it chose, to the finalizing node after a failure or a deadlock, and to the end otherwise. */
  lemma ScheduleFollowsRoute(state: SupervisorState, ts: Tasks)
    requires Lists(state.tasks, ts) && DistinctSequences(ts)
    ensures Schedule(state).tasks == state.tasks
    ensures state.failure.Some? ==>
              Schedule(state) == state.(current := None) && AfterSchedule(Schedule(state)) == FinalizeNode
    ensures state.failure.None? ==>
              match Route(ts)
              case Run(id) =>
                Schedule(state) == state.(current := Some(id)) && AfterSchedule(Schedule(state)) == ExecuteNode
              case AllSettled =>
                Schedule(state) == state.(current := None) && AfterSchedule(Schedule(state)) == End
              case Stuck(stuck) =>
                Schedule(state) == state.(current := None, failure := Some(Deadlock(stuck)))
                && AfterSchedule(Schedule(state)) == FinalizeNode
  {
    if EligibleTasks(state.tasks) != [] {
      MinIsNext(state.tasks, ts);
      var n :| IsNext(ts, n) && Route(ts) == Run(n);
      NextIsUnique(ts, n, MinBySequence(EligibleTasks(state.tasks)).id);
    } else {
      forall id
        ensures !IsNext(ts, id)
      {
        NoneEligible(state.tasks, ts, id);
      }
      StuckMatches(state.tasks, ts);
    }
  }

  method FindTask(tasks: seq<Task>, ghost ts: Tasks, id: Id) returns (i: nat)
    requires Lists(tasks, ts) && id in ts
    ensures i < |tasks| && tasks[i] == ts[id] && tasks[i].id == id
  {
    ghost var at := Listed(tasks, ts, id);
    i := 0;
    while tasks[i].id != id
      invariant i <= at
      decreases at - i
    {
      i := i + 1;
    }
  }

  /** The first half of the execute node: the current task is marked running and counted. */
  method BeginTask(tasks: seq<Task>, ghost ts: Tasks, current: Id) returns (out: seq<Task>)
    requires Lists(tasks, ts) && current in ts
    ensures Lists(out, Started(ts, current))
    ensures |out| == |tasks|
    ensures forall i :: 0 <= i < |out| ==>
              out[i] == if tasks[i].id == current then tasks[i].(status := InProgress, attempts := tasks[i].attempts + 1)
                        else tasks[i]
  {
    var i := FindTask(tasks, ts, current);
    var task := tasks[i];
    out := tasks[i := task.(status := InProgress, attempts := task.attempts + 1)];
    assert Started(ts, current).Keys == ts.Keys;
  }

  /** Those of the reported tasks the board does not hold yet. */
  function Unknown(newTasks: seq<Task>, known: set<Id>): (joining: seq<Task>)
    ensures forall t :: t in joining <==> t in newTasks && t.id !in known
  {
    if newTasks == [] then []
    else (if newTasks[0].id in known then [] else [newTasks[0]]) + Unknown(newTasks[1..], known)
  }

  lemma FirstListed(newTasks: seq<Task>, added: Tasks, known: set<Id>)
    requires Lists(newTasks, added) && newTasks != []
    ensures var first := newTasks[0];
            Lists(newTasks[1..], added - {first.id})
            && (added - {first.id} - known).Keys == (added - known).Keys - {first.id}
  {
  }

  lemma {:induction false} UnknownLists(newTasks: seq<Task>, added: Tasks, known: set<Id>)
    requires Lists(newTasks, added)
    ensures Lists(Unknown(newTasks, known), added - known)
  {
    if newTasks == [] {
      assert |added.Keys| == 0;
      assert (added - known).Keys <= added.Keys;
    } else {
      var first := newTasks[0];
      FirstListed(newTasks, added, known);
      UnknownLists(newTasks[1..], added - {first.id}, known);
      forall t | t in Unknown(newTasks[1..], known)
        ensures t.id != first.id
      {
        assert t in newTasks[1..];
      }
    }
  }

  lemma ExtendedLists(tasks: seq<Task>, ts: Tasks, joining: seq<Task>, more: Tasks, all: Tasks)
    requires Lists(tasks, ts) && Lists(joining, more) && ts.Keys !! more.Keys
    requires all.Keys == ts.Keys + more.Keys
    requires forall id :: id in ts ==> all[id] == ts[id]
    requires forall id :: id in more ==> all[id] == more[id]
    ensures Lists(tasks + joining, all)
  {
  }

  /** A list changed position by position, with ids kept, lists the map changed the same way. */
  lemma MappedLists(before: seq<Task>, ts: Tasks, out: seq<Task>, us: Tasks)
    requires Lists(before, ts) && |out| == |before| && us.Keys == ts.Keys
    requires forall i :: 0 <= i < |out| ==> out[i].id == before[i].id && us[out[i].id] == out[i]
    ensures Lists(out, us)
  {
  }

  method GiveBackTask(tasks: seq<Task>, ghost ts: Tasks, current: Id)
    returns (out: seq<Task>, failure: Option<Failure>)
    requires Lists(tasks, ts) && current in ts
    ensures Lists(out, AfterFailure(ts, current)) && failure == FailureOf(ts, current)
    ensures |out| == |tasks|
    ensures forall i :: 0 <= i < |out| ==>
              out[i] == if tasks[i].id != current then tasks[i]
                        else tasks[i].(status := if tasks[i].attempts > 2 then Failed else Pending)
    ensures failure == if ts[current].attempts > 2 then Some(GaveUp(ts[current].sequence, ts[current].attempts)) else None
  {
    var i := FindTask(tasks, ts, current);
    var task := tasks[i];
    failure := None;
    if task.attempts > MAX_RETRIES {
      out := tasks[i := task.(status := Failed)];
      failure := Some(GaveUp(task.sequence, task.attempts));
    } else {
      out := tasks[i := task.(status := Pending)];
    }
    assert AfterFailure(ts, current).Keys == ts.Keys;
  }

  method ApplySkips(tasks: seq<Task>, ghost ts: Tasks, skipped: set<Id>) returns (out: seq<Task>)
    requires Lists(tasks, ts)
    ensures Lists(out, SkipsApplied(ts, skipped))
  {
    out := tasks;
    var k := 0;
    while k < |out|
      invariant k <= |out| == |tasks|
      invariant forall j :: 0 <= j < k ==> out[j] == SkipReported(tasks[j], skipped)
      invariant forall j :: k <= j < |out| ==> out[j] == tasks[j]
    {
      if out[k].id in skipped && out[k].status == Pending {
        out := out[k := out[k].(status := Skipped)];
      }
      k := k + 1;
    }
    MappedLists(tasks, ts, out, SkipsApplied(ts, skipped));
  }

  method MarkDone(tasks: seq<Task>, ghost ts: Tasks, current: Id) returns (out: seq<Task>)
    requires Lists(tasks, ts) && current in ts
    ensures Lists(out, ts[current := ts[current].(status := Done)])
  {
    var i := FindTask(tasks, ts, current);
    out := tasks[i := tasks[i].(status := Done)];
    assert ts[current := ts[current].(status := Done)].Keys == ts.Keys;
  }

  /** After a success: the task is done, unknown tasks join, reported skips take effect. */
  method MergeOutcome(tasks: seq<Task>, ghost ts: Tasks, current: Id, newTasks: seq<Task>, ghost added: Tasks, skipped: set<Id>)
    returns (out: seq<Task>)
    requires Lists(tasks, ts) && current in ts && Lists(newTasks, added)
    ensures Lists(out, AfterSuccess(ts, current, added, skipped))
  {
    var done := MarkDone(tasks, ts, current);
    ghost var us := ts[current := ts[current].(status := Done)];
    var known := set t | t in done :: t.id;
    KnownIds(done, us, known);
    UnknownLists(newTasks, added, known);
    ExtendedLists(done, us, Unknown(newTasks, known), added - known, added + us);
    out := ApplySkips(done + Unknown(newTasks, known), added + us, skipped);
  }

  lemma KnownIds(tasks: seq<Task>, ts: Tasks, known: set<Id>)
    requires Lists(tasks, ts) && known == set t | t in tasks :: t.id
    ensures known == ts.Keys
  {
    forall id | id in ts
      ensures id in known
    {
      var i := Listed(tasks, ts, id);
      assert tasks[i] in tasks;
    }
  }

  /** A run that failed skips whatever it did not start. */
  method Finalize(tasks: seq<Task>, ghost ts: Tasks) returns (out: seq<Task>)
    requires Lists(tasks, ts)
    ensures Lists(out, Finalized(ts))
    ensures |out| == |tasks|
    ensures forall i :: 0 <= i < |out| ==>
              out[i] == if tasks[i].status == Pending then tasks[i].(status := Skipped) else tasks[i]
  {
    out := tasks;
    var k := 0;
    while k < |out|
      invariant k <= |out| == |tasks|
      invariant forall j :: 0 <= j < k ==>
                  out[j] == if tasks[j].status == Pending then tasks[j].(status := Skipped) else tasks[j]
      invariant forall j :: k <= j < |out| ==> out[j] == tasks[j]
    {
      if out[k].status == Pending { out := out[k := out[k].(status := Skipped)]; }
      k := k + 1;
    }
    MappedLists(tasks, ts, out, Finalized(ts));
  }
}
