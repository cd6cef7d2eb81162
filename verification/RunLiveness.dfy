/** No run is lost: whatever happened to it, an approved run with budget left can still complete. */
module RunLiveness {
  import opened Board
  import opened Routing
  import opened RunMachine
  import opened BoardRefinement
  import opened RunSafety
  import opened RunTheorems
  import opened RunBuilding
  import opened QuietDelivery
  import opened RunExamples

  /** Nothing runs, failed or is blocked: every task is still to do or settled. */
  predicate OpenOrSettled(rows: Tasks) {
    forall id :: id in rows ==> rows[id].status == Pending || Settled(rows[id].status)
  }

  /** The run goes on from t; the same tasks are on its board, and the settled ones as they were. */
  predicate GoesOnWith(t: Trace, u: Trace)
    requires t.states != [] && u.states != []
  {
    && t.events <= u.events && Final(u).db.rows.Keys == Final(t).db.rows.Keys
    && forall id :: id in Final(t).db.rows && Settled(Final(t).db.rows[id].status) ==>
         Final(u).db.rows[id].status == Final(t).db.rows[id].status
  }

  lemma GoesOnFurther(t: Trace, u: Trace, w: Trace)
    requires t.states != [] && u.states != [] && w.states != []
    requires GoesOnWith(t, u) && GoesOnWith(u, w)
    ensures GoesOnWith(t, w)
  {
  }

  /** Whatever session there was is gone; the run is delivered again and its board loaded. */
  lemma Reload(t: Trace) returns (u: Trace)
    requires IsTrace(t) && Resumable(Final(t).db.status)
    ensures IsTrace(u) && GoesOnWith(t, u) && InStep(Final(u)) && OpenOrSettled(Final(u).db.rows)
    ensures Final(u).runner.session.steps == 0 && Final(u).db.spent == Final(t).db.spent && Final(u).db.cap == Final(t).db.cap
  {
    FinalInv(t);
    var idle := Then(t, Finish(Crash));
    var delivered := Then(idle, Board(Deliver(true)));
    Redelivered(Final(idle));
    u := Then(delivered, Board(Load));
  }

  lemma Redelivered(s: State)
    requires Inv(s) && s.runner == Idle && Resumable(s.db.status)
    ensures var s' := BoardApply(s, Deliver(true));
            && s'.runner == Dispatched && s'.db.status == Executing && OpenOrSettled(s'.db.rows)
            && s'.db.rows.Keys == s.db.rows.Keys && s'.db.spent == s.db.spent && s'.db.cap == s.db.cap
            && forall id :: id in s.db.rows && Settled(s.db.rows[id].status) ==> s'.db.rows[id].status == s.db.rows[id].status
  {
  }

  lemma OneFewer(before: Tasks, after: Tasks, n: Id)
    requires n in PendingIds(before) && after == WithDone(before, n)
    ensures PendingIds(after) == PendingIds(before) - {n}
    ensures OpenOrSettled(before) ==> OpenOrSettled(after)
    ensures after.Keys == before.Keys
    ensures forall id :: id in before && Settled(before[id].status) ==> after[id].status == before[id].status
  {
  }

  /** Task by task, the lowest first, everything pending is done. */
  lemma {:induction false} FinishAll(t: Trace) returns (u: Trace)
    requires IsTrace(t) && InStep(Final(t)) && WithinBudget(Final(t).db) && OpenOrSettled(Final(t).db.rows)
    requires Final(t).runner.session.steps + 2 * |PendingIds(Final(t).db.rows)| <= 2 * MAX_BOARD_TASKS
    ensures IsTrace(u) && GoesOnWith(t, u) && InStep(Final(u)) && WithinBudget(Final(u).db)
    ensures Final(u).runner.session.steps <= 2 * MAX_BOARD_TASKS
    ensures forall id :: id in Final(u).db.rows ==> Settled(Final(u).db.rows[id].status)
    decreases |PendingIds(Final(t).db.rows)|
  {
    var pending := PendingIds(Final(t).db.rows);
    if id :| id in pending {
      var n := WhoseTurn(t, id);
      var w := DoLowest(t, n);
      OneFewer(Final(t).db.rows, Final(w).db.rows, n);
      u := FinishAll(w);
      GoesOnFurther(t, w, u);
    } else {
      u := t;
      forall id | id in Final(t).db.rows
        ensures Settled(Final(t).db.rows[id].status)
      {
        assert id !in pending;
      }
    }
  }

  /** The graph ends, the board is synchronized as it is, and the first review is due. */
  lemma Synchronize(t: Trace) returns (u: Trace)
    requires IsTrace(t) && InStep(Final(t)) && Final(t).runner.session.steps < RECURSION_LIMIT
    requires forall id :: id in Final(t).db.rows ==> Settled(Final(t).db.rows[id].status)
    ensures IsTrace(u) && t.events <= u.events && InPhase(Final(u), FirstReview) && Final(u).db.rows == Final(t).db.rows
  {
    AllIsSettled(Final(t).runner.session);
    var ended := Then(t, Board(Schedule));
    SameRows(Final(t).db.rows, Synced(Final(t).db.rows, Final(t).runner.session.tasks));
    u := Then(ended, Board(Sync));
  }

  /** From every reachable state of an approved, unfinished run with budget left some continuation completes
      the run, with every task settled, the same tasks on the board, and the settled ones as they were. */
  lemma ApprovedRunCanComplete(t: Trace) returns (u: Trace)
    requires IsTrace(t) && Resumable(Final(t).db.status) && WithinBudget(Final(t).db)
    ensures IsTrace(u) && GoesOnWith(t, u) && Final(u).db.status == Completed
    ensures forall id :: id in Final(u).db.rows ==> Settled(Final(u).db.rows[id].status)
  {
    FinalInv(t);
    var loaded := Reload(t);
    SubsetSize(PendingIds(Final(loaded).db.rows), Final(loaded).db.rows.Keys);
    var done := FinishAll(loaded);
    var review := Synchronize(done);
    u := Approved(review);
    GoesOnFurther(t, loaded, done);
  }
}
