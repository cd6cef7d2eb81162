/** Blocked items and the next item to start: useful only because the backlog is acyclic. */
module Insights {
  import opened Wrappers
  import opened Backlog

  predicate Settled(s: Status) { s == Done || s == Cancelled }

  predicate Startable(s: Status) { s == Proposed || s == Ready || s == OnHold }

  const DEFAULT_RANK := 2

  /** Lower is more urgent; a label the table does not know ranks with medium. */
  function Rank(priority: string): nat {
    if priority == "critical" then 0
    else if priority == "high" then 1
    else if priority == "medium" then 2
    else if priority == "low" then 3
    else DEFAULT_RANK
  }

  /** The items by id; of two with one id the later counts. */
  function ById(list: seq<Item>): (items: Items)
    ensures forall i :: 0 <= i < |list| ==> list[i].id in items
    ensures forall id :: id in items ==> items[id] in list && items[id].id == id
  {
    if list == [] then map[]
    else
      var last := list[|list| - 1];
      ById(list[..|list| - 1])[last.id := last]
  }

  lemma {:induction false} LaterCounts(list: seq<Item>, i: nat)
    requires i < |list| && forall j :: i < j < |list| ==> list[j].id != list[i].id
    ensures list[i].id in ById(list) && ById(list)[list[i].id] == list[i]
  {
    if i < |list| - 1 { LaterCounts(list[..|list| - 1], i); }
  }

  datatype BlockedItem = BlockedItem(id: ItemId, title: string, waitingOn: seq<ItemId>)

  /** The dependencies among these that are on the board and not done, in order. */
  function WaitingOn(items: Items, deps: seq<ItemId>): (waiting: seq<ItemId>)
    ensures forall d :: d in waiting <==> d in deps && d in items && items[d].status != Done
  {
    if deps == [] then []
    else if deps[0] in items && items[deps[0]].status != Done then [deps[0]] + WaitingOn(items, deps[1..])
    else WaitingOn(items, deps[1..])
  }

  /** Part by part and element by element, in order. */
  lemma {:induction false} WaitingOnInOrder(items: Items, a: seq<ItemId>, b: seq<ItemId>, x: ItemId)
    ensures WaitingOn(items, a + b) == WaitingOn(items, a) + WaitingOn(items, b)
    ensures WaitingOn(items, [x]) == (if x in items && items[x].status != Done then [x] else []) && WaitingOn(items, []) == []
    decreases |a|
  {
    if a == [] {
      assert a + b == b;
    } else {
      assert (a + b)[1..] == a[1..] + b;
      WaitingOnInOrder(items, a[1..], b, x);
    }
  }

  predicate IsBlocked(items: Items, item: Item) {
    !Settled(item.status) && WaitingOn(items, item.dependsOn) != []
  }

  predicate IsCandidate(items: Items, item: Item) {
    !Settled(item.status) && WaitingOn(items, item.dependsOn) == [] && Startable(item.status)
  }

  /** The conditions by their labels: blocked is what is open and waits on something on the board that is
      not done; a candidate is what has not begun and waits on no such thing. */
  lemma ConditionsMean(items: Items, item: Item)
    ensures IsBlocked(items, item) <==>
            item.status != Done && item.status != Cancelled
            && exists d :: d in item.dependsOn && d in items && items[d].status != Done
    ensures IsCandidate(items, item) <==>
            item.status in {Proposed, Ready, OnHold}
            && forall d :: d in item.dependsOn && d in items ==> items[d].status == Done
  {
    var waiting := WaitingOn(items, item.dependsOn);
    if waiting != [] {
      var d := waiting[0];
      assert d in waiting;
      assert d in item.dependsOn && d in items && items[d].status != Done;
    } else {
      assert forall d :: d in item.dependsOn && d in items && items[d].status != Done ==> d in waiting;
    }
  }

  function Report(items: Items, item: Item): BlockedItem {
    BlockedItem(item.id, item.title, WaitingOn(items, item.dependsOn))
  }

  /** The blocked items of a list, in board order. */
  function BlockedOf(items: Items, list: seq<Item>): (blocked: seq<BlockedItem>)
    ensures forall b :: b in blocked <==> exists item :: item in list && IsBlocked(items, item) && b == Report(items, item)
  {
    if list == [] then []
    else
      var last := list[|list| - 1];
      BlockedOf(items, list[..|list| - 1])
      + if IsBlocked(items, last) then [Report(items, last)] else []
  }

  /** Part by part and item by item, in board order. */
  lemma {:induction false} BlockedInOrder(items: Items, a: seq<Item>, b: seq<Item>, x: Item)
    ensures BlockedOf(items, a + b) == BlockedOf(items, a) + BlockedOf(items, b) && BlockedOf(items, []) == []
    ensures BlockedOf(items, [x]) ==
            if IsBlocked(items, x) then [BlockedItem(x.id, x.title, WaitingOn(items, x.dependsOn))] else []
    decreases |b|
  {
    if b == [] {
      assert a + b == a;
    } else {
      var n := |b| - 1;
      assert (a + b)[..|a + b| - 1] == a + b[..n];
      BlockedInOrder(items, a, b[..n], x);
    }
    assert [x][..0] == [];
  }

  function CandidatesOf(items: Items, list: seq<Item>): (candidates: seq<Item>)
    ensures forall item :: item in candidates <==> item in list && IsCandidate(items, item)
  {
    if list == [] then []
    else
      var last := list[|list| - 1];
      CandidatesOf(items, list[..|list| - 1]) + if IsCandidate(items, last) then [last] else []
  }

  // ---- The stable sort --------------------------------------------------------------------------

  /** Puts an item behind every item of the sorted list whose key is not larger. */
  function InsertBy(sorted: seq<Item>, item: Item, key: Item -> nat): seq<Item> {
    if sorted == [] || key(item) >= key(sorted[|sorted| - 1]) then sorted + [item]
    else InsertBy(sorted[..|sorted| - 1], item, key) + [sorted[|sorted| - 1]]
  }

  /** The list by key, items of equal key in their given order. */
  function SortBy(list: seq<Item>, key: Item -> nat): seq<Item> {
    if list == [] then [] else InsertBy(SortBy(list[..|list| - 1], key), list[|list| - 1], key)
  }

  predicate Ascending(list: seq<Item>, key: Item -> nat) {
    forall i, j :: 0 <= i < j < |list| ==> key(list[i]) <= key(list[j])
  }

  /** The first of the items with the smallest key stands at position k. */
  predicate IsFirstBest(list: seq<Item>, k: nat, key: Item -> nat) {
    k < |list|
    && (forall j :: 0 <= j < |list| ==> key(list[k]) <= key(list[j]))
    && (forall j :: 0 <= j < k ==> key(list[k]) < key(list[j]))
  }

  lemma {:induction false} InsertionKeepsOrder(sorted: seq<Item>, item: Item, key: Item -> nat)
    requires Ascending(sorted, key)
    ensures var out := InsertBy(sorted, item, key);
            && |out| == |sorted| + 1 && Ascending(out, key)
            && (out[|sorted|] == item || (sorted != [] && out[|sorted|] == sorted[|sorted| - 1]))
            && out[0] == if sorted != [] && key(item) >= key(sorted[0]) then sorted[0] else item
  {
    var n := |sorted| - 1;
    if sorted != [] && key(item) < key(sorted[n]) {
      InsertionKeepsOrder(sorted[..n], item, key);
    }
  }

  lemma {:induction false} InsertionKeepsItems(sorted: seq<Item>, item: Item, key: Item -> nat)
    ensures multiset(InsertBy(sorted, item, key)) == multiset(sorted) + multiset{item}
  {
    var n := |sorted| - 1;
    if sorted != [] && key(item) < key(sorted[n]) {
      InsertionKeepsItems(sorted[..n], item, key);
      assert sorted == sorted[..n] + [sorted[n]];
    }
  }

  lemma {:induction false} SortKeepsItems(list: seq<Item>, key: Item -> nat)
    ensures multiset(SortBy(list, key)) == multiset(list)
  {
    if list != [] {
      var n := |list| - 1;
      SortKeepsItems(list[..n], key);
      InsertionKeepsItems(SortBy(list[..n], key), list[n], key);
      assert list == list[..n] + [list[n]];
    }
  }

  lemma FirstBestOfLonger(list: seq<Item>, k: nat, key: Item -> nat)
    requires list != [] && IsFirstBest(list[..|list| - 1], k, key)
    ensures IsFirstBest(list, if key(list[|list| - 1]) < key(list[k]) then |list| - 1 else k, key)
  {
    var n := |list| - 1;
    assert forall j :: 0 <= j < n ==> list[..n][j] == list[j];
  }

  lemma {:induction false} SortAscends(list: seq<Item>, key: Item -> nat)
    ensures Ascending(SortBy(list, key), key) && |SortBy(list, key)| == |list|
  {
    if list != [] {
      var n := |list| - 1;
      SortAscends(list[..n], key);
      InsertionKeepsOrder(SortBy(list[..n], key), list[n], key);
    }
  }

  /** The head of the sorted list is the first of the items with the smallest key. */
  lemma {:induction false} SortedHeadIsFirstBest(list: seq<Item>, key: Item -> nat) returns (k: nat)
    requires list != []
    ensures IsFirstBest(list, k, key) && SortBy(list, key) != [] && SortBy(list, key)[0] == list[k]
  {
    var n := |list| - 1;
    var before := SortBy(list[..n], key);
    SortAscends(list[..n], key);
    InsertionKeepsOrder(before, list[n], key);
    k := 0;
    if n > 0 {
      k := SortedHeadIsFirstBest(list[..n], key);
      FirstBestOfLonger(list, k, key);
      if key(list[n]) < key(list[k]) { k := n; }
    }
  }

  function Urgency(item: Item): nat {
    Rank(item.priority)
  }

  /** The candidate to recommend: of the smallest key, and of those the first in board order. */
  predicate IsRecommended(items: Items, list: seq<Item>, b: nat, key: Item -> nat) {
    b < |list| && IsCandidate(items, list[b])
    && (forall j :: 0 <= j < |list| && IsCandidate(items, list[j]) ==> key(list[b]) <= key(list[j]))
    && (forall j :: 0 <= j < b && IsCandidate(items, list[j]) ==> key(list[b]) < key(list[j]))
  }

  /** The recommended item by its label: critical before high, high before medium and unknown labels, those
      before low; and of the items no less urgent the first on the board. */
  lemma RecommendedIsMostUrgent(items: Items, list: seq<Item>, b: nat, j: nat)
    requires IsRecommended(items, list, b, Urgency) && j < |list| && IsCandidate(items, list[j])
    ensures list[j].priority == "critical" ==> list[b].priority == "critical"
    ensures list[j].priority == "high" ==> list[b].priority in {"critical", "high"}
    ensures list[j].priority != "low" ==> list[b].priority != "low"
    ensures j < b ==>
              && list[j].priority != "critical" && (list[j].priority == "high" ==> list[b].priority == "critical")
              && (list[j].priority != "low" ==> list[b].priority in {"critical", "high"})
              && list[b].priority != "low"
  {
    assert Urgency(list[b]) <= Urgency(list[j]);
    if j < b { assert Urgency(list[b]) < Urgency(list[j]); }
  }

  lemma RecommendedOnLonger(items: Items, list: seq<Item>, b: nat, key: Item -> nat)
    requires list != [] && IsRecommended(items, list[..|list| - 1], b, key)
    requires IsCandidate(items, list[|list| - 1]) ==> key(list[b]) <= key(list[|list| - 1])
    ensures IsRecommended(items, list, b, key)
  {
    assert forall j :: 0 <= j < |list| - 1 ==> list[..|list| - 1][j] == list[j];
  }

  lemma {:induction false} BestCandidateOnBoard(items: Items, list: seq<Item>, k: nat, key: Item -> nat) returns (b: nat)
    requires IsFirstBest(CandidatesOf(items, list), k, key)
    ensures IsRecommended(items, list, b, key) && list[b] == CandidatesOf(items, list)[k]
  {
    var n := |list| - 1;
    var before, all := CandidatesOf(items, list[..n]), CandidatesOf(items, list);
    assert before <= all && all[..|before|] == before;
    if k < |before| {
      b := BestCandidateOnBoard(items, list[..n], k, key);
      if IsCandidate(items, list[n]) { assert all[|before|] == list[n]; }
      RecommendedOnLonger(items, list, b, key);
    } else {
      b := n;
      forall j | 0 <= j < n && IsCandidate(items, list[j])
        ensures key(list[n]) < key(list[j])
      {
        assert list[..n][j] in before;
      }
    }
  }

  method PlanInsights(list: seq<Item>) returns (blocked: seq<BlockedItem>, recommended: Option<ItemId>)
    ensures blocked == BlockedOf(ById(list), list)
    ensures recommended.None? <==> forall item :: item in list ==> !IsCandidate(ById(list), item)
    ensures recommended.Some? ==> exists b: nat :: IsRecommended(ById(list), list, b, Urgency) && list[b].id == recommended.value
  {
    var items := ById(list);
    blocked := [];
    var candidates: seq<Item> := [];
    var i := 0;
    while i < |list|
      invariant i <= |list|
      invariant blocked == BlockedOf(items, list[..i])
      invariant candidates == CandidatesOf(items, list[..i])
    {
      var item := list[i];
      assert list[..i + 1][..i] == list[..i];
      if !Settled(item.status) {
        var waiting := WaitingOn(items, item.dependsOn);
        if waiting != [] {
          blocked := blocked + [BlockedItem(item.id, item.title, waiting)];
        } else if Startable(item.status) {
          candidates := candidates + [item];
        }
      }
      i := i + 1;
    }
    assert list[..i] == list;
    var sorted := SortBy(candidates, Urgency);
    if candidates == [] { return blocked, None; }
    ghost var k := SortedHeadIsFirstBest(candidates, Urgency);
    ghost var b := BestCandidateOnBoard(items, list, k, Urgency);
    return blocked, Some(sorted[0].id);
  }

  // ---- Progress -----------------------------------------------------------------------------------

  lemma {:induction false} DistinctFit(p: seq<ItemId>, s: set<ItemId>)
    requires forall i :: 0 <= i < |p| ==> p[i] in s
    requires forall i, j :: 0 <= i < j < |p| ==> p[i] != p[j]
    ensures |p| <= |s|
  {
    if p != [] { DistinctFit(p[1..], s - {p[0]}); }
  }

  lemma RepeatIsCycle(items: Items, p: seq<ItemId>, i: nat)
    requires Path(items, p) && i < |p| && Edge(items, p[|p| - 1], p[i])
    ensures !Acyclic(items)
  {
    var cycle := p[i..] + [p[i]];
    forall j | 0 <= j < |cycle| - 1
      ensures Edge(items, cycle[j], cycle[j + 1])
    {
      if j < |cycle| - 2 { assert Edge(items, p[i + j], p[i + j + 1]); }
    }
    assert Path(items, cycle);
  }

  /** Following edges inside a finite set of an acyclic backlog must end. */
  lemma {:induction false} FollowToSink(items: Items, s: set<ItemId>, p: seq<ItemId>) returns (sink: ItemId)
    requires Acyclic(items) && Path(items, p)
    requires forall i :: 0 <= i < |p| ==> p[i] in s
    requires forall i, j :: 0 <= i < j < |p| ==> p[i] != p[j]
    ensures sink in s && forall d :: d in s ==> !Edge(items, sink, d)
    decreases |s| - |p|
  {
    DistinctFit(p, s);
    sink := p[|p| - 1];
    if d :| d in s && Edge(items, sink, d) {
      if i :| 0 <= i < |p| && p[i] == d { RepeatIsCycle(items, p, i); }
      DistinctFit(p + [d], s);
      sink := FollowToSink(items, s, p + [d]);
    }
  }

  predicate DistinctItems(list: seq<Item>) {
    forall i, j :: 0 <= i < j < |list| ==> list[i].id != list[j].id
  }

  /** No unsettled item waits on a cancelled one. */
  predicate NoneWaitsOnCancelled(list: seq<Item>) {
    forall item :: item in list && !Settled(item.status) ==>
      forall d :: d in item.dependsOn && d in ById(list) ==> ById(list)[d].status != Cancelled
  }

  /** The item can be worked on: it is recommended material, or already being worked on unblocked. */
  predicate CanMove(items: Items, item: Item) {
    IsCandidate(items, item) || (item.status == InProgress && !IsBlocked(items, item))
  }

  /** While something is unsettled, something can move: the insights of an acyclic backlog are never
      "everything is blocked". */
  lemma AcyclicBacklogProgresses(list: seq<Item>)
    requires DistinctItems(list) && Acyclic(ById(list)) && NoneWaitsOnCancelled(list)
    requires exists item :: item in list && !Settled(item.status)
    ensures exists item :: item in list && CanMove(ById(list), item)
  {
    var items := ById(list);
    var start :| start in list && !Settled(start.status);
    ByIdHolds(list, start);
    var sink := UnsettledSink(items, start.id);
    assert items[sink] in list;
    SinkIsUnblocked(items, sink);
    assert CanMove(items, items[sink]);
  }

  /** Some unsettled item waits on no unsettled item. */
  lemma UnsettledSink(items: Items, start: ItemId) returns (sink: ItemId)
    requires Acyclic(items) && start in items && !Settled(items[start].status)
    ensures sink in items && !Settled(items[sink].status)
    ensures forall d :: d in items && !Settled(items[d].status) ==> !Edge(items, sink, d)
  {
    var unsettled := set id | id in items && !Settled(items[id].status);
    assert Path(items, [start]);
    sink := FollowToSink(items, unsettled, [start]);
  }

  lemma SinkIsUnblocked(items: Items, sink: ItemId)
    requires sink in items && forall d :: d in items && !Settled(items[d].status) ==> !Edge(items, sink, d)
    requires forall d :: d in items[sink].dependsOn && d in items ==> items[d].status != Cancelled
    ensures WaitingOn(items, items[sink].dependsOn) == []
  {
    var waiting := WaitingOn(items, items[sink].dependsOn);
    if waiting != [] { WaitingIsAnEdge(items, sink, waiting[0]); }
  }

  lemma WaitingIsAnEdge(items: Items, id: ItemId, d: ItemId)
    requires id in items && d in WaitingOn(items, items[id].dependsOn)
    ensures Edge(items, id, d) && d in items && items[d].status != Done
  {
  }

  lemma {:induction false} ByIdHolds(list: seq<Item>, item: Item)
    requires DistinctItems(list) && item in list
    ensures item.id in ById(list) && ById(list)[item.id] == item
  {
    var n := |list| - 1;
    if item != list[n] {
      assert item in list[..n] by { assert list == list[..n] + [list[n]]; }
      ByIdHolds(list[..n], item);
      var i :| 0 <= i < n && list[..n][i] == item;
      assert list[i].id != list[n].id;
    }
  }

  /** Acyclicity is needed: two items waiting on each other leave nothing to recommend and nothing in
      progress. */
  lemma CycleStallsTheBacklog()
    ensures var list := [Item(1, "a", Ready, "high", [2]), Item(2, "b", Ready, "high", [1])];
            NoneWaitsOnCancelled(list) && forall item :: item in list ==> !CanMove(ById(list), item)
  {
    var a, b := Item(1, "a", Ready, "high", [2]), Item(2, "b", Ready, "high", [1]);
    ByIdHolds([a, b], a);
    ByIdHolds([a, b], b);
    assert 2 in WaitingOn(ById([a, b]), a.dependsOn) && 1 in WaitingOn(ById([a, b]), b.dependsOn);
  }

  /** So is the other condition: an acyclic backlog with one item waiting on a cancelled one stalls. */
  lemma CancelledDependencyStallsTheBacklog()
    ensures var list := [Item(1, "a", Cancelled, "high", []), Item(2, "b", Ready, "high", [1])];
            Acyclic(ById(list)) && forall item :: item in list ==> !CanMove(ById(list), item)
  {
    var a, b := Item(1, "a", Cancelled, "high", []), Item(2, "b", Ready, "high", [1]);
    ByIdHolds([a, b], a);
    ByIdHolds([a, b], b);
    assert 1 in WaitingOn(ById([a, b]), b.dependsOn);
    forall p
      ensures !(Path(ById([a, b]), p) && |p| >= 2 && p[0] == p[|p| - 1])
    {
      if |p| >= 2 && Edge(ById([a, b]), p[0], p[1]) {
        assert p[1] == 1;
        assert |p| > 2 ==> !Edge(ById([a, b]), p[1], p[2]);
      }
    }
  }
}
