/** The durable backlog: a graph of work items that must stay acyclic through every edit. */
module Backlog {
  import opened Wrappers
  import Text

  type ItemId = int

  datatype Status = Proposed | Ready | InProgress | OnHold | Done | Cancelled

  datatype Item = Item(id: ItemId, title: string, status: Status, priority: string, dependsOn: seq<ItemId>)

  type Items = map<ItemId, Item>

  // ---- Paths ----------------------------------------------------------------------------------

  predicate Edge(items: Items, a: ItemId, b: ItemId) {
    a in items && b in items[a].dependsOn
  }

  predicate Path(items: Items, p: seq<ItemId>) {
    |p| >= 1 && forall i :: 0 <= i < |p| - 1 ==> Edge(items, p[i], p[i + 1])
  }

  predicate PathBetween(items: Items, p: seq<ItemId>, a: ItemId, b: ItemId) {
    Path(items, p) && p[0] == a && p[|p| - 1] == b
  }

  ghost predicate Reaches(items: Items, a: ItemId, b: ItemId) {
    exists p :: PathBetween(items, p, a, b)
  }

  ghost predicate Acyclic(items: Items) {
    forall p :: Path(items, p) && |p| >= 2 ==> p[0] != p[|p| - 1]
  }

  /** Every dependency is an item of the same backlog. */
  predicate Closed(items: Items) {
    forall a :: a in items ==> forall b :: b in items[a].dependsOn ==> b in items
  }

  ghost predicate ReachedFromSome(items: Items, starts: seq<ItemId>, b: ItemId) {
    exists d :: d in starts && Reaches(items, d, b)
  }

  lemma ReachesItself(items: Items, a: ItemId)
    ensures Reaches(items, a, a)
  {
    assert PathBetween(items, [a], a, a);
  }

  lemma ReachesFurther(items: Items, a: ItemId, b: ItemId, c: ItemId)
    requires Reaches(items, a, b) && Edge(items, b, c)
    ensures Reaches(items, a, c)
  {
    var p :| PathBetween(items, p, a, b);
    assert PathBetween(items, p + [c], a, c);
  }

  /** A path that starts in a set its edges never leave ends in it. */
  lemma {:induction false} StaysInside(items: Items, s: set<ItemId>, p: seq<ItemId>)
    requires Path(items, p) && p[0] in s
    requires forall a, b :: a in s && Edge(items, a, b) ==> b in s
    ensures p[|p| - 1] in s
  {
    if |p| > 1 {
      assert Edge(items, p[0], p[1]);
      forall i | 0 <= i < |p| - 2
        ensures Edge(items, p[1..][i], p[1..][i + 1])
      {
        assert Edge(items, p[i + 1], p[i + 2]);
      }
      StaysInside(items, s, p[1..]);
    }
  }

  // ---- The worklist check ---------------------------------------------------------------------

  /** What visiting a node puts on the stack. */
  function Successors(items: Items, node: ItemId): seq<ItemId> {
    if node in items then items[node].dependsOn else []
  }

  ghost predicate AllReached(items: Items, starts: seq<ItemId>, xs: seq<ItemId>) {
    forall x :: x in xs ==> ReachedFromSome(items, starts, x)
  }

  /** The edges that leave the seen nodes lead to seen or stacked nodes. */
  predicate Frontier(items: Items, starts: seq<ItemId>, seen: set<ItemId>, stack: seq<ItemId>) {
    && (forall d :: d in starts ==> d in seen || d in stack)
    && (forall a :: a in seen ==> forall b :: b in Successors(items, a) ==> b in seen || b in stack)
  }

  lemma StartsReached(items: Items, starts: seq<ItemId>)
    ensures AllReached(items, starts, starts)
  {
    forall d | d in starts
      ensures ReachedFromSome(items, starts, d)
    {
      ReachesItself(items, d);
    }
  }

  lemma SuccessorsReached(items: Items, starts: seq<ItemId>, node: ItemId)
    requires ReachedFromSome(items, starts, node)
    ensures AllReached(items, starts, Successors(items, node))
  {
    forall x | x in Successors(items, node)
      ensures ReachedFromSome(items, starts, x)
    {
      var d :| d in starts && Reaches(items, d, node);
      ReachesFurther(items, d, node, x);
    }
  }

  lemma ExhaustedSearchMissesNothing(items: Items, starts: seq<ItemId>, seen: set<ItemId>, x: ItemId)
    requires Frontier(items, starts, seen, []) && ReachedFromSome(items, starts, x)
    ensures x in seen
  {
    var d :| d in starts && Reaches(items, d, x);
    var p :| PathBetween(items, p, d, x);
    StaysInside(items, seen, p);
  }

  /** Whether this item can be reached from one of the proposed dependencies. */
  method ClosesCycle(items: Items, edited: ItemId, newDeps: seq<ItemId>) returns (cycle: bool)
    ensures cycle <==> ReachedFromSome(items, newDeps, edited)
  {
    var stack := newDeps;
    var seen: set<ItemId> := {};
    StartsReached(items, newDeps);
    while stack != []
      invariant edited !in seen
      invariant AllReached(items, newDeps, stack)
      invariant Frontier(items, newDeps, seen, stack)
      decreases items.Keys - seen, |stack|
    {
      var node := stack[|stack| - 1];
      var rest := stack[..|stack| - 1];
      assert stack == rest + [node];
      stack := rest;
      if node == edited { return true; }
      if node !in seen {
        SuccessorsReached(items, newDeps, node);
        seen := seen + {node};
        stack := stack + Successors(items, node);
      }
    }
    if ReachedFromSome(items, newDeps, edited) {
      ExhaustedSearchMissesNothing(items, newDeps, seen, edited);
    }
    return false;
  }

  // ---- Dependencies of one item -----------------------------------------------------------------

  datatype BacklogError = UnknownItem | UnknownDependencies(missing: seq<ItemId>) | WouldCycle | BadRoadmap(why: RoadmapFault)

  datatype RoadmapFault = WrongItemCount | NotAnObjectAt(sequence: nat) | NoTitle(sequence: nat) | BadDependencies(sequence: nat)

  /** The ids without this one: an item never depends on itself. */
  function Others(ids: seq<ItemId>, edited: Option<ItemId>): (others: seq<ItemId>)
    ensures forall d :: d in others <==> d in ids && edited != Some(d)
  {
    if ids == [] then []
    else if edited == Some(ids[0]) then Others(ids[1..], edited)
    else [ids[0]] + Others(ids[1..], edited)
  }

  function Missing(items: Items, ids: seq<ItemId>): (missing: seq<ItemId>)
    ensures forall d :: d in missing <==> d in ids && d !in items
  {
    if ids == [] then []
    else if ids[0] in items then Missing(items, ids[1..])
    else [ids[0]] + Missing(items, ids[1..])
  }

  /** Part by part and element by element, in order. */
  lemma {:induction false} OthersInOrder(a: seq<ItemId>, b: seq<ItemId>, x: ItemId, edited: Option<ItemId>)
    ensures Others(a + b, edited) == Others(a, edited) + Others(b, edited)
    ensures Others([x], edited) == (if edited != Some(x) then [x] else []) && Others([], edited) == []
    decreases |a|
  {
    if a == [] {
      assert a + b == b;
    } else {
      assert (a + b)[1..] == a[1..] + b;
      OthersInOrder(a[1..], b, x, edited);
    }
  }

  /** Part by part and element by element, in order. */
  lemma {:induction false} MissingInOrder(items: Items, a: seq<ItemId>, b: seq<ItemId>, x: ItemId)
    ensures Missing(items, a + b) == Missing(items, a) + Missing(items, b)
    ensures Missing(items, [x]) == (if x !in items then [x] else []) && Missing(items, []) == []
    decreases |a|
  {
    if a == [] {
      assert a + b == b;
    } else {
      assert (a + b)[1..] == a[1..] + b;
      MissingInOrder(items, a[1..], b, x);
    }
  }

  /** What should become of proposed dependencies: unknown ids are reported before cycles; otherwise the
      proposed ids are kept, in order, without the item itself. */
  ghost function Verdict(items: Items, dependsOn: seq<ItemId>, edited: Option<ItemId>): Result<seq<ItemId>, BacklogError> {
    var ids := Others(dependsOn, edited);
    if Missing(items, ids) != [] then Err(UnknownDependencies(Missing(items, ids)))
    else if edited.Some? && ReachedFromSome(items, ids, edited.value) then Err(WouldCycle)
    else Ok(ids)
  }

  lemma NothingMissing(items: Items, ids: seq<ItemId>)
    ensures Missing(items, ids) == [] <==> forall d :: d in ids ==> d in items
  {
    if d :| d in ids && d !in items { assert d in Missing(items, ids); }
    if Missing(items, ids) != [] {
      var d := Missing(items, ids)[0];
      assert d in Missing(items, ids);
      assert d in ids && d !in items;
    }
  }

  method ValidateDependencies(items: Items, dependsOn: seq<ItemId>, edited: Option<ItemId>)
    returns (r: Result<seq<ItemId>, BacklogError>)
    ensures r == Verdict(items, dependsOn, edited)
    ensures var ids := Others(dependsOn, edited);
            && ((exists d :: d in ids && d !in items) ==> r == Err(UnknownDependencies(Missing(items, ids))))
            && ((forall d :: d in ids ==> d in items) ==>
                  r == if edited.Some? && ReachedFromSome(items, ids, edited.value) then Err(WouldCycle) else Ok(ids))
  {
    NothingMissing(items, Others(dependsOn, edited));
    var ids := Others(dependsOn, edited);
    if ids == [] { return Ok([]); }
    var missing := Missing(items, ids);
    if missing != [] { return Err(UnknownDependencies(missing)); }
    if edited.Some? {
      var cycle := ClosesCycle(items, edited.value, ids);
      if cycle { return Err(WouldCycle); }
    }
    return Ok(ids);
  }

  // ---- Why the check is the right one ---------------------------------------------------------------

  function WithDependencies(items: Items, id: ItemId, deps: seq<ItemId>): Items
    requires id in items
  {
    items[id := items[id].(dependsOn := deps)]
  }

  /** The part of a path up to its first visit to a node. */
  lemma {:induction false} FirstArrival(items: Items, p: seq<ItemId>, i: nat) returns (n: nat)
    requires Path(items, p) && i < |p|
    ensures n <= i && p[n] == p[i] && p[i] !in p[..n]
    ensures Path(items, p[..n + 1])
  {
    n := 0;
    while p[n] != p[i]
      invariant n <= i && p[i] !in p[..n]
      decreases i - n
    {
      assert p[..n + 1] == p[..n] + [p[n]];
      n := n + 1;
    }
    var q := p[..n + 1];
    forall k | 0 <= k < |q| - 1
      ensures Edge(items, q[k], q[k + 1])
    {
      assert Edge(items, p[k], p[k + 1]);
    }
  }

  /** A path that leaves the edited item at most at its end exists before and after the edit. */
  lemma SamePath(items: Items, id: ItemId, deps: seq<ItemId>, p: seq<ItemId>)
    requires id in items && p != [] && id !in p[..|p| - 1]
    ensures Path(items, p) <==> Path(WithDependencies(items, id, deps), p)
  {
    forall i | 0 <= i < |p| - 1
      ensures Edge(items, p[i], p[i + 1]) <==> Edge(WithDependencies(items, id, deps), p[i], p[i + 1])
    {
      assert p[i] == p[..|p| - 1][i];
    }
  }

  /** Reaching the edited item does not depend on the item's own dependencies. */
  lemma ReachingTheEditedItem(items: Items, id: ItemId, deps: seq<ItemId>, d: ItemId)
    requires id in items
    ensures Reaches(items, d, id) <==> Reaches(WithDependencies(items, id, deps), d, id)
  {
    var after := WithDependencies(items, id, deps);
    if Reaches(items, d, id) {
      var p :| PathBetween(items, p, d, id);
      var n := FirstArrival(items, p, |p| - 1);
      assert p[..n + 1][..n] == p[..n];
      SamePath(items, id, deps, p[..n + 1]);
      assert PathBetween(after, p[..n + 1], d, id);
    }
    if Reaches(after, d, id) {
      var p :| PathBetween(after, p, d, id);
      var n := FirstArrival(after, p, |p| - 1);
      assert p[..n + 1][..n] == p[..n];
      SamePath(items, id, deps, p[..n + 1]);
      assert PathBetween(items, p[..n + 1], d, id);
    }
  }

  /** A cycle through a node can be walked from the node's successor back to the node. */
  lemma CycleFrom(items: Items, p: seq<ItemId>, i: nat) returns (q: seq<ItemId>)
    requires Path(items, p) && |p| >= 2 && p[0] == p[|p| - 1] && i < |p| - 1
    ensures PathBetween(items, q, p[i + 1], p[i])
  {
    q := p[i + 1..] + p[1..i + 1];
    var cut := |p| - i - 1;
    forall k | 0 <= k < |q| - 1
      ensures Edge(items, q[k], q[k + 1])
    {
      if k < cut - 1 {
        assert Edge(items, p[i + 1 + k], p[i + 2 + k]);
      } else {
        assert q[k] == p[k - cut + 1] && q[k + 1] == p[k - cut + 2];
        assert Edge(items, p[k - cut + 1], p[k - cut + 2]);
      }
    }
  }

  /** The edit leaves the graph acyclic exactly when no proposed dependency reaches the item: the check
      refuses every edit that would close a cycle and no other. */
  lemma EditIsAcyclicIff(items: Items, id: ItemId, deps: seq<ItemId>)
    requires Acyclic(items) && id in items
    ensures Acyclic(WithDependencies(items, id, deps)) <==> !ReachedFromSome(items, deps, id)
  {
    var after := WithDependencies(items, id, deps);
    if d :| d in deps && Reaches(items, d, id) {
      ReachingTheEditedItem(items, id, deps, d);
      var p :| PathBetween(after, p, d, id);
      var cycle := [id] + p;
      assert Edge(after, cycle[0], cycle[1]);
      assert forall i :: 1 <= i < |cycle| - 1 ==> cycle[i] == p[i - 1] && cycle[i + 1] == p[i];
      assert Path(after, cycle) && cycle[0] == cycle[|cycle| - 1];
    } else {
      forall p | Path(after, p) && |p| >= 2
        ensures p[0] != p[|p| - 1]
      {
        if p[0] == p[|p| - 1] { NoCycleAfter(items, id, deps, p); }
      }
    }
  }

  lemma NoCycleAfter(items: Items, id: ItemId, deps: seq<ItemId>, p: seq<ItemId>)
    requires Acyclic(items) && id in items && !ReachedFromSome(items, deps, id)
    requires Path(WithDependencies(items, id, deps), p) && |p| >= 2
    ensures p[0] != p[|p| - 1]
  {
    var after := WithDependencies(items, id, deps);
    if p[0] == p[|p| - 1] {
      if id in p[..|p| - 1] {
        var i :| 0 <= i < |p| - 1 && p[..|p| - 1][i] == id;
        assert Edge(after, p[i], p[i + 1]);
        var q := CycleFrom(after, p, i);
        assert Reaches(after, p[i + 1], id);
        ReachingTheEditedItem(items, id, deps, p[i + 1]);
      } else {
        SamePath(items, id, deps, p);
      }
    }
  }

  /** A new item depends on known ones and nothing depends on it, so no check is needed. */
  lemma CreationKeepsAcyclic(items: Items, item: Item)
    requires Closed(items) && Acyclic(items) && item.id !in items
    requires forall d :: d in item.dependsOn ==> d in items
    ensures Closed(items[item.id := item]) && Acyclic(items[item.id := item])
  {
    var after := items[item.id := item];
    forall p | Path(after, p) && |p| >= 2
      ensures p[0] != p[|p| - 1]
    {
      assert Edge(after, p[0], p[1]);
      assert p[1..] != [] && p[1..][|p| - 2] == p[|p| - 1];
      forall i | 0 <= i < |p[1..]| - 1
        ensures Edge(after, p[1..][i], p[1..][i + 1])
      {
        assert Edge(after, p[i + 1], p[i + 2]);
      }
      OldPathsStayOld(items, after, p[1..]);
      if p[0] in items { OldPathsStayOld(items, after, p); }
    }
  }

  /** When the old items are untouched, a path that starts at an old item is an old path. */
  lemma {:induction false} OldPathsStayOld(before: Items, after: Items, p: seq<ItemId>)
    requires Closed(before) && Path(after, p) && p[0] in before
    requires forall id :: id in before ==> id in after && after[id] == before[id]
    ensures Path(before, p) && p[|p| - 1] in before
  {
    if |p| > 1 {
      var rest := p[1..];
      assert Edge(after, p[0], p[1]);
      forall i | 0 <= i < |rest| - 1
        ensures Edge(after, rest[i], rest[i + 1])
      {
        assert Edge(after, p[i + 1], p[i + 2]);
      }
      OldPathsStayOld(before, after, rest);
      forall i | 0 <= i < |p| - 1
        ensures Edge(before, p[i], p[i + 1])
      {
        if i > 0 { assert Edge(before, rest[i - 1], rest[i]); }
      }
    }
  }

  // ---- Roadmaps -------------------------------------------------------------------------------------

  const MAX_ROADMAP_ITEMS := 20
  const PRIORITIES := {"low", "medium", "high", "critical"}

  /** A roadmap item as a model wrote it. A missing dependency list reads as an empty one; one that is
      not a list of integers as None. */
  datatype RawItem = NotAnObject | RawItem(title: Option<string>, priority: string, dependsOn: Option<seq<int>>)

  datatype RoadmapItem = RoadmapItem(title: string, priority: string, dependsOn: seq<int>)

  predicate EarlierPositions(deps: seq<int>, sequence: int) {
    forall d :: d in deps ==> 1 <= d < sequence
  }

  function Fault(item: RawItem, sequence: nat): Option<RoadmapFault> {
    if item.NotAnObject? then Some(NotAnObjectAt(sequence))
    else if item.title.None? || Text.Strip(item.title.value) == "" then Some(NoTitle(sequence))
    else if item.dependsOn.None? || !EarlierPositions(item.dependsOn.value, sequence) then Some(BadDependencies(sequence))
    else None
  }

  /** Which fault an item has: an object with a title and positions of earlier items only has none, and of
      several the first in this order is reported. */
  lemma FaultMeans(item: RawItem, sequence: nat)
    ensures var titled := item.RawItem? && item.title.Some? && Text.Strip(item.title.value) != "";
            var placed := titled && item.dependsOn.Some? && forall d :: d in item.dependsOn.value ==> 1 <= d <= sequence - 1;
            && (Fault(item, sequence) == Some(NotAnObjectAt(sequence)) <==> item.NotAnObject?)
            && (Fault(item, sequence) == Some(NoTitle(sequence)) <==> item.RawItem? && !titled)
            && (Fault(item, sequence) == Some(BadDependencies(sequence)) <==> titled && !placed)
            && (Fault(item, sequence).None? <==> placed)
  {
  }

  function Cleaned(item: RawItem): RoadmapItem
    requires item.RawItem? && item.title.Some? && item.dependsOn.Some?
  {
    RoadmapItem(Text.Title(item.title.value),
                if item.priority in PRIORITIES then item.priority else "medium",
                item.dependsOn.value)
  }

  /** What the accepted item keeps of the raw one. */
  predicate Keeps(raw: RawItem, clean: RoadmapItem) {
    && raw.RawItem? && raw.title.Some? && raw.dependsOn.Some?
    && clean.title == Text.Title(raw.title.value) && clean.dependsOn == raw.dependsOn.value
    && clean.priority == if raw.priority in {"low", "medium", "high", "critical"} then raw.priority else "medium"
  }

  lemma CleanedKeeps(item: RawItem)
    requires item.RawItem? && item.title.Some? && item.dependsOn.Some?
    ensures Keeps(item, Cleaned(item))
  {
  }

  /** A roadmap the backlog can hold: positions refer to earlier items only. */
  predicate ValidRoadmap(roadmap: seq<RoadmapItem>) {
    1 <= |roadmap| <= MAX_ROADMAP_ITEMS
    && forall k :: 0 <= k < |roadmap| ==> EarlierPositions(roadmap[k].dependsOn, k + 1)
  }

  /** Accepts exactly the roadmaps of 1 to 20 faultless items; otherwise reports the first fault. */
  method ValidateRoadmap(raw: seq<RawItem>) returns (r: Result<seq<RoadmapItem>, BacklogError>)
    ensures r.Ok? <==>
              1 <= |raw| <= 20 && forall k :: 0 <= k < |raw| ==> Fault(raw[k], k + 1).None?
    ensures r.Ok? ==> ValidRoadmap(r.value) && |r.value| == |raw|
    ensures r.Ok? ==> forall k :: 0 <= k < |raw| ==> Keeps(raw[k], r.value[k])
    ensures r.Err? ==> r.error.BadRoadmap?
    ensures !(1 <= |raw| <= MAX_ROADMAP_ITEMS) ==> r == Err(BadRoadmap(WrongItemCount))
    ensures r.Err? && 1 <= |raw| <= MAX_ROADMAP_ITEMS ==>
              exists k :: 0 <= k < |raw| && Fault(raw[k], k + 1) == Some(r.error.why)
                          && forall j :: 0 <= j < k ==> Fault(raw[j], j + 1).None?
  {
    if !(1 <= |raw| <= MAX_ROADMAP_ITEMS) { return Err(BadRoadmap(WrongItemCount)); }
    var clean: seq<RoadmapItem> := [];
    var k := 0;
    while k < |raw|
      invariant k <= |raw| && |clean| == k
      invariant forall j :: 0 <= j < k ==> Fault(raw[j], j + 1).None?
      invariant forall j :: 0 <= j < k ==> Keeps(raw[j], clean[j]) && EarlierPositions(clean[j].dependsOn, j + 1)
    {
      var fault := Fault(raw[k], k + 1);
      if fault.Some? { return Err(BadRoadmap(fault.value)); }
      CleanedKeeps(raw[k]);
      clean := clean + [Cleaned(raw[k])];
      k := k + 1;
    }
    return Ok(clean);
  }

  /** Positions resolved to the ids the new items were given. */
  function Resolve(ids: seq<ItemId>, deps: seq<int>): (resolved: seq<ItemId>)
    requires EarlierPositions(deps, |ids| + 1)
    ensures |resolved| == |deps|
    ensures forall i :: 0 <= i < |deps| ==> 1 <= deps[i] <= |ids| && resolved[i] == ids[deps[i] - 1]
  {
    if deps == [] then []
    else
      assert deps[0] in deps;
      assert forall d :: d in deps[1..] ==> d in deps;
      [ids[deps[0] - 1]] + Resolve(ids, deps[1..])
  }

  predicate FreshIds(items: Items, ids: seq<ItemId>) {
    && (forall i, j :: 0 <= i < j < |ids| ==> ids[i] != ids[j])
    && (forall i :: 0 <= i < |ids| ==> ids[i] !in items)
  }

  /** The item a roadmap entry becomes. */
  function NewItem(entry: RoadmapItem, ids: seq<ItemId>, k: nat): Item
    requires k < |ids| && EarlierPositions(entry.dependsOn, |ids| + 1)
  {
    Item(ids[k], entry.title, Proposed, entry.priority, Resolve(ids, entry.dependsOn))
  }

  /** The k-th entry of the roadmap is stored under its id, with its positions resolved. */
  predicate Stored(items: Items, roadmap: seq<RoadmapItem>, ids: seq<ItemId>, k: nat)
    requires k < |ids| == |roadmap|
  {
    && ids[k] in items
    && EarlierPositions(roadmap[k].dependsOn, |ids| + 1)
    && items[ids[k]] == Item(ids[k], roadmap[k].title, Proposed, roadmap[k].priority, items[ids[k]].dependsOn)
    && |items[ids[k]].dependsOn| == |roadmap[k].dependsOn|
    && forall i :: 0 <= i < |roadmap[k].dependsOn| ==>
         1 <= roadmap[k].dependsOn[i] <= |ids| && items[ids[k]].dependsOn[i] == ids[roadmap[k].dependsOn[i] - 1]
  }

  /** The backlog with a roadmap added under these ids, and nothing else. */
  ghost predicate RoadmapAdded(before: Items, after: Items, roadmap: seq<RoadmapItem>, ids: seq<ItemId>)
    requires |ids| == |roadmap|
  {
    && (forall id :: id in after ==> id in before || id in ids)
    && (forall id :: id in before ==> id in after && after[id] == before[id])
    && (forall k :: 0 <= k < |ids| ==> Stored(after, roadmap, ids, k))
  }

  /** The backlog after these items are written, in order. */
  function Written(before: Items, list: seq<Item>): Items {
    if list == [] then before
    else
      var last := list[|list| - 1];
      Written(before, list[..|list| - 1])[last.id := last]
  }

  lemma {:induction false} WrittenAt(before: Items, list: seq<Item>, k: nat)
    requires k < |list| && forall j :: k < j < |list| ==> list[j].id != list[k].id
    ensures list[k].id in Written(before, list) && Written(before, list)[list[k].id] == list[k]
  {
    if k < |list| - 1 { WrittenAt(before, list[..|list| - 1], k); }
  }

  lemma {:induction false} WrittenElsewhere(before: Items, list: seq<Item>, id: ItemId)
    requires forall k :: 0 <= k < |list| ==> list[k].id != id
    ensures id in Written(before, list) <==> id in before
    ensures id in before ==> Written(before, list)[id] == before[id]
  {
    if list != [] { WrittenElsewhere(before, list[..|list| - 1], id); }
  }

  /** The first n items of the roadmap as they are first written, without dependencies. */
  function Bare(roadmap: seq<RoadmapItem>, ids: seq<ItemId>, n: nat): (rows: seq<Item>)
    requires n <= |ids| == |roadmap|
    ensures |rows| == n
    ensures forall k :: 0 <= k < n ==> rows[k] == Item(ids[k], roadmap[k].title, Proposed, roadmap[k].priority, [])
  {
    if n == 0 then []
    else Bare(roadmap, ids, n - 1) + [Item(ids[n - 1], roadmap[n - 1].title, Proposed, roadmap[n - 1].priority, [])]
  }

  /** The first n items of the roadmap with their dependencies. */
  function Full(roadmap: seq<RoadmapItem>, ids: seq<ItemId>, n: nat): (rows: seq<Item>)
    requires ValidRoadmap(roadmap) && n <= |ids| == |roadmap|
    ensures |rows| == n
    ensures forall k :: 0 <= k < n ==>
              EarlierPositions(roadmap[k].dependsOn, |ids| + 1) && rows[k] == NewItem(roadmap[k], ids, k)
  {
    if n == 0 then []
    else
      assert EarlierPositions(roadmap[n - 1].dependsOn, n);
      Full(roadmap, ids, n - 1) + [NewItem(roadmap[n - 1], ids, n - 1)]
  }

  /** Giving the k-th bare item its dependencies is writing the k-th full item. */
  lemma WireStep(before: Items, bare: seq<Item>, full: seq<Item>, k: nat, deps: seq<ItemId>)
    requires |full| == |bare| && k < |bare| && full[k] == bare[k].(dependsOn := deps)
    requires forall i :: 0 <= i < |bare| && i != k ==> bare[i].id != bare[k].id && full[i].id != bare[k].id
    ensures var items := Written(Written(before, bare), full[..k]);
            && bare[k].id in items
            && Written(Written(before, bare), full[..k + 1]) == items[bare[k].id := items[bare[k].id].(dependsOn := deps)]
  {
    WrittenAt(before, bare, k);
    WrittenElsewhere(Written(before, bare), full[..k], bare[k].id);
    assert full[..k + 1][..k] == full[..k];
  }

  lemma WireEntry(before: Items, roadmap: seq<RoadmapItem>, ids: seq<ItemId>, k: nat)
    requires ValidRoadmap(roadmap) && |ids| == |roadmap| && FreshIds(before, ids) && k < |ids|
    ensures EarlierPositions(roadmap[k].dependsOn, |ids| + 1)
    ensures var rows, full := Written(before, Bare(roadmap, ids, |ids|)), Full(roadmap, ids, |ids|);
            var items := Written(rows, full[..k]);
            && ids[k] in items
            && Written(rows, full[..k + 1]) == items[ids[k] := items[ids[k]].(dependsOn := Resolve(ids, roadmap[k].dependsOn))]
  {
    var bare, full := Bare(roadmap, ids, |ids|), Full(roadmap, ids, |ids|);
    assert bare[k].id == ids[k] && full[k] == NewItem(roadmap[k], ids, k);
    WireStep(before, bare, full, k, Resolve(ids, roadmap[k].dependsOn));
  }

  lemma BothPassesAdd(before: Items, roadmap: seq<RoadmapItem>, ids: seq<ItemId>)
    requires ValidRoadmap(roadmap) && |ids| == |roadmap| && FreshIds(before, ids)
    ensures RoadmapAdded(before, Written(Written(before, Bare(roadmap, ids, |ids|)), Full(roadmap, ids, |ids|)), roadmap, ids)
  {
    var bare, full := Bare(roadmap, ids, |ids|), Full(roadmap, ids, |ids|);
    var middle := Written(before, bare);
    var after := Written(middle, full);
    forall k | 0 <= k < |ids|
      ensures Stored(after, roadmap, ids, k)
    {
      FullIsStored(middle, roadmap, ids, k);
    }
    forall id | id !in ids
      ensures id in after <==> id in before
      ensures id in before ==> after[id] == before[id]
    {
      OthersAreKept(before, bare, full, id);
    }
  }

  lemma FullIsStored(middle: Items, roadmap: seq<RoadmapItem>, ids: seq<ItemId>, k: nat)
    requires ValidRoadmap(roadmap) && |ids| == |roadmap| && k < |ids|
    requires forall i, j :: 0 <= i < j < |ids| ==> ids[i] != ids[j]
    ensures Stored(Written(middle, Full(roadmap, ids, |ids|)), roadmap, ids, k)
  {
    var full := Full(roadmap, ids, |ids|);
    assert full[k] == NewItem(roadmap[k], ids, k);
    WrittenAt(middle, full, k);
  }

  lemma OthersAreKept(before: Items, bare: seq<Item>, full: seq<Item>, id: ItemId)
    requires forall k :: 0 <= k < |bare| ==> bare[k].id != id
    requires forall k :: 0 <= k < |full| ==> full[k].id != id
    ensures var after := Written(Written(before, bare), full);
            (id in after <==> id in before) && (id in before ==> after[id] == before[id])
  {
    WrittenElsewhere(before, bare, id);
    WrittenElsewhere(Written(before, bare), full, id);
  }

  /** An edge out of a new item leads to a new item of an earlier position. */
  lemma NewEdgesGoBack(before: Items, after: Items, roadmap: seq<RoadmapItem>, ids: seq<ItemId>, k: nat, b: ItemId)
    returns (m: nat)
    requires ValidRoadmap(roadmap) && |ids| == |roadmap| && RoadmapAdded(before, after, roadmap, ids)
    requires k < |ids| && Edge(after, ids[k], b)
    ensures m < k && b == ids[m]
  {
    assert Stored(after, roadmap, ids, k);
    var deps := roadmap[k].dependsOn;
    var i :| 0 <= i < |deps| && after[ids[k]].dependsOn[i] == b;
    assert deps[i] in deps;
    m := deps[i] - 1;
  }

  lemma {:induction false} NewPathsGoBack(before: Items, after: Items, roadmap: seq<RoadmapItem>, ids: seq<ItemId>,
                                          k: nat, p: seq<ItemId>)
    returns (m: nat)
    requires ValidRoadmap(roadmap) && |ids| == |roadmap| && RoadmapAdded(before, after, roadmap, ids)
    requires k < |ids| && Path(after, p) && p[0] == ids[k]
    ensures m <= k && p[|p| - 1] == ids[m] && (|p| > 1 ==> m < k)
    decreases |p|
  {
    m := k;
    if |p| > 1 {
      assert Edge(after, p[0], p[1]);
      m := NewEdgesGoBack(before, after, roadmap, ids, k, p[1]);
      forall i | 0 <= i < |p[1..]| - 1
        ensures Edge(after, p[1..][i], p[1..][i + 1])
      {
        assert Edge(after, p[i + 1], p[i + 2]);
      }
      m := NewPathsGoBack(before, after, roadmap, ids, m, p[1..]);
    }
  }

  /** Adding a roadmap in bulk, without any cycle check, keeps the backlog closed and acyclic. */
  lemma RoadmapKeepsAcyclic(before: Items, after: Items, roadmap: seq<RoadmapItem>, ids: seq<ItemId>)
    requires Closed(before) && Acyclic(before) && FreshIds(before, ids)
    requires ValidRoadmap(roadmap) && |ids| == |roadmap| && RoadmapAdded(before, after, roadmap, ids)
    ensures Closed(after) && Acyclic(after)
  {
    forall p | Path(after, p) && |p| >= 2
      ensures p[0] != p[|p| - 1]
    {
      assert Edge(after, p[0], p[1]);
      if p[0] in before {
        OldPathsStayOld(before, after, p);
      } else {
        var k :| 0 <= k < |ids| && ids[k] == p[0];
        var m := NewPathsGoBack(before, after, roadmap, ids, k, p);
      }
    }
    forall a, b | a in after && b in after[a].dependsOn
      ensures b in after
    {
      if a !in before {
        var k :| 0 <= k < |ids| && ids[k] == a;
        var m := NewEdgesGoBack(before, after, roadmap, ids, k, b);
        assert Stored(after, roadmap, ids, m);
      }
    }
  }

  // ---- The stored backlog ---------------------------------------------------------------------------

  /** The fields an update may send besides the dependencies; the ones not sent keep their value. */
  datatype Changes = Changes(title: Option<string>, status: Option<Status>, priority: Option<string>,
                             dependsOn: Option<seq<ItemId>>)

  function Get<T>(sent: Option<T>, current: T): T {
    if sent.Some? then sent.value else current
  }

  function Changed(item: Item, changes: Changes): Item {
    item.(title := Get(changes.title, item.title), status := Get(changes.status, item.status),
          priority := Get(changes.priority, item.priority))
  }

  class BacklogStore {
    var items: Items

    ghost predicate Valid()
      reads this
    {
      && (forall id :: id in items ==> items[id].id == id)
      && Closed(items) && Acyclic(items)
    }

    constructor ()
      ensures Valid() && items == map[]
    {
      items := map[];
      EmptyIsAcyclic();
    }

    method CreateWorkItem(id: ItemId, title: string, priority: string, dependsOn: seq<ItemId>)
      returns (r: Result<Item, BacklogError>)
      requires Valid() && id !in items
      modifies this
      ensures Valid()
      ensures r.Ok? <==> Missing(old(items), dependsOn) == []
      ensures r.Err? ==> r.error == UnknownDependencies(Missing(old(items), dependsOn)) && items == old(items)
      ensures r.Ok? ==> r.value == Item(id, title, Proposed, priority, dependsOn) && items == old(items)[id := r.value]
    {
      var deps := ValidateDependencies(items, dependsOn, None);
      OthersOfNone(dependsOn);
      if deps.Err? { return Err(deps.error); }
      assert forall d :: d in dependsOn && d !in items ==> d in Missing(items, dependsOn);
      var item := Item(id, title, Proposed, priority, deps.value);
      CreationKeepsAcyclic(items, item);
      items := items[id := item];
      return Ok(item);
    }

    method UpdateWorkItem(id: ItemId, changes: Changes) returns (r: Result<Item, BacklogError>)
      requires Valid()
      modifies this
      ensures Valid()
      ensures id !in old(items) ==> r == Err(UnknownItem)
      ensures id in old(items) && changes.dependsOn.None? ==> r == Ok(Changed(old(items)[id], changes))
      ensures id in old(items) && changes.dependsOn.Some? ==>
                var verdict := Verdict(old(items), changes.dependsOn.value, Some(id));
                r == if verdict.Err? then Err(verdict.error)
                     else Ok(Changed(old(items)[id], changes).(dependsOn := verdict.value))
      ensures r.Ok? ==>
                && id in old(items) && r.value.id == id
                && r.value.title == (if changes.title.Some? then changes.title.value else old(items)[id].title)
                && r.value.status == (if changes.status.Some? then changes.status.value else old(items)[id].status)
                && r.value.priority == (if changes.priority.Some? then changes.priority.value else old(items)[id].priority)
                && (changes.dependsOn.None? ==> r.value.dependsOn == old(items)[id].dependsOn)
      ensures items == if r.Ok? then old(items)[id := r.value] else old(items)
      ensures id in old(items) && changes.dependsOn.Some? ==>
                var ids := Others(changes.dependsOn.value, Some(id));
                Missing(old(items), ids) == [] ==>
                  (r == Err(WouldCycle) <==> !Acyclic(WithDependencies(old(items), id, ids)))
    {
      if id !in items { return Err(UnknownItem); }
      var item := items[id];
      var deps := item.dependsOn;
      if changes.dependsOn.Some? {
        EditIsAcyclicIff(items, id, Others(changes.dependsOn.value, Some(id)));
        var checked := ValidateDependencies(items, changes.dependsOn.value, Some(id));
        if checked.Err? { return Err(checked.error); }
        deps := checked.value;
        assert forall d :: d in deps && d !in items ==> d in Missing(items, deps);
        assert Closed(WithDependencies(items, id, deps));
      } else {
        assert WithDependencies(items, id, deps) == items;
      }
      item := Changed(item, changes).(dependsOn := deps);
      SameGraphSameCycles(WithDependencies(items, id, deps), items[id := item]);
      items := items[id := item];
      return Ok(item);
    }

    /** Writes a validated roadmap: first every item without dependencies, then the dependencies. */
    method PersistRoadmap(roadmap: seq<RoadmapItem>, ids: seq<ItemId>)
      requires Valid() && ValidRoadmap(roadmap) && |ids| == |roadmap| && FreshIds(items, ids)
      modifies this
      ensures Valid()
      ensures RoadmapAdded(old(items), items, roadmap, ids)
    {
      AddItems(roadmap, ids);
      WireItems(old(items), roadmap, ids);
      BothPassesAdd(old(items), roadmap, ids);
      RoadmapKeepsAcyclic(old(items), items, roadmap, ids);
      forall id | id in items
        ensures items[id].id == id
      {
        if id !in old(items) {
          var k :| 0 <= k < |ids| && ids[k] == id;
          assert Stored(items, roadmap, ids, k);
        }
      }
    }

    method AddItems(roadmap: seq<RoadmapItem>, ids: seq<ItemId>)
      requires |ids| == |roadmap|
      modifies this
      ensures items == Written(old(items), Bare(roadmap, ids, |ids|))
    {
      ghost var bare := Bare(roadmap, ids, |ids|);
      var k := 0;
      while k < |roadmap|
        invariant k <= |roadmap| && items == Written(old(items), bare[..k])
      {
        items := items[ids[k] := Item(ids[k], roadmap[k].title, Proposed, roadmap[k].priority, [])];
        assert bare[..k + 1][..k] == bare[..k];
        k := k + 1;
      }
      assert bare[..k] == bare;
    }

    method WireItems(ghost before: Items, roadmap: seq<RoadmapItem>, ids: seq<ItemId>)
      requires ValidRoadmap(roadmap) && |ids| == |roadmap| && FreshIds(before, ids)
      requires items == Written(before, Bare(roadmap, ids, |ids|))
      modifies this
      ensures items == Written(old(items), Full(roadmap, ids, |ids|))
    {
      ghost var full := Full(roadmap, ids, |ids|);
      var k := 0;
      while k < |roadmap|
        invariant k <= |roadmap| && items == Written(old(items), full[..k])
      {
        WireEntry(before, roadmap, ids, k);
        items := items[ids[k] := items[ids[k]].(dependsOn := Resolve(ids, roadmap[k].dependsOn))];
        k := k + 1;
      }
      assert full[..k] == full;
    }
  }

  lemma {:induction false} OthersOfNone(ids: seq<ItemId>)
    ensures Others(ids, None) == ids
  {
    if ids != [] { OthersOfNone(ids[1..]); }
  }

  lemma EmptyIsAcyclic()
    ensures Acyclic(map[])
  {
    forall p
      ensures !(Path(map[], p) && |p| >= 2)
    {
      if |p| >= 2 { assert !Edge(map[], p[0], p[1]); }
    }
  }

  lemma SameGraphSameCycles(before: Items, after: Items)
    requires before.Keys == after.Keys && forall id :: id in before ==> after[id].dependsOn == before[id].dependsOn
    requires Acyclic(before)
    ensures Acyclic(after)
  {
    forall p | Path(after, p) && |p| >= 2
      ensures p[0] != p[|p| - 1]
    {
      assert forall i :: 0 <= i < |p| - 1 ==> Edge(after, p[i], p[i + 1]) ==> Edge(before, p[i], p[i + 1]);
      assert Path(before, p);
    }
  }
}
