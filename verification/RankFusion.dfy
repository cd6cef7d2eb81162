/** Reciprocal-rank fusion of two candidate lists, as code retrieval and team memory use it. */
module RankFusion {
  const RRF_K := 60

  /** Identifiers are numbered in the order of their text. */
  type Id = int

  /** A candidate of one arm with its cosine distance. */
  datatype Hit = Hit(id: Id, distance: real)

  type Arm = seq<Hit>

  function Weight(position: nat): real {
    1.0 / (RRF_K + position) as real
  }

  /** What an arm adds to the score of an id: one weight per place it holds. */
  function Score(arm: Arm, id: Id): real {
    if arm == [] then 0.0
    else
      var n := |arm| - 1;
      Score(arm[..n], id) + if arm[n].id == id then Weight(n + 1) else 0.0
  }

  predicate Occurs(hits: Arm, id: Id) {
    exists i :: 0 <= i < |hits| && hits[i].id == id
  }

  /** The distance the last occurrence reports. */
  function DistanceOf(hits: Arm, id: Id): real {
    if hits == [] then 0.0
    else if hits[|hits| - 1].id == id then hits[|hits| - 1].distance
    else DistanceOf(hits[..|hits| - 1], id)
  }

  /** The ids in the order they are first met. */
  function FirstSeen(hits: Arm): (ids: seq<Id>)
    ensures forall id :: id in ids <==> Occurs(hits, id)
    ensures forall i, j :: 0 <= i < j < |ids| ==> ids[i] != ids[j]
  {
    if hits == [] then []
    else
      var n := |hits| - 1;
      assert forall id :: Occurs(hits, id) <==> Occurs(hits[..n], id) || id == hits[n].id;
      var before := FirstSeen(hits[..n]);
      if hits[n].id in before then before else before + [hits[n].id]
  }

  // ---- The order of the result ----------------------------------------------------------------------

  /** What the result is sorted by. */
  datatype Entry = Entry(score: real, distance: real, id: Id)

  predicate Before(a: Entry, b: Entry) {
    a.score > b.score
    || (a.score == b.score && (a.distance < b.distance || (a.distance == b.distance && a.id < b.id)))
  }

  predicate Ordered(entries: seq<Entry>) {
    forall i, j :: 0 <= i < j < |entries| ==> Before(entries[i], entries[j])
  }

  function Insert(sorted: seq<Entry>, e: Entry): seq<Entry> {
    if sorted == [] || Before(e, sorted[0]) then [e] + sorted else [sorted[0]] + Insert(sorted[1..], e)
  }

  function Sort(entries: seq<Entry>): seq<Entry> {
    if entries == [] then [] else Insert(Sort(entries[..|entries| - 1]), entries[|entries| - 1])
  }

  lemma {:induction false} InsertHolds(sorted: seq<Entry>, e: Entry)
    ensures forall x :: x in Insert(sorted, e) <==> x == e || x in sorted
  {
    if sorted != [] && !Before(e, sorted[0]) {
      InsertHolds(sorted[1..], e);
      assert sorted == [sorted[0]] + sorted[1..];
    }
  }

  lemma {:induction false} InsertKeepsOrder(sorted: seq<Entry>, e: Entry)
    requires Ordered(sorted) && e !in sorted
    ensures Ordered(Insert(sorted, e))
  {
    if sorted != [] && !Before(e, sorted[0]) {
      InsertKeepsOrder(sorted[1..], e);
      InsertHolds(sorted[1..], e);
      var rest := Insert(sorted[1..], e);
      forall i | 0 <= i < |rest|
        ensures Before(sorted[0], rest[i])
      {
        assert rest[i] in rest;
        assert sorted[0] in sorted;
      }
    }
  }

  lemma {:induction false} SortIsOrdered(entries: seq<Entry>)
    requires forall i, j :: 0 <= i < j < |entries| ==> entries[i] != entries[j]
    ensures Ordered(Sort(entries))
    ensures forall x :: x in Sort(entries) <==> x in entries
  {
    if entries != [] {
      var n := |entries| - 1;
      SortIsOrdered(entries[..n]);
      InsertHolds(Sort(entries[..n]), entries[n]);
      assert entries == entries[..n] + [entries[n]];
      assert entries[n] !in entries[..n];
      InsertKeepsOrder(Sort(entries[..n]), entries[n]);
    }
  }

  /** An ordered list is determined by its members, so any correct sort gives the same one. */
  lemma {:induction false} OrderedIsUnique(a: seq<Entry>, b: seq<Entry>)
    requires Ordered(a) && Ordered(b)
    requires forall x :: x in a <==> x in b
    ensures a == b
  {
    if a == [] {
      if b != [] { var x := SomeMember(b); }
    } else {
      assert a[0] in b;
      assert b[0] in a;
      assert a[0] == b[0];
      TailMembers(a);
      TailMembers(b);
      OrderedIsUnique(a[1..], b[1..]);
    }
  }

  lemma SomeMember(a: seq<Entry>) returns (x: Entry)
    requires a != []
    ensures x in a
  {
    x := a[0];
  }

  lemma TailMembers(a: seq<Entry>)
    requires Ordered(a) && a != []
    ensures forall x :: x in a[1..] <==> x in a && x != a[0]
  {
    assert a == [a[0]] + a[1..];
  }

  // ---- Fusion ---------------------------------------------------------------------------------------

  function EntryOf(v: Arm, t: Arm, id: Id): Entry {
    Entry(Score(v, id) + Score(t, id), DistanceOf(v + t, id), id)
  }

  function EntriesFor(v: Arm, t: Arm, ids: seq<Id>): (entries: seq<Entry>)
    ensures |entries| == |ids| && forall i :: 0 <= i < |ids| ==> entries[i] == EntryOf(v, t, ids[i])
  {
    if ids == [] then [] else EntriesFor(v, t, ids[..|ids| - 1]) + [EntryOf(v, t, ids[|ids| - 1])]
  }

  /** All candidates of both arms in the order of the result. */
  function Fused(v: Arm, t: Arm): seq<Entry> {
    Sort(EntriesFor(v, t, FirstSeen(v + t)))
  }

  lemma FusedIsRanking(v: Arm, t: Arm)
    ensures Ordered(Fused(v, t))
    ensures forall e :: e in Fused(v, t) <==> Occurs(v + t, e.id) && e == EntryOf(v, t, e.id)
  {
    var ids := FirstSeen(v + t);
    SortIsOrdered(EntriesFor(v, t, ids));
    forall e: Entry | Occurs(v + t, e.id) && e == EntryOf(v, t, e.id)
      ensures e in EntriesFor(v, t, ids)
    {
      var i :| 0 <= i < |ids| && ids[i] == e.id;
      assert EntriesFor(v, t, ids)[i] == e;
    }
  }

  /** The dictionaries the fusion fills, with their insertion order. */
  datatype Tables = Tables(order: seq<Id>, fused: map<Id, real>, distances: map<Id, real>)

  /** What the tables know of one id after arm v and then the hits t of the other. */
  predicate HoldsAt(tables: Tables, v: Arm, t: Arm, id: Id) {
    && (id in tables.fused <==> Occurs(v + t, id)) && (id in tables.distances <==> Occurs(v + t, id))
    && (id in tables.fused ==> tables.fused[id] == Score(v, id) + Score(t, id))
    && (id in tables.distances ==> tables.distances[id] == DistanceOf(v + t, id))
  }

  ghost predicate Holds(tables: Tables, v: Arm, t: Arm) {
    tables.order == FirstSeen(v + t) && forall id :: HoldsAt(tables, v, t, id)
  }

  lemma {:induction false} ScoresNothing(arm: Arm, id: Id)
    requires !Occurs(arm, id)
    ensures Score(arm, id) == 0.0
  {
    if arm != [] {
      var n := |arm| - 1;
      assert arm[n].id != id;
      forall i | 0 <= i < n
        ensures arm[..n][i].id != id
      {
        assert arm[i].id != id;
      }
      ScoresNothing(arm[..n], id);
    }
  }

  lemma OccursIn(v: Arm, t: Arm, id: Id)
    ensures Occurs(v + t, id) <==> Occurs(v, id) || Occurs(t, id)
  {
    if i :| 0 <= i < |v| && v[i].id == id { assert (v + t)[i].id == id; }
    if j :| 0 <= j < |t| && t[j].id == id { assert (v + t)[|v| + j].id == id; }
  }

  /** The tables after one more hit. */
  function WithHit(tables: Tables, hit: Hit, position: nat): Tables {
    Tables(if hit.id in tables.fused then tables.order else tables.order + [hit.id],
           tables.fused[hit.id := (if hit.id in tables.fused then tables.fused[hit.id] else 0.0) + Weight(position)],
           tables.distances[hit.id := hit.distance])
  }

  lemma WithHitAt(tables: Tables, v: Arm, t: Arm, hit: Hit, id: Id)
    requires HoldsAt(tables, v, t, id)
    ensures HoldsAt(WithHit(tables, hit, |t| + 1), v, t + [hit], id)
  {
    assert v + (t + [hit]) == (v + t) + [hit];
    assert (t + [hit])[..|t|] == t && ((v + t) + [hit])[..|v + t|] == v + t;
    OccursIn(v + t, [hit], id);
    assert Occurs([hit], id) <==> id == hit.id by { assert [hit][0] == hit; }
    if !Occurs(v + t, id) {
      OccursIn(v, t, id);
      ScoresNothing(v, id);
      ScoresNothing(t, id);
    }
  }

  lemma WithHitHolds(tables: Tables, v: Arm, t: Arm, hit: Hit)
    requires Holds(tables, v, t)
    ensures Holds(WithHit(tables, hit, |t| + 1), v, t + [hit])
  {
    var r, longer := WithHit(tables, hit, |t| + 1), t + [hit];
    forall id
      ensures HoldsAt(r, v, longer, id)
    {
      WithHitAt(tables, v, t, hit, id);
    }
    assert v + (t + [hit]) == (v + t) + [hit];
    assert ((v + t) + [hit])[..|v + t|] == v + t;
    assert HoldsAt(tables, v, t, hit.id);
  }

  /** One pass over an arm, after the hits of v. */
  method AddArm(tables: Tables, ghost v: Arm, arm: Arm) returns (r: Tables)
    requires Holds(tables, v, [])
    ensures Holds(r, v, arm)
  {
    r := tables;
    var k := 0;
    while k < |arm|
      invariant k <= |arm| && Holds(r, v, arm[..k])
    {
      WithHitHolds(r, v, arm[..k], arm[k]);
      assert arm[..k + 1] == arm[..k] + [arm[k]];
      r := WithHit(r, arm[k], k + 1);
      k := k + 1;
    }
    assert arm[..k] == arm;
  }

  function IdsOf(entries: seq<Entry>): (ids: seq<Id>)
    ensures |ids| == |entries| && forall i :: 0 <= i < |ids| ==> ids[i] == entries[i].id
  {
    if entries == [] then [] else IdsOf(entries[..|entries| - 1]) + [entries[|entries| - 1].id]
  }

  function Take<T>(s: seq<T>, limit: nat): seq<T> {
    if |s| <= limit then s else s[..limit]
  }

  /** The best candidates of both arms, at most limit of them. */
  method Fuse(v: Arm, t: Arm, limit: nat) returns (ranked: seq<Id>)
    ensures ranked == Take(IdsOf(Fused(v, t)), limit)
    ensures |ranked| == if |Fused(v, t)| <= limit then |Fused(v, t)| else limit
    ensures forall i :: 0 <= i < |ranked| ==> ranked[i] == Fused(v, t)[i].id
  {
    var empty := Tables([], map[], map[]);
    ghost var none: Arm := [];
    assert none + none == none;
    var first := AddArm(empty, [], v);
    assert [] + v == v + [];
    StartOfSecondArm(first, v);
    var both := AddArm(first, v, t);
    var entries: seq<Entry> := [];
    var k := 0;
    while k < |both.order|
      invariant k <= |both.order| && entries == EntriesFor(v, t, both.order[..k])
    {
      var id := both.order[k];
      assert HoldsAt(both, v, t, id);
      assert both.order[..k + 1][..k] == both.order[..k];
      entries := entries + [Entry(both.fused[id], both.distances[id], id)];
      k := k + 1;
    }
    assert both.order[..k] == both.order;
    ranked := Best(v, t, entries, limit);
  }

  /** The ids of the first entries after sorting. */
  method Best(ghost v: Arm, ghost t: Arm, entries: seq<Entry>, limit: nat) returns (ranked: seq<Id>)
    requires Sort(entries) == Fused(v, t)
    ensures ranked == Take(IdsOf(Fused(v, t)), limit)
    ensures |ranked| == if |Fused(v, t)| <= limit then |Fused(v, t)| else limit
    ensures forall i :: 0 <= i < |ranked| ==> ranked[i] == Fused(v, t)[i].id
  {
    var ids := IdsOf(Sort(entries));
    TakeMeans(ids, limit);
    ranked := Take(ids, limit);
  }

  lemma TakeMeans<T>(s: seq<T>, limit: nat)
    ensures |Take(s, limit)| == (if |s| <= limit then |s| else limit) && Take(s, limit) <= s
  {
  }

  lemma StartOfSecondArm(tables: Tables, v: Arm)
    requires Holds(tables, [], v)
    ensures Holds(tables, v, [])
  {
    assert [] + v == v + [];
    forall id
      ensures HoldsAt(tables, v, [], id)
    {
      assert HoldsAt(tables, [], v, id);
    }
  }

  // ---- What the fusion guarantees ---------------------------------------------------------------------

  predicate DistinctIds(arm: Arm) {
    forall i, j :: 0 <= i < j < |arm| ==> arm[i].id != arm[j].id
  }

  /** In an arm without repeats an id scores the weight of its one place. */
  lemma {:induction false} ScoreOfPlace(arm: Arm, k: nat)
    requires DistinctIds(arm) && k < |arm|
    ensures Score(arm, arm[k].id) == Weight(k + 1)
  {
    var n := |arm| - 1;
    if k < n {
      ScoreOfPlace(arm[..n], k);
    } else {
      assert !Occurs(arm[..n], arm[k].id) by {
        assert forall i :: 0 <= i < n ==> arm[..n][i] == arm[i];
      }
      ScoresNothing(arm[..n], arm[k].id);
    }
  }

  /** The distance that counts is the one reported last. */
  lemma {:induction false} LastDistanceCounts(hits: Arm, k: nat)
    requires k < |hits| && forall j :: k < j < |hits| ==> hits[j].id != hits[k].id
    ensures DistanceOf(hits, hits[k].id) == hits[k].distance
  {
    if k < |hits| - 1 { LastDistanceCounts(hits[..|hits| - 1], k); }
  }

  /** What a candidate is ranked by, when each arm lists it at most once: what its places are worth
      together, and the distance of the second arm if it found it. */
  lemma EntryMeans(v: Arm, t: Arm, i: nat, j: nat)
    requires DistinctIds(v) && DistinctIds(t)
    ensures i < |v| && !Occurs(t, v[i].id) ==> EntryOf(v, t, v[i].id) == Entry(1.0 / (61 + i) as real, v[i].distance, v[i].id)
    ensures j < |t| && !Occurs(v, t[j].id) ==> EntryOf(v, t, t[j].id) == Entry(1.0 / (61 + j) as real, t[j].distance, t[j].id)
    ensures i < |v| && j < |t| && v[i].id == t[j].id ==>
              EntryOf(v, t, t[j].id) == Entry(1.0 / (61 + i) as real + 1.0 / (61 + j) as real, t[j].distance, t[j].id)
  {
    assert Weight(i + 1) == 1.0 / (61 + i) as real && Weight(j + 1) == 1.0 / (61 + j) as real;
    if i < |v| {
      ScoreOfPlace(v, i);
      if !Occurs(t, v[i].id) {
        ScoresNothing(t, v[i].id);
        assert (v + t)[i] == v[i];
        LastDistanceCounts(v + t, i);
      }
    }
    if j < |t| {
      ScoreOfPlace(t, j);
      assert (v + t)[|v| + j] == t[j];
      LastDistanceCounts(v + t, |v| + j);
      if !Occurs(v, t[j].id) { ScoresNothing(v, t[j].id); }
    }
  }

  /** The ranking is by score, falling, then by distance, then by id; and it has each candidate of either
      arm once. */
  lemma RankingMeans(v: Arm, t: Arm, i: nat, j: nat)
    requires i < j < |Fused(v, t)|
    ensures var a, b := Fused(v, t)[i], Fused(v, t)[j];
            && a.score >= b.score && (a.score == b.score ==> a.distance <= b.distance)
            && (a.score == b.score && a.distance == b.distance ==> a.id < b.id)
  {
    FusedIsRanking(v, t);
  }

  lemma WeightFalls(p: nat, q: nat)
    requires p <= q
    ensures Weight(q) <= Weight(p)
  {
    var a, b := (RRF_K + p) as real, (RRF_K + q) as real;
    assert 1.0 / a - 1.0 / b == (b - a) / (a * b);
  }

  /** How many candidates an arm may have for the separation to hold; code retrieval asks each for 30 and
      team memory for 20. */
  const SEPARATED := 61

  /** Twice the last weight of 61 still beats the first weight; of 62 it only equals it. */
  lemma SeparationBound()
    ensures Weight(SEPARATED) + Weight(SEPARATED) > Weight(1)
    ensures Weight(SEPARATED + 1) + Weight(SEPARATED + 1) == Weight(1)
  {
  }

  lemma FoundByBothScoresMore(v: Arm, t: Arm, a: Id, b: Id)
    requires DistinctIds(v) && DistinctIds(t) && |v| <= SEPARATED && |t| <= SEPARATED
    requires Occurs(v, a) && Occurs(t, a) && Occurs(v, b) != Occurs(t, b)
    ensures Score(v, a) + Score(t, a) > Score(v, b) + Score(t, b)
  {
    var i :| 0 <= i < |v| && v[i].id == a;
    var j :| 0 <= j < |t| && t[j].id == a;
    ScoreOfPlace(v, i);
    ScoreOfPlace(t, j);
    WeightFalls(i + 1, SEPARATED);
    WeightFalls(j + 1, SEPARATED);
    var one, other := if Occurs(v, b) then v else t, if Occurs(v, b) then t else v;
    var k :| 0 <= k < |one| && one[k].id == b;
    ScoreOfPlace(one, k);
    ScoresNothing(other, b);
    WeightFalls(1, k + 1);
    SeparationBound();
  }

  lemma PlacesAreOrdered(ranking: seq<Entry>, i: nat, j: nat)
    requires Ordered(ranking) && i < |ranking| && j < |ranking|
    ensures i < j || i == j || Before(ranking[j], ranking[i])
  {
  }

  /** With at most 61 candidates per arm (the system asks for 30 and 20) whatever both arms found comes
      before whatever only one found, whatever the ranks and distances. */
  lemma BothArmsComeFirst(v: Arm, t: Arm, i: nat, j: nat)
    requires DistinctIds(v) && DistinctIds(t) && |v| <= SEPARATED && |t| <= SEPARATED
    requires i < |Fused(v, t)| && j < |Fused(v, t)|
    requires Occurs(v, Fused(v, t)[i].id) && Occurs(t, Fused(v, t)[i].id)
    requires Occurs(v, Fused(v, t)[j].id) != Occurs(t, Fused(v, t)[j].id)
    ensures i < j
  {
    var ranking := Fused(v, t);
    FusedIsRanking(v, t);
    assert ranking[i] in ranking && ranking[j] in ranking;
    PlacesAreOrdered(ranking, i, j);
    FoundByBothScoresMore(v, t, ranking[i].id, ranking[j].id);
  }

  /** A list of n candidates at this distance, with ids counted up from the first. */
  function Run(first: Id, n: nat, distance: real): (arm: Arm)
    ensures |arm| == n && forall i :: 0 <= i < n ==> arm[i] == Hit(first + i, distance)
  {
    if n == 0 then [] else Run(first, n - 1, distance) + [Hit(first + n - 1, distance)]
  }

  /** The bound is tight: with 62 candidates per arm the item both arms rank last can come after the item
      one arm ranks first. */
  lemma SeparationFailsAtSixtyTwo()
    ensures var v, t := Run(0, 61, 0.0) + [Hit(900, 1.0)], Run(100, 61, 0.0) + [Hit(900, 1.0)];
            && |v| == |t| == SEPARATED + 1 && DistinctIds(v) && DistinctIds(t)
            && Occurs(v, 900) && Occurs(t, 900) && Occurs(v, 0) && !Occurs(t, 0)
            && Before(EntryOf(v, t, 0), EntryOf(v, t, 900))
  {
    var v, t := Run(0, 61, 0.0) + [Hit(900, 1.0)], Run(100, 61, 0.0) + [Hit(900, 1.0)];
    assert v[61].id == 900 && t[61].id == 900 && v[0].id == 0;
    ScoreOfPlace(v, 61);
    ScoreOfPlace(t, 61);
    ScoreOfPlace(v, 0);
    ScoresNothing(t, 0);
    SeparationBound();
    LastReport(v, t, 61);
    DistanceIsReported(v, t, 0);
  }

  lemma LastReport(v: Arm, t: Arm, k: nat)
    requires k + 1 == |t|
    ensures DistanceOf(v + t, t[k].id) == t[k].distance
  {
    assert (v + t)[|v + t| - 1] == t[k];
  }

  /** The distance of an id is one some hit reports for it. */
  lemma {:induction false} ReportedBy(hits: Arm, id: Id) returns (i: nat)
    requires Occurs(hits, id)
    ensures i < |hits| && hits[i].id == id && DistanceOf(hits, id) == hits[i].distance
  {
    i := |hits| - 1;
    if hits[i].id != id {
      var k :| 0 <= k < |hits| && hits[k].id == id;
      assert hits[..i][k].id == id;
      i := ReportedBy(hits[..i], id);
    }
  }

  lemma DistanceIsReported(v: Arm, t: Arm, k: nat)
    requires DistinctIds(v) && k < |v| && !Occurs(t, v[k].id)
    ensures DistanceOf(v + t, v[k].id) == v[k].distance
  {
    assert (v + t)[k] == v[k];
    var i := ReportedBy(v + t, v[k].id);
  }

  /** Both arms report one distance for a candidate they share. */
  predicate SameDistances(v: Arm, t: Arm) {
    forall i, j :: 0 <= i < |v + t| && 0 <= j < |v + t| && (v + t)[i].id == (v + t)[j].id
                   ==> (v + t)[i].distance == (v + t)[j].distance
  }

  lemma SameEntry(v: Arm, t: Arm, id: Id)
    requires SameDistances(v, t) && Occurs(v + t, id)
    ensures Occurs(t + v, id) && EntryOf(t, v, id) == EntryOf(v, t, id)
  {
    OccursIn(v, t, id);
    OccursIn(t, v, id);
    var i := ReportedBy(v + t, id);
    var j := ReportedBy(t + v, id);
    var k := if j < |t| then |v| + j else j - |t|;
    assert (t + v)[j] == (v + t)[k];
  }

  lemma SwapIncludes(v: Arm, t: Arm, e: Entry)
    requires SameDistances(v, t) && e in Fused(v, t)
    ensures e in Fused(t, v)
  {
    FusedIsRanking(v, t);
    FusedIsRanking(t, v);
    SameEntry(v, t, e.id);
  }

  lemma SwapKeepsDistances(v: Arm, t: Arm)
    requires SameDistances(v, t)
    ensures SameDistances(t, v)
  {
    forall i, j | 0 <= i < |t + v| && 0 <= j < |t + v| && (t + v)[i].id == (t + v)[j].id
      ensures (t + v)[i].distance == (t + v)[j].distance
    {
      var k, m := if i < |t| then |v| + i else i - |t|, if j < |t| then |v| + j else j - |t|;
      assert (t + v)[i] == (v + t)[k] && (t + v)[j] == (v + t)[m];
    }
  }

  /** It does not matter which arm comes first when the arms agree on distances. */
  lemma ArmsCommute(v: Arm, t: Arm)
    requires SameDistances(v, t)
    ensures Fused(v, t) == Fused(t, v)
  {
    FusedIsRanking(v, t);
    FusedIsRanking(t, v);
    SwapKeepsDistances(v, t);
    forall e
      ensures e in Fused(v, t) <==> e in Fused(t, v)
    {
      if e in Fused(v, t) { SwapIncludes(v, t, e); }
      if e in Fused(t, v) { SwapIncludes(t, v, e); }
    }
    OrderedIsUnique(Fused(v, t), Fused(t, v));
  }
}
