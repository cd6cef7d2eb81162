/** When the in-process limiter's pruning changes an answer: the whole limiter, its 5000 callers and its
    ten minutes. */
module PruneLimit {
  import opened RateLimit

  // ---- Buckets that hold no whole token ---------------------------------------------------------------

  predicate Brimming(l: Limit, table: Table, now: real) {
    forall k :: k in table ==> table[k].tokens == l.capacity && table[k].last <= now
  }

  lemma BrimmingTake(l: Limit, b: Bucket, now: real)
    requires l.rate > 0.0 && l.capacity < 1.0 && b.tokens == l.capacity && b.last <= now
    ensures Refilled(l, b, now) == l.capacity
    ensures AfterTake(l, b, now) == Bucket(l.capacity, now)
    ensures Wait(l, b, now) == (1.0 - l.capacity) / l.rate
  {
    assert (now - b.last) * l.rate >= 0.0;
  }

  /** Without a whole token nothing is ever taken, so every caller is told the same whatever is forgotten. */
  lemma {:induction false} NothingToTake(l: Limit, policy: Policy, small: Table, big: Table, requests: seq<Request>)
    requires l.rate > 0.0 && l.capacity < 1.0 && InOrder(requests)
    requires requests != [] ==> Brimming(l, small, requests[0].now) && Brimming(l, big, requests[0].now)
    ensures Answers(l, policy, small, requests) == Answers(l, Never, big, requests)
    decreases |requests|
  {
    if requests != [] {
      var r, rest := requests[0], requests[1..];
      BrimmingTake(l, BucketFor(l, Kept(policy, small, r.now), r), r.now);
      BrimmingTake(l, BucketFor(l, Kept(Never, big, r.now), r), r.now);
      NothingToTake(l, policy, Served(l, policy, small, r), Served(l, Never, big, r), rest);
    }
  }

  // ---- Series of requests ---------------------------------------------------------------------------------

  function TableAfter(l: Limit, policy: Policy, table: Table, requests: seq<Request>): Table
    decreases |requests|
  {
    if requests == [] then table else TableAfter(l, policy, Served(l, policy, table, requests[0]), requests[1..])
  }

  lemma {:induction false} TableBoth(l: Limit, policy: Policy, table: Table, a: seq<Request>, b: seq<Request>)
    ensures TableAfter(l, policy, table, a + b) == TableAfter(l, policy, TableAfter(l, policy, table, a), b)
    decreases |a|
  {
    if a == [] {
      assert a + b == b;
    } else {
      assert (a + b)[1..] == a[1..] + b;
      TableBoth(l, policy, Served(l, policy, table, a[0]), a[1..], b);
    }
  }

  /** The answers to the second of two series are those of the table the first one leaves. */
  lemma {:induction false} LaterAnswers(l: Limit, policy: Policy, table: Table, a: seq<Request>, b: seq<Request>)
    requires l.rate > 0.0
    ensures |Answers(l, policy, table, a + b)| >= |a|
    ensures Answers(l, policy, table, a + b)[|a|..] == Answers(l, policy, TableAfter(l, policy, table, a), b)
    decreases |a|
  {
    if a == [] {
      assert a + b == b;
    } else {
      assert (a + b)[1..] == a[1..] + b;
      LaterAnswers(l, policy, Served(l, policy, table, a[0]), a[1..], b);
    }
  }

  predicate AllAt(requests: seq<Request>, now: real) {
    forall i :: 0 <= i < |requests| ==> requests[i].now == now
  }

  /** The one caller who is watched. */
  const CALLER := ""

  function Solo(times: seq<real>): (requests: seq<Request>)
    ensures |requests| == |times| && forall i :: 0 <= i < |times| ==> requests[i] == Request(CALLER, times[i])
  {
    if times == [] then [] else [Request(CALLER, times[0])] + Solo(times[1..])
  }

  /** The policy forgets nobody while there are at most n callers. */
  ghost predicate Spares(policy: Policy, n: nat) {
    forall table: Table, now :: |table| <= n ==> policy(table, now) == {}
  }

  lemma KnownCallerKeepsSize(table: Table, b: Bucket)
    requires CALLER in table
    ensures |table[CALLER := b]| == |table|
  {
    assert table[CALLER := b].Keys == table.Keys;
    assert |table.Keys| == |table|;
    assert |table[CALLER := b].Keys| == |table[CALLER := b]|;
  }

  /** A caller who is not forgotten is answered from one bucket. */
  lemma {:induction false} SoloRun(l: Limit, policy: Policy, n: nat, table: Table, times: seq<real>)
    requires l.rate > 0.0 && Spares(policy, n) && |table| <= n && CALLER in table
    ensures Answers(l, policy, table, Solo(times)) == Waits(l, table[CALLER], times)
    ensures TableAfter(l, policy, table, Solo(times)) == table[CALLER := After(l, table[CALLER], times)]
    decreases |times|
  {
    if times != [] {
      var r, next := Request(CALLER, times[0]), AfterTake(l, table[CALLER], times[0]);
      assert Kept(policy, table, r.now) == table;
      assert Served(l, policy, table, r) == table[CALLER := next];
      assert Solo(times)[1..] == Solo(times[1..]);
      KnownCallerKeepsSize(table, next);
      SoloRun(l, policy, n, table[CALLER := next], times[1..]);
    }
  }

  /** To a new caller the empty table is one with his full bucket. */
  lemma NewCaller(l: Limit, policy: Policy, table: Table, times: seq<real>)
    requires l.rate > 0.0 && Spares(policy, 1) && times != [] && Kept(policy, table, times[0]) == map[]
    ensures var full: Table := map[CALLER := Bucket(l.capacity, times[0])];
            && Answers(l, policy, table, Solo(times)) == Answers(l, policy, full, Solo(times))
            && TableAfter(l, policy, table, Solo(times)) == TableAfter(l, policy, full, Solo(times))
  {
    var full: Table := map[CALLER := Bucket(l.capacity, times[0])];
    var r := Request(CALLER, times[0]);
    assert |full| == 1;
    assert Kept(policy, full, r.now) == full;
    assert Served(l, policy, table, r) == Served(l, policy, full, r);
  }

  // ---- A drained bucket -----------------------------------------------------------------------------------

  lemma {:induction false} TakesDrain(l: Limit, b: Bucket, n: nat)
    requires l.rate > 0.0 && n as real <= b.tokens <= l.capacity
    ensures After(l, b, Repeat(b.last, n)) == Bucket(b.tokens - n as real, b.last)
    decreases n
  {
    if n > 0 {
      TakeAtOnce(l, b);
      assert Repeat(b.last, n)[1..] == Repeat(b.last, n - 1);
      TakesDrain(l, AfterTake(l, b, b.last), n - 1);
    }
  }

  /** When what is left after the whole tokens has grown to one more token. */
  function Refill(l: Limit): (t: real)
    requires l.rate > 0.0
    ensures t > 0.0 && l.capacity - l.capacity.Floor as real + t * l.rate == 1.0
  {
    var missing := 1.0 - (l.capacity - l.capacity.Floor as real);
    PositiveQuotient(missing, l.rate);
    missing / l.rate
  }

  /** The times at which a caller empties a bucket that was full at time zero. */
  function Draining(l: Limit): seq<real>
    requires l.rate > 0.0 && l.capacity >= 1.0
  {
    Repeat(0.0, l.capacity.Floor) + [Refill(l)]
  }

  lemma DrainingEmpties(l: Limit)
    requires l.rate > 0.0 && l.capacity >= 1.0
    ensures After(l, Bucket(l.capacity, 0.0), Draining(l)) == Bucket(0.0, Refill(l))
    ensures Draining(l)[0] == 0.0
  {
    var n, t := l.capacity.Floor, Refill(l);
    var full, rest := Bucket(l.capacity, 0.0), Bucket(l.capacity - n as real, 0.0);
    TakesDrain(l, full, n);
    AfterBoth(l, full, Repeat(0.0, n), [t]);
    assert (t - rest.last) * l.rate == t * l.rate;
    assert AfterTake(l, rest, t) == Bucket(0.0, t);
    assert [t][1..] == [];
  }

  // ---- A crowd of other callers ------------------------------------------------------------------------------

  function Name(n: nat): (name: Key)
    ensures |name| == n
  {
    if n == 0 then "" else Name(n - 1) + "x"
  }

  function Crowd(n: nat, now: real): (requests: seq<Request>)
    ensures |requests| == n && AllAt(requests, now)
  {
    if n == 0 then [] else Crowd(n - 1, now) + [Request(Name(n), now)]
  }

  /** The caller's bucket b among n others, none of them used later than now. */
  predicate Crowded(table: Table, b: Bucket, n: nat, now: real) {
    && |table| == n + 1 && CALLER in table && table[CALLER] == b
    && forall k :: k in table ==> |k| <= n && table[k].last <= now
  }

  lemma OneMoreCaller(l: Limit, policy: Policy, table: Table, b: Bucket, n: nat, now: real)
    requires n < PRUNE_ABOVE && Spares(policy, PRUNE_ABOVE) && Crowded(table, b, n, now)
    ensures Crowded(Served(l, policy, table, Request(Name(n + 1), now)), b, n + 1, now)
  {
    assert Kept(policy, table, now) == table;
    assert Name(n + 1) !in table;
  }

  lemma {:induction false} CrowdJoins(l: Limit, policy: Policy, table: Table, b: Bucket, n: nat, now: real)
    requires n <= PRUNE_ABOVE && Spares(policy, PRUNE_ABOVE) && Crowded(table, b, 0, now)
    ensures Crowded(TableAfter(l, policy, table, Crowd(n, now)), b, n, now)
  {
    if n > 0 {
      var r := Request(Name(n), now);
      CrowdJoins(l, policy, table, b, n - 1, now);
      TableBoth(l, policy, table, Crowd(n - 1, now), [r]);
      OneMoreCaller(l, policy, TableAfter(l, policy, table, Crowd(n - 1, now)), b, n - 1, now);
      TableOfOne(l, policy, TableAfter(l, policy, table, Crowd(n - 1, now)), r);
    }
  }

  lemma TableOfOne(l: Limit, policy: Policy, table: Table, r: Request)
    ensures TableAfter(l, policy, table, [r]) == Served(l, policy, table, r)
  {
    assert [r][1..] == [];
  }

  // ---- The series of requests that tells ------------------------------------------------------------------------

  /** One caller empties his bucket, and then 5000 others turn up. */
  function Prelude(l: Limit): seq<Request>
    requires l.rate > 0.0 && l.capacity >= 1.0
  {
    Solo(Draining(l)) + Crowd(PRUNE_ABOVE, Refill(l))
  }

  lemma PreludeCrowds(l: Limit, policy: Policy)
    requires l.rate > 0.0 && l.capacity >= 1.0 && Spares(policy, PRUNE_ABOVE)
    ensures Crowded(TableAfter(l, policy, map[], Prelude(l)), Bucket(0.0, Refill(l)), PRUNE_ABOVE, Refill(l))
  {
    var full: Table := map[CALLER := Bucket(l.capacity, 0.0)];
    var drained: Table := map[CALLER := Bucket(0.0, Refill(l))];
    DrainingEmpties(l);
    assert Spares(policy, 1);
    assert Kept(policy, map[], 0.0) == map[];
    NewCaller(l, policy, map[], Draining(l));
    SoloRun(l, policy, 1, full, Draining(l));
    assert full[CALLER := Bucket(0.0, Refill(l))] == drained;
    assert TableAfter(l, policy, map[], Solo(Draining(l))) == drained;
    TableBoth(l, policy, map[], Solo(Draining(l)), Crowd(PRUNE_ABOVE, Refill(l)));
    CrowdJoins(l, policy, drained, Bucket(0.0, Refill(l)), PRUNE_ABOVE, Refill(l));
  }

  lemma PoliciesSpare(n: nat)
    ensures Spares(Never, n) && Spares(Pruned, PRUNE_ABOVE)
  {
  }

  /** The pruning limiter forgets the whole crowd and answers the caller from a new bucket. */
  lemma PrunedAnswers(l: Limit, table: Table, b: Bucket, used: real, now: real, n: nat)
    requires l.rate > 0.0 && Crowded(table, b, PRUNE_ABOVE, used) && now - used > IDLE_SECONDS
    ensures Answers(l, Pruned, table, Solo(Repeat(now, n))) == Waits(l, Bucket(l.capacity, now), Repeat(now, n))
  {
    if n > 0 {
      PoliciesSpare(1);
      assert forall k :: k in table ==> Idle(table[k], now);
      assert Kept(Pruned, table, now) == map[];
      assert Spares(Pruned, 1);
      NewCaller(l, Pruned, table, Repeat(now, n));
      SoloRun(l, Pruned, 1, map[CALLER := Bucket(l.capacity, now)], Repeat(now, n));
    }
  }

  predicate Until(requests: seq<Request>, now: real) {
    forall i :: 0 <= i < |requests| ==> requests[i].now <= now
  }

  lemma InOrderBoth(a: seq<Request>, b: seq<Request>, now: real)
    requires InOrder(a) && Until(a, now) && AllAt(b, now)
    ensures InOrder(a + b) && Until(a + b, now)
  {
  }

  lemma PreludeInOrder(l: Limit)
    requires l.rate > 0.0 && l.capacity >= 1.0
    ensures InOrder(Prelude(l)) && Until(Prelude(l), Refill(l))
  {
    RepeatIsAt(0.0, l.capacity.Floor);
    var early, t := Repeat(0.0, l.capacity.Floor), Refill(l);
    forall i | 0 <= i < |Draining(l)|
      ensures Draining(l)[i] == if i < |early| then 0.0 else t
    {
    }
    InOrderBoth(Solo(Draining(l)), Crowd(PRUNE_ABOVE, t), t);
  }

  lemma {:induction false} RepeatIsAt(now: real, n: nat)
    ensures forall i :: 0 <= i < n ==> Repeat(now, n)[i] == now
  {
    if n > 0 { RepeatIsAt(now, n - 1); }
  }

  /** A time at which the caller has been idle for more than ten minutes and his bucket is not full yet. */
  function TooEarly(l: Limit): (now: real)
    requires l.rate > 0.0 && l.capacity > IDLE_SECONDS * l.rate
    ensures IDLE_SECONDS < now - Refill(l) && (now - Refill(l)) * l.rate < l.capacity
  {
    var fill := l.capacity / l.rate;
    assert fill * l.rate == l.capacity;
    ScaledOrder(IDLE_SECONDS, fill, l.rate);
    var idle := (IDLE_SECONDS + fill) / 2.0;
    ScaledOrder(idle, fill, l.rate);
    Refill(l) + idle
  }

  /** Where ten minutes do not fill a bucket that holds a whole token, some callers see the pruning. */
  lemma PruningShows(l: Limit) returns (requests: seq<Request>)
    requires l.rate > 0.0 && l.capacity > IDLE_SECONDS * l.rate && l.capacity >= 1.0
    ensures InOrder(requests) && Answers(l, Pruned, map[], requests) != Answers(l, Never, map[], requests)
  {
    var t, now := Refill(l), TooEarly(l);
    var drained := Bucket(0.0, t);
    var x := Refilled(l, drained, now);
    assert x == (now - t) * l.rate;
    var n := DifferentAmountsShow(l, x, l.capacity, now);
    OnlyTheRefillCounts(l, drained, now, n);
    var late := Solo(Repeat(now, n));
    requests := Prelude(l) + late;
    PreludeInOrder(l);
    RepeatIsAt(now, n);
    InOrderBoth(Prelude(l), late, now);

    PoliciesSpare(PRUNE_ABOVE + 1);
    PoliciesSpare(PRUNE_ABOVE);
    PreludeCrowds(l, Pruned);
    PreludeCrowds(l, Never);
    var pruned, kept := TableAfter(l, Pruned, map[], Prelude(l)), TableAfter(l, Never, map[], Prelude(l));
    PrunedAnswers(l, pruned, drained, t, now, n);
    SoloRun(l, Never, PRUNE_ABOVE + 1, kept, Repeat(now, n));
    LaterAnswers(l, Pruned, map[], Prelude(l), late);
    LaterAnswers(l, Never, map[], Prelude(l), late);
  }

  /** The in-process limiter answers every series of requests as if it never forgot a caller exactly when
      ten minutes fill any bucket, or no bucket ever holds a whole token. */
  lemma PruningIsInvisibleIff(l: Limit)
    requires l.rate > 0.0 && l.capacity >= 0.0
    ensures (forall requests :: InOrder(requests) ==>
               Answers(l, Pruned, map[], requests) == Answers(l, Never, map[], requests))
            <==> l.capacity <= 600.0 * l.rate || l.capacity < 1.0
  {
    if l.capacity <= IDLE_SECONDS * l.rate {
      forall requests | InOrder(requests)
        ensures Answers(l, Pruned, map[], requests) == Answers(l, Never, map[], requests)
      {
        LocalPruningIsInvisible(l, requests);
      }
    } else if l.capacity < 1.0 {
      forall requests | InOrder(requests)
        ensures Answers(l, Pruned, map[], requests) == Answers(l, Never, map[], requests)
      {
        NothingToTake(l, Pruned, map[], map[], requests);
      }
    } else {
      var requests := PruningShows(l);
    }
  }
}
