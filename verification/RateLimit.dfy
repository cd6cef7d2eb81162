/** The token bucket in front of the API, and the two bucket tables that forget idle callers. Amounts and
    times are real numbers. */
module RateLimit {
  type Key = string

  /** A bucket's size and its refill per second. */
  datatype Limit = Limit(capacity: real, rate: real)

  datatype Bucket = Bucket(tokens: real, last: real)

  function Min(a: real, b: real): real {
    if a <= b then a else b
  }

  function Refilled(l: Limit, b: Bucket, now: real): real {
    Min(l.capacity, b.tokens + (now - b.last) * l.rate)
  }

  function AfterTake(l: Limit, b: Bucket, now: real): Bucket {
    var tokens := Refilled(l, b, now);
    Bucket(if tokens >= 1.0 then tokens - 1.0 else tokens, now)
  }

  /** What a take answers: 0 when allowed, otherwise the seconds until the next token. */
  function Wait(l: Limit, b: Bucket, now: real): real
    requires l.rate > 0.0
  {
    var tokens := Refilled(l, b, now);
    if tokens >= 1.0 then 0.0 else (1.0 - tokens) / l.rate
  }

  class TokenBucket {
    var tokens: real
    var lastRefill: real

    constructor (tokens: real, lastRefill: real)
      ensures Value() == Bucket(tokens, lastRefill)
    {
      this.tokens, this.lastRefill := tokens, lastRefill;
    }

    function Value(): Bucket
      reads this
    {
      Bucket(tokens, lastRefill)
    }

    method Take(l: Limit, now: real) returns (wait: real)
      requires l.rate > 0.0
      modifies this
      ensures wait == Wait(l, old(Value()), now)
      ensures Value() == AfterTake(l, old(Value()), now)
    {
      tokens := Min(l.capacity, tokens + (now - lastRefill) * l.rate);
      lastRefill := now;
      if tokens >= 1.0 {
        tokens := tokens - 1.0;
        return 0.0;
      }
      return (1.0 - tokens) / l.rate;
    }
  }

  // ---- One bucket over time -----------------------------------------------------------------------

  /** A bucket between empty and full, last used at or before now. */
  predicate Sound(l: Limit, b: Bucket, now: real) {
    l.rate > 0.0 && 0.0 <= b.tokens <= l.capacity && b.last <= now
  }

  lemma AllowedIff(l: Limit, b: Bucket, now: real)
    requires l.rate > 0.0
    ensures Wait(l, b, now) >= 0.0
    ensures Wait(l, b, now) == 0.0 <==> Refilled(l, b, now) >= 1.0
  {
    var tokens := Refilled(l, b, now);
    if tokens < 1.0 { PositiveQuotient(1.0 - tokens, l.rate); }
  }

  lemma PositiveQuotient(x: real, y: real)
    requires x > 0.0 && y > 0.0
    ensures x / y > 0.0 && (x / y) * y == x
  {
  }

  /** Time passing is never held against the caller, and tokens stay between 0 and the capacity. */
  lemma TakeKeepsSound(l: Limit, b: Bucket, now: real)
    requires Sound(l, b, now)
    ensures Sound(l, AfterTake(l, b, now), now)
    ensures b.tokens <= Refilled(l, b, now) <= l.capacity
  {
    assert (now - b.last) * l.rate >= 0.0;
  }

  predicate Ascending(times: seq<real>) {
    forall i, j :: 0 <= i <= j < |times| ==> times[i] <= times[j]
  }

  /** The bucket after a series of takes. */
  function After(l: Limit, b: Bucket, times: seq<real>): Bucket
    decreases |times|
  {
    if times == [] then b else After(l, AfterTake(l, b, times[0]), times[1..])
  }

  function Allowed(l: Limit, b: Bucket, times: seq<real>): nat
    requires l.rate > 0.0
    decreases |times|
  {
    if times == [] then 0
    else (if Wait(l, b, times[0]) == 0.0 then 1 else 0) + Allowed(l, AfterTake(l, b, times[0]), times[1..])
  }

  /** What flows in between two times. */
  function Inflow(l: Limit, a: real, b: real): real {
    (b - a) * l.rate
  }

  function Spent(l: Limit, b: Bucket, now: real): nat
    requires l.rate > 0.0
  {
    if Wait(l, b, now) == 0.0 then 1 else 0
  }

  lemma OneTakeAccounts(l: Limit, b: Bucket, now: real, later: real)
    requires Sound(l, b, now) && now <= later
    ensures var next := AfterTake(l, b, now);
            && Sound(l, next, now) && Sound(l, next, later)
            && Spent(l, b, now) as real + next.tokens == Refilled(l, b, now)
            && Refilled(l, next, later) <= next.tokens + Inflow(l, now, later)
  {
    TakeKeepsSound(l, b, now);
    AllowedIff(l, b, now);
  }

  lemma InflowAdds(l: Limit, a: real, b: real, c: real)
    ensures Inflow(l, a, b) + Inflow(l, b, c) == Inflow(l, a, c)
  {
  }

  /** The takes of a series that starts here are covered by what the bucket holds and what flows in. */
  ghost predicate Covered(l: Limit, b: Bucket, times: seq<real>)
    requires times != [] && l.rate > 0.0
  {
    Allowed(l, b, times) as real + After(l, b, times).tokens
    <= Refilled(l, b, times[0]) + Inflow(l, times[0], times[|times| - 1])
  }

  lemma OneMoreIsCovered(l: Limit, b: Bucket, times: seq<real>)
    requires |times| > 1 && times[0] <= times[1] && Sound(l, b, times[0])
    requires Covered(l, AfterTake(l, b, times[0]), times[1..])
    ensures Covered(l, b, times)
  {
    var first, second, last := times[0], times[1], times[|times| - 1];
    var next := AfterTake(l, b, first);
    OneTakeAccounts(l, b, first, second);
    InflowAdds(l, first, second, last);
    assert times[1..][0] == second && times[1..][|times| - 2] == last;
    assert Allowed(l, b, times) == Spent(l, b, first) + Allowed(l, next, times[1..]);
  }

  /** Every token spent was there at the first take or came in since. */
  lemma {:induction false} TokensAccountFor(l: Limit, b: Bucket, times: seq<real>)
    requires times != [] && Ascending(times) && Sound(l, b, times[0])
    ensures Sound(l, After(l, b, times), times[|times| - 1])
    ensures Covered(l, b, times)
    decreases |times|
  {
    var rest := times[1..];
    if rest == [] {
      OneTakeAccounts(l, b, times[0], times[0]);
      assert Allowed(l, b, times) == Spent(l, b, times[0]) + Allowed(l, AfterTake(l, b, times[0]), []);
    } else {
      assert rest[0] == times[1] && rest[|rest| - 1] == times[|times| - 1];
      OneTakeAccounts(l, b, times[0], times[1]);
      TokensAccountFor(l, AfterTake(l, b, times[0]), rest);
      OneMoreIsCovered(l, b, times);
    }
  }

  lemma {:induction false} AfterBoth(l: Limit, b: Bucket, x: seq<real>, y: seq<real>)
    ensures After(l, b, x + y) == After(l, After(l, b, x), y)
    decreases |x|
  {
    if x == [] {
      assert x + y == y;
    } else {
      assert (x + y)[1..] == x[1..] + y;
      AfterBoth(l, AfterTake(l, b, x[0]), x[1..], y);
    }
  }

  /** In every stretch of takes i to j of a run, at most the capacity plus the inflow are allowed. */
  lemma RateBound(l: Limit, b: Bucket, times: seq<real>, i: nat, j: nat)
    requires i < j <= |times| && Ascending(times) && Sound(l, b, times[0])
    ensures Allowed(l, After(l, b, times[..i]), times[i..j]) as real
            <= l.capacity + Inflow(l, times[i], times[j - 1])
  {
    var start, window := After(l, b, times[..i]), times[i..j];
    if i > 0 {
      TokensAccountFor(l, b, times[..i]);
      assert times[..i][i - 1] <= times[i];
    }
    assert window[0] == times[i] && window[|window| - 1] == times[j - 1];
    TakeKeepsSound(l, start, times[i]);
    TokensAccountFor(l, start, window);
  }

  // ---- The returned wait --------------------------------------------------------------------------

  /** A denied take leaves the bucket as if it had not happened: later refills do not see it. */
  lemma DeniedTakeLeavesNoTrace(l: Limit, b: Bucket, now: real, later: real)
    requires Sound(l, b, now) && now <= later && Wait(l, b, now) > 0.0
    ensures Refilled(l, AfterTake(l, b, now), later) == Refilled(l, b, later)
  {
    AllowedIff(l, b, now);
    assert (now - b.last) * l.rate + (later - now) * l.rate == (later - b.last) * l.rate;
    assert (later - now) * l.rate >= 0.0;
  }

  /** A denied caller is next allowed exactly from the returned wait onward, if a bucket can hold a whole
      token; otherwise it is never allowed. */
  lemma WaitIsExact(l: Limit, b: Bucket, now: real, later: real)
    requires Sound(l, b, now) && now <= later && Wait(l, b, now) > 0.0
    ensures l.capacity >= 1.0 ==>
              (Wait(l, AfterTake(l, b, now), later) == 0.0 <==> later >= now + Wait(l, b, now))
    ensures l.capacity < 1.0 ==> Wait(l, AfterTake(l, b, now), later) > 0.0
  {
    var next := AfterTake(l, b, now);
    AllowedIff(l, b, now);
    AllowedIff(l, next, later);
    var wait := Wait(l, b, now);
    PositiveQuotient(1.0 - next.tokens, l.rate);
    assert wait * l.rate == 1.0 - next.tokens;
    ScaledOrder(later - now, wait, l.rate);
  }

  lemma ScaledOrder(x: real, y: real, rate: real)
    requires rate > 0.0
    ensures x * rate >= y * rate <==> x >= y
  {
  }

  /** A caller that leaves at least 1/rate seconds between takes is never denied. */
  lemma SteadyCallerIsAllowed(l: Limit, b: Bucket, now: real)
    requires Sound(l, b, now) && l.capacity >= 1.0 && now >= b.last + 1.0 / l.rate
    ensures Wait(l, b, now) == 0.0
  {
    PositiveQuotient(1.0, l.rate);
    ScaledOrder(now - b.last, 1.0 / l.rate, l.rate);
  }

  /** Retrying too early, however often, costs the caller nothing: the bucket refills as if untouched. */
  lemma {:induction false} EarlyRetriesLeaveNoTrace(l: Limit, b: Bucket, times: seq<real>, later: real)
    requires times != [] && Ascending(times) && Sound(l, b, times[0]) && times[|times| - 1] <= later
    requires Allowed(l, b, times) == 0
    ensures Refilled(l, After(l, b, times), later) == Refilled(l, b, later)
    decreases |times|
  {
    AllowedIff(l, b, times[0]);
    DeniedTakeLeavesNoTrace(l, b, times[0], later);
    TakeKeepsSound(l, b, times[0]);
    var next, rest := AfterTake(l, b, times[0]), times[1..];
    if rest != [] {
      assert rest[0] == times[1] && rest[|rest| - 1] == times[|times| - 1];
      EarlyRetriesLeaveNoTrace(l, next, rest, later);
    }
  }

  // ---- Tables that forget --------------------------------------------------------------------------

  type Table = map<Key, Bucket>

  datatype Request = Request(key: Key, now: real)

  /** Which callers a limiter forgets before it serves a request. */
  type Policy = (Table, real) -> set<Key>

  function Never(table: Table, now: real): set<Key> {
    {}
  }

  /** A caller without a bucket starts with a full one. */
  function BucketFor(l: Limit, table: Table, r: Request): Bucket {
    if r.key in table then table[r.key] else Bucket(l.capacity, r.now)
  }

  function Kept(policy: Policy, table: Table, now: real): Table {
    table - policy(table, now)
  }

  function Served(l: Limit, policy: Policy, table: Table, r: Request): Table {
    var kept := Kept(policy, table, r.now);
    kept[r.key := AfterTake(l, BucketFor(l, kept, r), r.now)]
  }

  /** The answers a limiter gives to a series of requests. */
  function Answers(l: Limit, policy: Policy, table: Table, requests: seq<Request>): seq<real>
    requires l.rate > 0.0
    decreases |requests|
  {
    if requests == [] then []
    else
      var r := requests[0];
      [Wait(l, BucketFor(l, Kept(policy, table, r.now), r), r.now)]
      + Answers(l, policy, Served(l, policy, table, r), requests[1..])
  }

  predicate InOrder(requests: seq<Request>) {
    forall i, j :: 0 <= i <= j < |requests| ==> requests[i].now <= requests[j].now
  }

  predicate SoundTable(l: Limit, table: Table, now: real) {
    forall k :: k in table ==> Sound(l, table[k], now)
  }

  /** The bucket would be full now: it is no different from a new one. */
  predicate Full(l: Limit, b: Bucket, now: real) {
    Refilled(l, b, now) == l.capacity
  }

  /** The policy forgets only callers whose bucket would be full. */
  ghost predicate ForgetsOnlyFull(l: Limit, policy: Policy) {
    forall table, now :: SoundTable(l, table, now) ==>
      forall k :: k in policy(table, now) && k in table ==> Full(l, table[k], now)
  }

  /** The forgetful table is the eternal one without some callers whose bucket would be full. */
  ghost predicate Shadows(l: Limit, small: Table, big: Table, now: real) {
    && SoundTable(l, big, now)
    && (forall k :: k in small ==> k in big && big[k] == small[k])
    && (forall k :: k in big && k !in small ==> Full(l, big[k], now))
  }

  lemma FullStaysFull(l: Limit, b: Bucket, now: real, later: real)
    requires Sound(l, b, now) && Full(l, b, now) && now <= later
    ensures Full(l, b, later)
  {
    ScaledOrder(later - b.last, now - b.last, l.rate);
  }

  lemma ShadowsLater(l: Limit, small: Table, big: Table, now: real, later: real)
    requires Shadows(l, small, big, now) && now <= later
    ensures Shadows(l, small, big, later)
  {
    forall k | k in big
      ensures Sound(l, big[k], later) && (k !in small ==> Full(l, big[k], later))
    {
      if k !in small { FullStaysFull(l, big[k], now, later); }
    }
  }

  lemma ForgettingKeepsShadow(l: Limit, policy: Policy, small: Table, big: Table, now: real)
    requires ForgetsOnlyFull(l, policy) && Shadows(l, small, big, now)
    ensures Shadows(l, Kept(policy, small, now), big, now)
  {
    assert SoundTable(l, small, now);
  }

  /** Serving a request answers alike and leaves alike tables. */
  lemma ServingKeepsShadow(l: Limit, small: Table, big: Table, r: Request)
    requires l.rate > 0.0 && l.capacity >= 0.0 && Shadows(l, small, big, r.now)
    ensures Wait(l, BucketFor(l, small, r), r.now) == Wait(l, BucketFor(l, big, r), r.now)
    ensures Shadows(l, small[r.key := AfterTake(l, BucketFor(l, small, r), r.now)],
                    big[r.key := AfterTake(l, BucketFor(l, big, r), r.now)], r.now)
  {
    assert AfterTake(l, BucketFor(l, small, r), r.now) == AfterTake(l, BucketFor(l, big, r), r.now);
    TakeKeepsSound(l, BucketFor(l, big, r), r.now);
  }

  lemma {:induction false} ShadowAnswersAlike(l: Limit, policy: Policy, small: Table, big: Table, requests: seq<Request>)
    requires l.rate > 0.0 && l.capacity >= 0.0 && ForgetsOnlyFull(l, policy) && InOrder(requests)
    requires requests != [] ==> Shadows(l, small, big, requests[0].now)
    ensures Answers(l, policy, small, requests) == Answers(l, Never, big, requests)
    decreases |requests|
  {
    if requests != [] {
      var r, rest := requests[0], requests[1..];
      assert Kept(Never, big, r.now) == big;
      ForgettingKeepsShadow(l, policy, small, big, r.now);
      ServingKeepsShadow(l, Kept(policy, small, r.now), big, r);
      var small', big' := Served(l, policy, small, r), Served(l, Never, big, r);
      if rest != [] {
        assert rest[0] == requests[1];
        ShadowsLater(l, small', big', r.now, rest[0].now);
      }
      ShadowAnswersAlike(l, policy, small', big', rest);
    }
  }

  /** A limiter that forgets only full buckets gives the answers of one that never forgets, to every
      series of requests. */
  lemma ForgettingIsInvisible(l: Limit, policy: Policy, requests: seq<Request>)
    requires l.rate > 0.0 && l.capacity >= 0.0 && ForgetsOnlyFull(l, policy) && InOrder(requests)
    ensures Answers(l, policy, map[], requests) == Answers(l, Never, map[], requests)
  {
    ShadowAnswersAlike(l, policy, map[], map[], requests);
  }

  // ---- The two limiters' policies ---------------------------------------------------------------------

  const PRUNE_ABOVE := 5000
  const IDLE_SECONDS := 600.0

  predicate Idle(b: Bucket, now: real) {
    now - b.last > IDLE_SECONDS
  }

  /** The in-process limiter: above 5000 callers, those idle for more than ten minutes. */
  function Pruned(table: Table, now: real): set<Key> {
    if |table| <= PRUNE_ABOVE then {} else set k | k in table && Idle(table[k], now)
  }

  /** The pruning rule forgets only full buckets exactly when ten minutes fill any bucket. */
  lemma PruningRuleIsSafeIff(l: Limit)
    requires l.rate > 0.0 && l.capacity >= 0.0
    ensures (forall b, now :: Sound(l, b, now) && Idle(b, now) ==> Full(l, b, now)) <==> l.capacity <= IDLE_SECONDS * l.rate
  {
    if l.capacity <= IDLE_SECONDS * l.rate {
      forall b, now | Sound(l, b, now) && Idle(b, now)
        ensures Full(l, b, now)
      {
        ScaledOrder(now - b.last, IDLE_SECONDS, l.rate);
      }
    } else {
      var fill := l.capacity / l.rate;
      assert fill * l.rate == l.capacity;
      ScaledOrder(IDLE_SECONDS, fill, l.rate);
      var b, now := Bucket(0.0, 0.0), (IDLE_SECONDS + fill) / 2.0;
      ScaledOrder(now, fill, l.rate);
      assert Sound(l, b, now) && Idle(b, now) && !Full(l, b, now);
    }
  }

  lemma LocalPruningIsInvisible(l: Limit, requests: seq<Request>)
    requires l.rate > 0.0 && 0.0 <= l.capacity <= IDLE_SECONDS * l.rate && InOrder(requests)
    ensures Answers(l, Pruned, map[], requests) == Answers(l, Never, map[], requests)
  {
    PruningRuleIsSafeIff(l);
    ForgettingIsInvisible(l, Pruned, requests);
  }

  /** The lifetime of an idle entry of the shared limiter, in whole seconds. */
  function TimeToLive(l: Limit): int
    requires l.rate > 0.0
  {
    (l.capacity / l.rate).Floor + 60
  }

  predicate HasExpired(l: Limit, b: Bucket, now: real)
    requires l.rate > 0.0
  {
    now >= b.last + TimeToLive(l) as real
  }

  /** The shared limiter: whoever has been idle for the time to live. */
  function Expired(l: Limit): Policy
    requires l.rate > 0.0
  {
    (table: Table, now: real) => set k | k in table && HasExpired(l, table[k], now)
  }

  lemma ExpiredIsFull(l: Limit, b: Bucket, now: real)
    requires Sound(l, b, now) && HasExpired(l, b, now)
    ensures Full(l, b, now)
  {
    var fill := l.capacity / l.rate;
    assert fill * l.rate == l.capacity;
    ScaledOrder(now - b.last, fill, l.rate);
  }

  /** The shared limiter's time to live is never seen, whatever the capacity and the rate. */
  lemma ExpiryIsInvisible(l: Limit, requests: seq<Request>)
    requires l.rate > 0.0 && l.capacity >= 0.0 && InOrder(requests)
    ensures Answers(l, Expired(l), map[], requests) == Answers(l, Never, map[], requests)
  {
    forall table, now | SoundTable(l, table, now)
      ensures forall k :: k in Expired(l)(table, now) && k in table ==> Full(l, table[k], now)
    {
      forall k | k in Expired(l)(table, now) && k in table
        ensures Full(l, table[k], now)
      {
        ExpiredIsFull(l, table[k], now);
      }
    }
    ForgettingIsInvisible(l, Expired(l), requests);
  }

  // ---- Forgetting a bucket that is not full shows ---------------------------------------------------------

  function Repeat(now: real, n: nat): (times: seq<real>)
    ensures |times| == n
  {
    if n == 0 then [] else [now] + Repeat(now, n - 1)
  }

  function Waits(l: Limit, b: Bucket, times: seq<real>): seq<real>
    requires l.rate > 0.0
    decreases |times|
  {
    if times == [] then [] else [Wait(l, b, times[0])] + Waits(l, AfterTake(l, b, times[0]), times[1..])
  }

  lemma TakeAtOnce(l: Limit, b: Bucket)
    requires b.tokens <= l.capacity
    ensures Refilled(l, b, b.last) == b.tokens
    ensures b.tokens >= 1.0 ==> AfterTake(l, b, b.last) == Bucket(b.tokens - 1.0, b.last)
  {
    var none := b.last - b.last;
    assert none == 0.0 && none * l.rate == 0.0;
    assert Refilled(l, b, b.last) == Min(l.capacity, b.tokens + none * l.rate);
  }

  /** Two buckets that hold different amounts now are told apart by enough takes now. */
  lemma {:induction false} DifferentAmountsShow(l: Limit, x: real, y: real, now: real) returns (n: nat)
    requires l.rate > 0.0 && 0.0 <= x < y <= l.capacity
    ensures Waits(l, Bucket(x, now), Repeat(now, n)) != Waits(l, Bucket(y, now), Repeat(now, n))
    decreases x.Floor
  {
    var a, b := Bucket(x, now), Bucket(y, now);
    TakeAtOnce(l, a);
    TakeAtOnce(l, b);
    if x < 1.0 {
      n := 1;
      assert Repeat(now, 1)[0] == now;
      assert Wait(l, a, now) != Wait(l, b, now) by {
        PositiveQuotient(1.0 - x, l.rate);
        if y < 1.0 { PositiveQuotient(1.0 - y, l.rate); }
      }
      assert Waits(l, a, Repeat(now, 1))[0] != Waits(l, b, Repeat(now, 1))[0];
    } else {
      n := DifferentAmountsShow(l, x - 1.0, y - 1.0, now);
      n := n + 1;
      assert Repeat(now, n)[1..] == Repeat(now, n - 1);
      assert Waits(l, a, Repeat(now, n))[1..] == Waits(l, Bucket(x - 1.0, now), Repeat(now, n - 1));
      assert Waits(l, b, Repeat(now, n))[1..] == Waits(l, Bucket(y - 1.0, now), Repeat(now, n - 1));
    }
  }

  lemma {:induction false} OnlyTheRefillCounts(l: Limit, b: Bucket, now: real, n: nat)
    requires Sound(l, b, now)
    ensures Waits(l, b, Repeat(now, n)) == Waits(l, Bucket(Refilled(l, b, now), now), Repeat(now, n))
  {
    if n > 0 {
      TakeKeepsSound(l, b, now);
      TakeAtOnce(l, Bucket(Refilled(l, b, now), now));
      assert AfterTake(l, b, now) == AfterTake(l, Bucket(Refilled(l, b, now), now), now);
    }
  }

  /** Replacing a bucket by a new one goes unnoticed exactly when the bucket would be full. */
  lemma ForgettingIsVisibleUnlessFull(l: Limit, b: Bucket, now: real)
    requires Sound(l, b, now)
    ensures (forall n: nat :: Waits(l, b, Repeat(now, n)) == Waits(l, Bucket(l.capacity, now), Repeat(now, n)))
            <==> Full(l, b, now)
  {
    TakeKeepsSound(l, b, now);
    if Full(l, b, now) {
      forall n: nat
        ensures Waits(l, b, Repeat(now, n)) == Waits(l, Bucket(l.capacity, now), Repeat(now, n))
      {
        OnlyTheRefillCounts(l, b, now, n);
      }
    } else {
      var n := DifferentAmountsShow(l, Refilled(l, b, now), l.capacity, now);
      OnlyTheRefillCounts(l, b, now, n);
    }
  }

  // ---- The limiters -----------------------------------------------------------------------------------

  class LocalLimiter {
    var buckets: map<Key, TokenBucket>

    /** No two callers share a bucket. */
    ghost predicate Valid()
      reads this
    {
      forall j, k :: j in buckets && k in buckets && j != k ==> buckets[j] != buckets[k]
    }

    ghost function Contents(): Table
      reads this, buckets.Values
    {
      map k | k in buckets :: buckets[k].Value()
    }

    constructor ()
      ensures Valid() && Contents() == map[]
    {
      buckets := map[];
    }

    /** Drops idle callers, then takes from the caller's bucket, which starts full. */
    method Take(key: Key, l: Limit, now: real) returns (wait: real)
      requires Valid() && l.rate > 0.0
      modifies this, buckets.Values
      ensures Valid() && fresh(buckets.Values - old(buckets.Values))
      ensures wait == Wait(l, BucketFor(l, Kept(Pruned, old(Contents()), now), Request(key, now)), now)
      ensures Contents() == Served(l, Pruned, old(Contents()), Request(key, now))
    {
      Prune(now);
      ghost var kept, own := Contents(), BucketFor(l, Contents(), Request(key, now));
      var bucket := FindOrAdd(key, l, now);
      assert bucket.Value() == own by { assert Contents()[key] == bucket.Value(); }
      wait := TakeFrom(bucket, key, l, now);
      assert kept[key := own][key := AfterTake(l, own, now)] == kept[key := AfterTake(l, own, now)];
    }

    method TakeFrom(bucket: TokenBucket, ghost key: Key, l: Limit, now: real) returns (wait: real)
      requires Valid() && l.rate > 0.0 && key in buckets && buckets[key] == bucket
      modifies bucket
      ensures wait == Wait(l, old(bucket.Value()), now)
      ensures Contents() == old(Contents())[key := AfterTake(l, old(bucket.Value()), now)]
    {
      wait := bucket.Take(l, now);
    }

    method FindOrAdd(key: Key, l: Limit, now: real) returns (bucket: TokenBucket)
      requires Valid()
      modifies this
      ensures Valid() && fresh(buckets.Values - old(buckets.Values))
      ensures key in buckets && buckets[key] == bucket
      ensures Contents() == old(Contents())[key := BucketFor(l, old(Contents()), Request(key, now))]
    {
      if key !in buckets {
        var b := new TokenBucket(l.capacity, now);
        buckets := buckets[key := b];
      }
      bucket := buckets[key];
    }

    method Prune(now: real)
      requires Valid()
      modifies this
      ensures Valid() && buckets.Values <= old(buckets.Values)
      ensures Contents() == Kept(Pruned, old(Contents()), now)
      ensures |old(Contents())| <= 5000 ==> Contents() == old(Contents())
      ensures |old(Contents())| > 5000 ==>
                forall k :: k in Contents() <==> k in old(Contents()) && now - old(Contents())[k].last <= 600.0
    {
      SameSize(buckets, Contents());
      if |buckets| <= PRUNE_ABOVE { return; }
      var stale := set k | k in buckets && now - buckets[k].lastRefill > IDLE_SECONDS;
      assert stale == Pruned(Contents(), now);
      buckets := buckets - stale;
    }
  }

  lemma SameSize<K, A, B>(a: map<K, A>, b: map<K, B>)
    requires a.Keys == b.Keys
    ensures |a| == |b|
  {
    assert |a| == |a.Keys| && |b| == |b.Keys|;
  }

  /** A bucket in the shared store, with the time at which the store drops it. */
  datatype Row = Row(bucket: Bucket, expires: real)

  class SharedLimiter {
    var rows: map<Key, Row>
    const fallback: LocalLimiter

    /** Every row was written with the time to live of this limit. */
    ghost predicate Valid(l: Limit)
      reads this
    {
      l.rate > 0.0 && forall k :: k in rows ==> rows[k].expires == rows[k].bucket.last + TimeToLive(l) as real
    }

    ghost function Contents(): Table
      reads this
    {
      map k | k in rows :: rows[k].bucket
    }

    constructor (fallback: LocalLimiter)
      ensures rows == map[] && Contents() == map[] && this.fallback == fallback
    {
      rows := map[];
      this.fallback := fallback;
    }

    /** What the store's script does, after the store dropped what expired. */
    method RunScript(key: Key, l: Limit, now: real) returns (wait: real)
      requires Valid(l)
      modifies this
      ensures Valid(l)
      ensures wait == Wait(l, BucketFor(l, Kept(Expired(l), old(Contents()), now), Request(key, now)), now)
      ensures Contents() == Served(l, Expired(l), old(Contents()), Request(key, now))
      ensures key in rows && rows[key].expires == now + ((l.capacity / l.rate).Floor + 60) as real
    {
      DropExpired(l, now);
      ghost var kept := Contents();
      var tokens, ts := l.capacity, now;
      if key in rows { tokens, ts := rows[key].bucket.tokens, rows[key].bucket.last; }
      tokens := Min(l.capacity, tokens + (now - ts) * l.rate);
      wait := 0.0;
      if tokens >= 1.0 {
        tokens := tokens - 1.0;
      } else {
        wait := (1.0 - tokens) / l.rate;
      }
      assert Bucket(tokens, now) == AfterTake(l, BucketFor(l, kept, Request(key, now)), now);
      rows := rows[key := Row(Bucket(tokens, now), now + TimeToLive(l) as real)];
      assert Contents() == kept[key := Bucket(tokens, now)];
    }

    method DropExpired(l: Limit, now: real)
      requires Valid(l)
      modifies this
      ensures Valid(l) && Contents() == Kept(Expired(l), old(Contents()), now)
    {
      rows := map k | k in rows && now < rows[k].expires :: rows[k];
    }

    /** One bucket for all replicas while the store answers; otherwise this replica's own. */
    method Take(key: Key, l: Limit, now: real, localNow: real, reachable: bool) returns (wait: real)
      requires Valid(l) && fallback.Valid()
      modifies this, fallback, fallback.buckets.Values
      ensures Valid(l) && fallback.Valid()
      ensures reachable ==>
                wait == Wait(l, BucketFor(l, Kept(Expired(l), old(Contents()), now), Request(key, now)), now)
                && Contents() == Served(l, Expired(l), old(Contents()), Request(key, now))
                && unchanged(fallback) && unchanged(fallback.buckets.Values)
      ensures !reachable ==>
                wait == Wait(l, BucketFor(l, Kept(Pruned, old(fallback.Contents()), localNow), Request(key, localNow)), localNow)
                && fallback.Contents() == Served(l, Pruned, old(fallback.Contents()), Request(key, localNow))
                && rows == old(rows)
    {
      if reachable {
        wait := RunScript(key, l, now);
      } else {
        wait := fallback.Take(key, l, localNow);
      }
    }
  }
}
