/** The live timeline: an append-only event log, a server stream that reads it in batches behind
    lossy wake-ups, and a browser client that may be cut off and resume at any point. */
module Timeline {
  import opened Wrappers

  const STREAM_BATCH := 500

  /** One committed event of the run; ids grow in commit order because one writer serves a run. */
  datatype Entry = Entry(id: nat, body: string)

  ghost predicate Ordered(log: seq<Entry>) {
    && (forall i :: 0 <= i < |log| ==> 0 < log[i].id)
    && forall i, j :: 0 <= i < j < |log| ==> log[i].id < log[j].id
  }

  /** The entries with id greater than the cursor, in order: what the query selects. */
  function Beyond(log: seq<Entry>, cursor: nat): seq<Entry> {
    if log == [] then []
    else if log[0].id > cursor then [log[0]] + Beyond(log[1..], cursor)
    else Beyond(log[1..], cursor)
  }

  /** The entries with id at most the cursor, in order. */
  function UpTo(log: seq<Entry>, cursor: nat): seq<Entry> {
    if log == [] then []
    else if log[0].id <= cursor then [log[0]] + UpTo(log[1..], cursor)
    else UpTo(log[1..], cursor)
  }

  function Batch(log: seq<Entry>, cursor: nat): seq<Entry> {
    var rows := Beyond(log, cursor);
    if |rows| <= STREAM_BATCH then rows else rows[..STREAM_BATCH]
  }

  // ---- the two ends ----

  /** The browser's side: what it shows, its own cursor, the id its event source saw last, and the
      cursor the source was opened with. */
  datatype Client = Client(events: seq<Entry>, cursor: nat, lastEventId: Option<nat>, openedAfter: nat, done: bool)

  /** Where the server's loop stands. The status is read before the events, in its own statement. */
  datatype Serving =
    | ReadStatus
    | ReadEvents(terminal: bool)
    | Sending(batch: seq<Entry>, partial: bool, terminal: bool)
    | Waiting
    | Closed

  /** One connection: the server's cursor, and what it sent that the client has not received. */
  datatype Connection = Connection(cursor: nat, serving: Serving, wire: seq<Entry>, endSent: bool)

  /** The answer to one polling request for events; seen is how long the log was when it was read. */
  datatype Page = FetchFailed | Fetched(entries: seq<Entry>, seen: nat)

  /** Once the event source gives up the client polls: each round reads the status and one page of
      events at the same time, in either order, and stops after a finished status. */
  datatype Fallback = Streaming | Polling(finished: Option<bool>, page: Option<Page>) | Stopped

  /** sealedAt is the length of the log just after the terminal status was committed. */
  datatype State = State(
    log: seq<Entry>,
    sealedAt: Option<nat>,
    client: Client,
    connection: Option<Connection>,
    fallback: Fallback)

  datatype Step =
    | Commit(entries: seq<Entry>, terminal: bool)
    | OpenSource
    | Reconnect
    | Drop
    | QueryStatus
    | QueryEvents
    | SendNext
    | EndBatch
    | Wake
    | Receive
    | ReceiveEnd
    | FallBack
    | PollStatus(ok: bool)
    | PollEvents(ok: bool)
    | PollApply

  function Accept(client: Client, entry: Entry): Client {
    var seen := client.(lastEventId := Some(entry.id));
    if entry.id > client.cursor then seen.(cursor := entry.id, events := client.events + [entry]) else seen
  }

  function AppendPage(client: Client, page: Page): Client {
    if page.FetchFailed? || page.entries == [] then client
    else client.(cursor := page.entries[|page.entries| - 1].id, events := client.events + page.entries)
  }

  function ResumeAt(client: Client): nat {
    match client.lastEventId
    case None => client.openedAfter
    case Some(id) => if id > client.openedAfter then id else client.openedAfter
  }

  predicate Follows(log: seq<Entry>, entries: seq<Entry>) {
    && (forall i :: 0 <= i < |entries| ==> 0 < entries[i].id)
    && (forall i, j :: 0 <= i < j < |entries| ==> entries[i].id < entries[j].id)
    && forall i, j :: 0 <= i < |log| && 0 <= j < |entries| ==> log[i].id < entries[j].id
  }

  predicate Enabled(s: State, step: Step) {
    match step
    case Commit(entries, terminal) => Follows(s.log, entries)
    case OpenSource => s.connection.None? && !s.client.done && s.fallback.Streaming?
    case Reconnect => s.connection.None? && !s.client.done && s.fallback.Streaming?
    case Drop => s.connection.Some?
    case QueryStatus => s.connection.Some? && s.connection.value.serving.ReadStatus?
    case QueryEvents => s.connection.Some? && s.connection.value.serving.ReadEvents?
    case SendNext => s.connection.Some? && s.connection.value.serving.Sending? && s.connection.value.serving.batch != []
    case EndBatch => s.connection.Some? && s.connection.value.serving.Sending? && s.connection.value.serving.batch == []
    case Wake => s.connection.Some? && s.connection.value.serving.Waiting?
    case Receive => s.connection.Some? && s.connection.value.wire != []
    case ReceiveEnd => s.connection.Some? && s.connection.value.wire == [] && s.connection.value.endSent
    case FallBack => s.connection.None? && !s.client.done && s.fallback.Streaming?
    case PollStatus(_) => s.fallback.Polling? && s.fallback.finished.None?
    case PollEvents(_) => s.fallback.Polling? && s.fallback.page.None?
    case PollApply => s.fallback.Polling? && s.fallback.finished.Some? && s.fallback.page.Some?
  }

  function Apply(s: State, step: Step): State
    requires Enabled(s, step)
  {
    match step
    case Commit(entries, terminal) =>
      s.(log := s.log + entries,
         sealedAt := if terminal && s.sealedAt.None? then Some(|s.log| + |entries|) else s.sealedAt)
    case OpenSource =>
      s.(client := s.client.(openedAfter := s.client.cursor, lastEventId := None),
         connection := Some(Connection(s.client.cursor, ReadStatus, [], false)))
    case Reconnect => s.(connection := Some(Connection(ResumeAt(s.client), ReadStatus, [], false)))
    case Drop => s.(connection := None)
    case QueryStatus => Serve(s, s.connection.value.(serving := ReadEvents(s.sealedAt.Some?)))
    case QueryEvents =>
      var c := s.connection.value;
      var batch := Batch(s.log, c.cursor);
      Serve(s, c.(serving := Sending(batch, |batch| < STREAM_BATCH, c.serving.terminal)))
    case SendNext =>
      var c := s.connection.value;
      var entry := c.serving.batch[0];
      Serve(s, c.(cursor := entry.id, wire := c.wire + [entry],
                  serving := c.serving.(batch := c.serving.batch[1..])))
    case EndBatch =>
      var c := s.connection.value;
      if c.serving.partial && c.serving.terminal then Serve(s, c.(serving := Closed, endSent := true))
      else Serve(s, c.(serving := Waiting))
    case Wake => Serve(s, s.connection.value.(serving := ReadStatus))
    case Receive =>
      var c := s.connection.value;
      s.(client := Accept(s.client, c.wire[0]), connection := Some(c.(wire := c.wire[1..])))
    case ReceiveEnd => s.(client := s.client.(done := true), connection := None)
    case FallBack => s.(fallback := Polling(None, None))
    case PollStatus(ok) => s.(fallback := s.fallback.(finished := Some(ok && s.sealedAt.Some?)))
    case PollEvents(ok) =>
      var page := if ok then Fetched(Batch(s.log, s.client.cursor), |s.log|) else FetchFailed;
      s.(fallback := s.fallback.(page := Some(page)))
    case PollApply =>
      s.(client := AppendPage(s.client, s.fallback.page.value),
         fallback := if s.fallback.finished.value then Stopped else Polling(None, None))
  }

  function Serve(s: State, c: Connection): State {
    s.(connection := Some(c))
  }

  predicate Init(s: State) {
    && s.log == [] && s.sealedAt == None && s.connection == None && s.fallback == Streaming
    && s.client == Client([], 0, None, 0, false)
  }

  ghost predicate IsRun(states: seq<State>, steps: seq<Step>) {
    && |states| == |steps| + 1 && Init(states[0])
    && forall i :: 0 <= i < |steps| ==> Enabled(states[i], steps[i]) && states[i + 1] == Apply(states[i], steps[i])
  }

  // ---- the invariant, in positions of the log ----

  /** The cursor stands just after the first p entries. */
  ghost predicate CursorAt(log: seq<Entry>, cursor: nat, p: nat) {
    p <= |log| && cursor == if p == 0 then 0 else log[p - 1].id
  }

  ghost predicate ClientInv(s: State) {
    && CursorAt(s.log, s.client.cursor, |s.client.events|)
    && s.client.events == s.log[..|s.client.events|]
    && (s.fallback.Streaming? ==> ResumeAt(s.client) == s.client.cursor)
    && (s.client.done ==> s.sealedAt.Some? && s.sealedAt.value <= |s.client.events|)
  }

  /** p is what the client holds, q what the server has sent. */
  ghost predicate ConnectionInv(s: State, c: Connection) {
    var p := |s.client.events|;
    var q := p + |c.wire|;
    && CursorAt(s.log, c.cursor, q)
    && c.wire == s.log[p..q]
    && (c.endSent ==> c.serving.Closed? && s.sealedAt.Some? && s.sealedAt.value <= q)
    && match c.serving
       case ReadEvents(terminal) => terminal ==> s.sealedAt.Some?
       case Sending(batch, partial, terminal) =>
         && q + |batch| <= |s.log| && batch == s.log[q..q + |batch|]
         && (partial && terminal ==> s.sealedAt.Some? && s.sealedAt.value <= q + |batch|)
       case _ => true
  }

  /** A page waiting to be shown continues the timeline: all that was unseen, up to the page's limit. */
  ghost predicate PollInv(s: State) {
    s.fallback.Polling? ==>
      && (s.fallback.finished == Some(true) ==> s.sealedAt.Some?)
      && (s.fallback.page.Some? && s.fallback.page.value.Fetched? ==> PageFits(s, s.fallback.page.value))
  }

  ghost predicate PageFits(s: State, page: Page)
    requires page.Fetched?
  {
    var p := |s.client.events|;
    && p <= page.seen <= |s.log|
    && |page.entries| == (if page.seen - p <= STREAM_BATCH then page.seen - p else STREAM_BATCH)
    && page.entries == s.log[p..p + |page.entries|]
  }

  ghost predicate Inv(s: State) {
    && Ordered(s.log)
    && (!s.fallback.Streaming? ==> s.connection.None?)
    && PollInv(s)
    && (s.sealedAt.Some? ==> s.sealedAt.value <= |s.log|)
    && ClientInv(s)
    && (s.connection.Some? ==> ConnectionInv(s, s.connection.value))
  }

  lemma {:induction false} BeyondIsSuffix(log: seq<Entry>, cursor: nat, p: nat)
    requires p <= |log|
    requires forall i :: 0 <= i < p ==> log[i].id <= cursor
    requires forall i :: p <= i < |log| ==> log[i].id > cursor
    ensures Beyond(log, cursor) == log[p..]
  {
    if log != [] {
      if p > 0 {
        BeyondIsSuffix(log[1..], cursor, p - 1);
        assert log[1..][p - 1..] == log[p..];
      } else {
        BeyondIsSuffix(log[1..], cursor, 0);
        assert log[0..] == [log[0]] + log[1..];
      }
    }
  }

  lemma {:induction false} UpToIsPrefix(log: seq<Entry>, cursor: nat, p: nat)
    requires p <= |log|
    requires forall i :: 0 <= i < p ==> log[i].id <= cursor
    requires forall i :: p <= i < |log| ==> log[i].id > cursor
    ensures UpTo(log, cursor) == log[..p]
  {
    if log != [] {
      if p > 0 {
        UpToIsPrefix(log[1..], cursor, p - 1);
        assert log[..p] == [log[0]] + log[1..][..p - 1];
      } else {
        UpToIsPrefix(log[1..], cursor, 0);
      }
    }
  }

  lemma CursorCuts(log: seq<Entry>, cursor: nat, p: nat)
    requires Ordered(log) && CursorAt(log, cursor, p)
    ensures Beyond(log, cursor) == log[p..] && UpTo(log, cursor) == log[..p]
  {
    BeyondIsSuffix(log, cursor, p);
    UpToIsPrefix(log, cursor, p);
  }

  lemma SlicesStay(log: seq<Entry>, more: seq<Entry>, a: nat, b: nat)
    requires a <= b <= |log|
    ensures (log + more)[a..b] == log[a..b]
  {
  }

  lemma CommitKeepsConnection(s: State, c: Connection, s': State)
    requires ClientInv(s) && ConnectionInv(s, c) && s.log <= s'.log && s'.client == s.client
    requires s.sealedAt.Some? ==> s'.sealedAt == s.sealedAt
    ensures ConnectionInv(s', c)
  {
    var p := |s.client.events|;
    var q := p + |c.wire|;
    var more := s'.log[|s.log|..];
    assert s'.log == s.log + more;
    SlicesStay(s.log, more, p, q);
    if c.serving.Sending? { SlicesStay(s.log, more, q, q + |c.serving.batch|); }
  }

  lemma CommitKeepsPoll(s: State, s': State)
    requires ClientInv(s) && PollInv(s) && s.log <= s'.log && s'.client == s.client && s'.fallback == s.fallback
    requires s.sealedAt.Some? ==> s'.sealedAt == s.sealedAt
    ensures PollInv(s')
  {
    if s.fallback.Polling? && s.fallback.page.Some? && s.fallback.page.value.Fetched? {
      var p, n := |s.client.events|, |s.fallback.page.value.entries|;
      SlicesStay(s.log, s'.log[|s.log|..], p, p + n);
      assert s'.log == s.log + s'.log[|s.log|..];
    }
  }

  lemma CommitKeeps(s: State, entries: seq<Entry>, terminal: bool)
    requires Inv(s) && Follows(s.log, entries)
    ensures Inv(Apply(s, Commit(entries, terminal)))
  {
    var s' := Apply(s, Commit(entries, terminal));
    SlicesStay(s.log, entries, 0, |s.client.events|);
    CommitKeepsPoll(s, s');
    if s.connection.Some? { CommitKeepsConnection(s, s.connection.value, s'); }
  }

  lemma QueryKeeps(s: State)
    requires Inv(s) && Enabled(s, QueryEvents)
    ensures Inv(Apply(s, QueryEvents))
  {
    var c := s.connection.value;
    var q := |s.client.events| + |c.wire|;
    DrainAdvances(s.log, c.cursor, q);
  }

  lemma FirstMoves(log: seq<Entry>, p: nat, q: nat, n: nat)
    requires p <= q && 0 < n && q + n <= |log|
    ensures log[q..q + n][0] == log[q] && log[q..q + n][1..] == log[q + 1..q + n]
    ensures log[p..q] + [log[q]] == log[p..q + 1]
  {
  }

  lemma SentKeepsConnection(s: State, c: Connection, after: State)
    requires ConnectionInv(s, c) && c.serving.Sending? && c.serving.batch != []
    requires after.log == s.log && after.client == s.client && after.sealedAt == s.sealedAt
    ensures var entry := c.serving.batch[0];
            ConnectionInv(after, c.(cursor := entry.id, wire := c.wire + [entry],
                                    serving := c.serving.(batch := c.serving.batch[1..])))
  {
    FirstMoves(s.log, |s.client.events|, |s.client.events| + |c.wire|, |c.serving.batch|);
  }

  lemma SendKeeps(s: State)
    requires Inv(s) && Enabled(s, SendNext)
    ensures Inv(Apply(s, SendNext))
  {
    SentKeepsConnection(s, s.connection.value, Apply(s, SendNext));
  }

  /** Receiving the next entry of the wire: the guard lets it through. */
  lemma ReceivedKeepsClient(s: State, entry: Entry)
    requires Ordered(s.log) && ClientInv(s) && s.fallback.Streaming? && |s.client.events| < |s.log|
    requires entry == s.log[|s.client.events|]
    ensures var after := s.(client := Accept(s.client, entry));
            ClientInv(after) && after.client.events == s.client.events + [entry]
  {
    FirstMoves(s.log, 0, |s.client.events|, 1);
    assert s.log[..|s.client.events| + 1] == s.client.events + [entry];
  }

  lemma ReceivedKeepsConnection(s: State, c: Connection, after: State)
    requires ConnectionInv(s, c) && c.wire != []
    requires after.log == s.log && after.sealedAt == s.sealedAt && |after.client.events| == |s.client.events| + 1
    ensures ConnectionInv(after, c.(wire := c.wire[1..]))
  {
    FirstMoves(s.log, 0, |s.client.events|, |c.wire|);
  }

  lemma ReceiveKeeps(s: State)
    requires Inv(s) && Enabled(s, Receive)
    ensures Inv(Apply(s, Receive))
    ensures Apply(s, Receive).client.events == s.client.events + [s.connection.value.wire[0]]
  {
    ReceivedKeepsClient(s, s.connection.value.wire[0]);
    ReceivedKeepsConnection(s, s.connection.value, Apply(s, Receive));
  }

  lemma PollKeeps(s: State)
    requires Inv(s) && Enabled(s, PollEvents(true))
    ensures Inv(Apply(s, PollEvents(true)))
  {
    var p := |s.client.events|;
    DrainAdvances(s.log, s.client.cursor, p);
  }

  lemma PageKeeps(s: State)
    requires Inv(s) && Enabled(s, PollApply)
    ensures Inv(Apply(s, PollApply))
    ensures s.fallback.page.value.Fetched? ==>
              Apply(s, PollApply).client.events == s.log[..|s.client.events| + |s.fallback.page.value.entries|]
  {
    if s.fallback.page.value.Fetched? { PageShown(s, s.fallback.page.value); }
  }

  lemma PageShown(s: State, page: Page)
    requires ClientInv(s) && page.Fetched? && PageFits(s, page)
    ensures var after := AppendPage(s.client, page);
            && |after.events| == |s.client.events| + |page.entries| && after.events == s.log[..|after.events|]
            && CursorAt(s.log, after.cursor, |after.events|) && after.done == s.client.done
  {
    var p, n := |s.client.events|, |page.entries|;
    assert s.log[..p + n] == s.log[..p] + s.log[p..p + n];
  }

  lemma OpeningKeeps(s: State, step: Step)
    requires Inv(s) && Enabled(s, step) && (step.OpenSource? || step.Reconnect?)
    ensures Inv(Apply(s, step))
  {
  }

  lemma ServingKeeps(s: State, step: Step)
    requires Inv(s) && Enabled(s, step) && (step.QueryStatus? || step.Wake?)
    ensures Inv(Apply(s, step))
  {
  }

  lemma EndingKeeps(s: State)
    requires Inv(s) && Enabled(s, EndBatch)
    ensures Inv(Apply(s, EndBatch))
  {
  }

  lemma StepKeepsInv(s: State, step: Step)
    requires Inv(s) && Enabled(s, step)
    ensures Inv(Apply(s, step))
  {
    match step
    case Commit(entries, terminal) => CommitKeeps(s, entries, terminal);
    case QueryEvents => QueryKeeps(s);
    case SendNext => SendKeeps(s);
    case Receive => ReceiveKeeps(s);
    case QueryStatus => ServingKeeps(s, step);
    case EndBatch => EndingKeeps(s);
    case Wake => ServingKeeps(s, step);
    case OpenSource => OpeningKeeps(s, step);
    case Reconnect => OpeningKeeps(s, step);
    case PollEvents(ok) => if ok { PollKeeps(s); }
    case PollApply => PageKeeps(s);
    case _ =>
  }

  lemma {:induction false} RunKeepsInv(states: seq<State>, steps: seq<Step>, i: nat)
    requires IsRun(states, steps) && i < |states|
    ensures Inv(states[i])
  {
    if i > 0 {
      RunKeepsInv(states, steps, i - 1);
      StepKeepsInv(states[i - 1], steps[i - 1]);
    }
  }

  // ---- the theorems ----

  /** At every moment of every run the timeline is exactly the log entries with id at most the
      client's cursor: in order, none missing, none twice, however often the stream was cut. */
  lemma TimelineIsExact(states: seq<State>, steps: seq<Step>, i: nat)
    requires IsRun(states, steps) && i < |states|
    ensures states[i].client.events == UpTo(states[i].log, states[i].client.cursor)
    ensures forall a, b :: 0 <= a < b < |states[i].client.events| ==>
              states[i].client.events[a].id < states[i].client.events[b].id
  {
    RunKeepsInv(states, steps, i);
    CursorCuts(states[i].log, states[i].client.cursor, |states[i].client.events|);
  }

  /** Once the client saw the end of the stream, the run is terminal and the timeline holds every
      event committed up to and with the terminal status. */
  lemma EndMeansComplete(states: seq<State>, steps: seq<Step>, i: nat)
    requires IsRun(states, steps) && i < |states| && states[i].client.done
    ensures states[i].sealedAt.Some? && states[i].sealedAt.value <= |states[i].log|
    ensures states[i].log[..states[i].sealedAt.value] <= states[i].client.events
  {
    RunKeepsInv(states, steps, i);
    var s := states[i];
    assert s.log[..s.sealedAt.value] == s.client.events[..s.sealedAt.value];
  }

  /** The id guard never rejects on the stream: everything a resumed stream sends is new to the
      client, so resuming costs no duplicate and no gap. */
  lemma ResumedStreamSendsNews(states: seq<State>, steps: seq<Step>, i: nat)
    requires IsRun(states, steps) && i < |states| && Enabled(states[i], Receive)
    ensures states[i].connection.value.wire[0].id > states[i].client.cursor
    ensures states[i].client.events + states[i].connection.value.wire == UpTo(states[i].log, states[i].connection.value.cursor)
  {
    RunKeepsInv(states, steps, i);
    var s := states[i];
    var c := s.connection.value;
    CursorCuts(s.log, c.cursor, |s.client.events| + |c.wire|);
    assert c.wire[0] == s.log[|s.client.events|];
  }

  /** Exactly when a client that polls stops with a complete timeline: it already held everything
      sealed, or its last page was fetched after the final commit and the unseen sealed events fit into
      one page. */
  lemma PollingStopsCompleteIff(states: seq<State>, steps: seq<Step>, i: nat)
    requires IsRun(states, steps) && i < |steps| && steps[i] == PollApply && states[i + 1].fallback.Stopped?
    ensures states[i].sealedAt.Some? && states[i].sealedAt.value <= |states[i].log|
    ensures var held, sealed, page := |states[i].client.events|, states[i].sealedAt.value, states[i].fallback.page.value;
            states[i].log[..sealed] <= states[i + 1].client.events <==>
            sealed <= held || (page.Fetched? && sealed <= page.seen && sealed <= held + 500)
  {
    RunKeepsInv(states, steps, i);
    PageKeeps(states[i]);
    var s, after := states[i], states[i + 1].client.events;
    assert after == s.log[..|after|];
    PrefixIff(s.log, s.sealedAt.value, |after|);
  }

  lemma PrefixIff(log: seq<Entry>, a: nat, b: nat)
    requires a <= |log| && b <= |log|
    ensures log[..a] <= log[..b] <==> a <= b
  {
    if a <= b { assert log[..b][..a] == log[..a]; }
  }

  const START := State([], None, Client([], 0, None, 0, false), None, Streaming)

  lemma Then(states: seq<State>, steps: seq<Step>, step: Step) returns (more: seq<State>, longer: seq<Step>)
    requires IsRun(states, steps) && Enabled(states[|steps|], step)
    ensures IsRun(more, longer) && more == states + [Apply(states[|steps|], step)] && longer == steps + [step]
  {
    more, longer := states + [Apply(states[|steps|], step)], steps + [step];
    forall i | 0 <= i < |longer|
      ensures Enabled(more[i], longer[i]) && more[i + 1] == Apply(more[i], longer[i])
    {
      if i < |steps| { assert longer[i] == steps[i]; }
    }
  }

  /** A run that ends between the two reads of a round: the page came first, so the client stops without
      the last event. */
  lemma PollingMissesALateCommit() returns (states: seq<State>, steps: seq<Step>)
    ensures IsRun(states, steps) && states[|steps|].fallback.Stopped?
    ensures states[|steps|].log == [Entry(1, "")] && states[|steps|].sealedAt == Some(1)
    ensures states[|steps|].client.events == []
  {
    states, steps := [START], [];
    states, steps := Then(states, steps, FallBack);
    states, steps := Then(states, steps, PollEvents(true));
    states, steps := Then(states, steps, Commit([Entry(1, "")], true));
    states, steps := Then(states, steps, PollStatus(true));
    states, steps := Then(states, steps, PollApply);
  }

  /** In every run, a round that ends with more than a page of sealed events unseen at its start leaves the
      client without some of them, in whatever order it read; and if the status was read as finished, the
      client stops there. */
  lemma PollingMissesBeyondOnePage(states: seq<State>, steps: seq<Step>, i: nat)
    requires IsRun(states, steps) && i < |steps| && steps[i] == PollApply
    requires states[i].sealedAt.Some? && states[i].sealedAt.value > |states[i].client.events| + STREAM_BATCH
    ensures states[i].sealedAt.value <= |states[i].log| == |states[i + 1].log|
    ensures !(states[i].log[..states[i].sealedAt.value] <= states[i + 1].client.events)
    ensures states[i + 1].fallback.Stopped? <==> states[i].fallback.finished == Some(true)
  {
    RunKeepsInv(states, steps, i);
    PageKeeps(states[i]);
    var s, after := states[i], states[i + 1].client.events;
    assert after == s.log[..|after|];
    PrefixIff(s.log, s.sealedAt.value, |after|);
  }

  /** Such runs exist for every long log: it is sealed before polling begins, and the client, which held
      nothing, stops after one page. */
  lemma PollingStopsAfterOnePage(log: seq<Entry>) returns (states: seq<State>, steps: seq<Step>)
    requires Ordered(log) && |log| > STREAM_BATCH
    ensures IsRun(states, steps) && states[|steps|].fallback.Stopped?
    ensures states[|steps|].log == log && states[|steps|].sealedAt == Some(|log|)
    ensures !(log <= states[|steps|].client.events)
  {
    states, steps := PolledOnce(log);
    states, steps := Then(states, steps, PollApply);
    PollingMissesBeyondOnePage(states, steps, 4);
    assert log[..|log|] == log;
  }

  lemma PolledOnce(log: seq<Entry>) returns (states: seq<State>, steps: seq<Step>)
    requires Ordered(log)
    ensures IsRun(states, steps) && |steps| == 4
    ensures states[4] == START.(log := log, sealedAt := Some(|log|),
                                fallback := Polling(Some(true), Some(Fetched(Batch(log, 0), |log|))))
  {
    states, steps := [START], [];
    states, steps := Then(states, steps, Commit(log, true));
    assert [] + log == log;
    states, steps := Then(states, steps, FallBack);
    states, steps := Then(states, steps, PollEvents(true));
    states, steps := Then(states, steps, PollStatus(true));
  }

  // ---- the client always catches up ----

  datatype Trace = Trace(states: seq<State>, steps: seq<Step>)

  ghost predicate IsTrace(t: Trace) {
    IsRun(t.states, t.steps)
  }

  function Now(t: Trace): State
    requires t.states != []
  {
    t.states[|t.states| - 1]
  }

  /** u goes on from t, and nothing more is committed. */
  ghost predicate GoesOn(t: Trace, u: Trace)
    requires t.states != [] && u.states != []
  {
    && t.steps <= u.steps && (forall k :: |t.steps| <= k < |u.steps| ==> !u.steps[k].Commit?)
    && Now(u).log == Now(t).log && Now(u).sealedAt == Now(t).sealedAt
  }

  lemma GoOn(t: Trace, step: Step) returns (u: Trace)
    requires IsTrace(t) && Enabled(Now(t), step) && !step.Commit?
    ensures IsTrace(u) && GoesOn(t, u) && Now(u) == Apply(Now(t), step)
  {
    var states, steps := Then(t.states, t.steps, step);
    u := Trace(states, steps);
  }

  lemma GoesOnFurther(t: Trace, u: Trace, w: Trace)
    requires t.states != [] && u.states != [] && w.states != [] && GoesOn(t, u) && GoesOn(u, w)
    ensures GoesOn(t, w)
  {
    assert forall k :: |t.steps| <= k < |u.steps| ==> w.steps[k] == u.steps[k];
  }

  /** The client listens and has received everything sent. */
  predicate Listening(s: State) {
    s.connection.Some? && s.connection.value.wire == [] && s.fallback.Streaming? && !s.client.done
  }

  lemma TraceInv(t: Trace)
    requires IsTrace(t)
    ensures Inv(Now(t))
  {
    RunKeepsInv(t.states, t.steps, |t.states| - 1);
  }

  /** What is sent entry by entry arrives entry by entry. */
  lemma {:induction false} DeliverBatch(t: Trace) returns (u: Trace)
    requires IsTrace(t) && Listening(Now(t)) && Now(t).connection.value.serving.Sending?
    ensures IsTrace(u) && GoesOn(t, u) && Listening(Now(u))
    ensures Now(u).connection.value.serving == Now(t).connection.value.serving.(batch := [])
    ensures |Now(u).client.events| == |Now(t).client.events| + |Now(t).connection.value.serving.batch|
    decreases |Now(t).connection.value.serving.batch|
  {
    u := t;
    if Now(t).connection.value.serving.batch != [] {
      var sent := GoOn(t, SendNext);
      TraceInv(sent);
      ReceiveKeeps(Now(sent));
      var received := GoOn(sent, Receive);
      GoesOnFurther(t, sent, received);
      u := DeliverBatch(received);
      GoesOnFurther(t, received, u);
    }
  }

  /** One pass of the server's loop: either the end is seen, or 500 more entries are. */
  lemma OnePass(t: Trace) returns (u: Trace)
    requires IsTrace(t) && Listening(Now(t)) && Now(t).connection.value.serving == ReadStatus && Now(t).sealedAt.Some?
    ensures IsTrace(u) && GoesOn(t, u)
    ensures Now(u).client.done
            || (Listening(Now(u)) && Now(u).connection.value.serving == ReadStatus
                && |Now(u).client.events| == |Now(t).client.events| + STREAM_BATCH)
  {
    var asked := GoOn(t, QueryStatus);
    var fetched := GoOn(asked, QueryEvents);
    GoesOnFurther(t, asked, fetched);
    var received := DeliverBatch(fetched);
    GoesOnFurther(t, fetched, received);
    var ended := GoOn(received, EndBatch);
    GoesOnFurther(t, received, ended);
    u := GoOn(ended, if Now(ended).connection.value.serving == Closed then ReceiveEnd else Wake);
    GoesOnFurther(t, ended, u);
  }

  lemma {:induction false} PassAfterPass(t: Trace) returns (u: Trace)
    requires IsTrace(t) && Listening(Now(t)) && Now(t).connection.value.serving == ReadStatus && Now(t).sealedAt.Some?
    ensures IsTrace(u) && GoesOn(t, u) && Now(u).client.done
    decreases |Now(t).log| - |Now(t).client.events|
  {
    TraceInv(t);
    u := OnePass(t);
    if !Now(u).client.done {
      TraceInv(u);
      var w := PassAfterPass(u);
      GoesOnFurther(t, u, w);
      u := w;
    }
  }

  /** Once the run has ended, a client that streams can reach the end of the stream from every reachable
      state, whatever was lost or cut before; and then it holds everything. */
  lemma ClientCanCatchUp(t: Trace) returns (u: Trace)
    requires IsTrace(t) && Now(t).sealedAt.Some? && Now(t).fallback.Streaming? && !Now(t).client.done
    ensures IsTrace(u) && GoesOn(t, u) && Now(u).client.done
    ensures Now(u).sealedAt.value <= |Now(u).log| && Now(u).log[..Now(u).sealedAt.value] <= Now(u).client.events
  {
    var cut := t;
    if Now(t).connection.Some? { cut := GoOn(t, Drop); }
    var resumed := GoOn(cut, Reconnect);
    GoesOnFurther(t, cut, resumed);
    u := PassAfterPass(resumed);
    GoesOnFurther(t, resumed, u);
    EndMeansComplete(u.states, u.steps, |u.states| - 1);
  }

  // ---- the code at both ends ----

  class TimelineView {
    var events: seq<Entry>
    var cursor: nat
    ghost var lastEventId: Option<nat>
    ghost var openedAfter: nat

    function Shown(): seq<Entry>
      reads this
    {
      events
    }

    ghost function Value(): Client
      reads this
    {
      Client(events, cursor, lastEventId, openedAfter, false)
    }

    constructor ()
      ensures Value() == Client([], 0, None, 0, false)
    {
      events, cursor, lastEventId, openedAfter := [], 0, None, 0;
    }

    /** The rows of a polled page; without any the cursor stays. */
    method OnPage(rows: seq<Entry>)
      modifies this
      ensures Value() == AppendPage(old(Value()), Fetched(rows, |rows|))
      ensures events == old(events) + rows && cursor == if rows == [] then old(cursor) else rows[|rows| - 1].id
    {
      if |rows| > 0 {
        cursor := rows[|rows| - 1].id;
        events := events + rows;
      }
    }

    /** A message of the stream; the id guard makes replays harmless. */
    method OnMessage(entry: Entry)
      modifies this
      ensures Value() == Accept(old(Value()), entry)
      ensures events == (if entry.id > old(cursor) then old(events) + [entry] else old(events))
      ensures cursor == (if entry.id > old(cursor) then entry.id else old(cursor)) && lastEventId == Some(entry.id)
    {
      if entry.id > cursor {
        cursor := entry.id;
        events := events + [entry];
      }
      lastEventId := Some(entry.id);
    }
  }

  class EventStream {
    var cursor: nat

    constructor (after: nat, lastEventId: Option<nat>)
      ensures cursor == ResumeAt(Client([], 0, lastEventId, after, false))
      ensures cursor >= after && (lastEventId.Some? ==> cursor >= lastEventId.value)
      ensures cursor == after || lastEventId == Some(cursor)
    {
      cursor := if lastEventId.Some? && lastEventId.value > after then lastEventId.value else after;
    }

    /** One pass of the stream's loop over a log and a status read before it: sends the batch,
        advancing the cursor entry by entry, and says whether to close. */
    method Drain(log: seq<Entry>, terminal: bool) returns (sent: seq<Entry>, close: bool)
      requires Ordered(log)
      modifies this
      ensures sent == Batch(log, old(cursor))
      ensures cursor == if sent == [] then old(cursor) else sent[|sent| - 1].id
      ensures |sent| <= 500 && (close <==> terminal && |sent| < 500)
    {
      var batch := Batch(log, cursor);
      sent := [];
      while |sent| < |batch|
        invariant |sent| <= |batch| && sent == batch[..|sent|]
        invariant cursor == if sent == [] then old(cursor) else sent[|sent| - 1].id
      {
        cursor := batch[|sent|].id;
        sent := sent + [batch[|sent|]];
      }
      close := |batch| < STREAM_BATCH && terminal;
    }
  }

  /** Draining is what the protocol's sending steps add up to: afterwards the cursor stands after
      the batch, and a closing drain has sent all there was. */
  lemma DrainAdvances(log: seq<Entry>, cursor: nat, p: nat)
    requires Ordered(log) && CursorAt(log, cursor, p)
    ensures var batch := Batch(log, cursor);
            CursorAt(log, if batch == [] then cursor else batch[|batch| - 1].id, p + |batch|)
            && batch == log[p..p + |batch|]
            && |batch| == (if |log| - p <= 500 then |log| - p else 500)
  {
    CursorCuts(log, cursor, p);
  }
}
