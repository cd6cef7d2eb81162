/** The text/event-stream framing between the engine and the browser: the printer, the incremental
    parser that may receive the text cut anywhere, and the standard's own line-by-line parser. Text is
    already decoded characters, and data is the already encoded JSON text. */
module Sse {
  import opened Text
  import opened Wrappers

  datatype Event = Event(name: string, data: string)

  const EVENT := "event:"
  const DATA := "data:"
  const BREAK := "\n\n"

  function Print(e: Event): string {
    "event: " + e.name + "\ndata: " + e.data + BREAK
  }

  function PrintAll(events: seq<Event>): string {
    if events == [] then "" else Print(events[0]) + PrintAll(events[1..])
  }

  // ---- The incremental parser ---------------------------------------------------------------

  predicate BreaksAt(s: string, k: int) {
    0 <= k && k + 2 <= |s| && s[k] == '\n' && s[k + 1] == '\n'
  }

  /** Where the first blank line of s begins, or -1. */
  function FirstBreak(s: string): (at: int)
    ensures at == -1 || BreaksAt(s, at)
  {
    if |s| < 2 then -1
    else if BreaksAt(s, 0) then 0
    else
      var rest := FirstBreak(s[1..]);
      if rest == -1 then -1 else rest + 1
  }

  /** No blank line begins before the one found. */
  lemma {:induction false} FirstBreakIsFirst(s: string, k: int)
    requires BreaksAt(s, k)
    ensures 0 <= FirstBreak(s) <= k
  {
    if !BreaksAt(s, 0) { FirstBreakIsFirst(s[1..], k - 1); }
  }

  function Lines(s: string): (lines: seq<string>)
    ensures |lines| >= 1
    ensures forall i :: 0 <= i < |lines| ==> '\n' !in lines[i]
  {
    if s == "" then [""]
    else
      var rest := Lines(s[1..]);
      if s[0] == '\n' then [""] + rest else [[s[0]] + rest[0]] + rest[1..]
  }

  function Clean(text: string): string {
    Trim(text, JavaScriptSpace)
  }

  /** What one more line of a block makes of the event read so far. */
  function WithLine(e: Event, line: string): Event {
    if StartsWith(line, EVENT) then e.(name := Clean(line[|EVENT|..]))
    else if StartsWith(line, DATA) then e.(data := e.data + Clean(line[|DATA|..]))
    else e
  }

  function WithLines(e: Event, lines: seq<string>): Event
    decreases |lines|
  {
    if lines == [] then e else WithLines(WithLine(e, lines[0]), lines[1..])
  }

  const EMPTY_EVENT := Event("message", "")

  function BlockEvents(raw: string): seq<Event> {
    var e := WithLines(EMPTY_EVENT, Lines(raw));
    if e.data != "" then [e] else []
  }

  datatype Progress = Progress(events: seq<Event>, rest: string)

  /** The progress p makes, after these events. */
  function After(events: seq<Event>, p: Progress): Progress {
    Progress(events + p.events, p.rest)
  }

  /** The events of all complete blocks of a buffer, and what is left of it. */
  function Parse(buffer: string): Progress
    decreases |buffer|
  {
    var at := FirstBreak(buffer);
    if at == -1 then Progress([], buffer)
    else After(BlockEvents(buffer[..at]), Parse(buffer[at + 2..]))
  }

  lemma AfterBoth(a: seq<Event>, b: seq<Event>, p: Progress)
    ensures After(a, After(b, p)) == After(a + b, p)
  {
    assert a + (b + p.events) == (a + b) + p.events;
  }

  lemma {:induction false} WithOneMoreLine(e: Event, lines: seq<string>, line: string)
    ensures WithLines(e, lines + [line]) == WithLine(WithLines(e, lines), line)
    decreases |lines|
  {
    if lines == [] {
      assert [] + [line] == [line];
    } else {
      assert (lines + [line])[1..] == lines[1..] + [line];
      WithOneMoreLine(WithLine(e, lines[0]), lines[1..], line);
    }
  }

  /** The values of the data lines of a block, trimmed and joined without anything between them. */
  function DataOf(lines: seq<string>): string {
    if lines == [] then ""
    else (if StartsWith(lines[0], "data:") then Clean(lines[0][5..]) else "") + DataOf(lines[1..])
  }

  lemma {:induction false} DataIsJoined(e: Event, lines: seq<string>)
    ensures WithLines(e, lines).data == e.data + DataOf(lines)
    decreases |lines|
  {
    if lines != [] {
      var line, own := lines[0], WithLine(e, lines[0]);
      if StartsWith(line, EVENT) { assert line[..6][0] == 'e'; OtherLetter(line); }
      DataIsJoined(own, lines[1..]);
      assert own.data + DataOf(lines[1..]) == e.data + DataOf(lines);
    }
  }

  predicate IsLastName(lines: seq<string>, k: nat) {
    k < |lines| && StartsWith(lines[k], "event:") && forall j :: k < j < |lines| ==> !StartsWith(lines[j], "event:")
  }

  predicate NoName(lines: seq<string>) {
    forall j :: 0 <= j < |lines| ==> !StartsWith(lines[j], "event:")
  }

  /** Of several event lines the last one names the event; without any the name stays. */
  lemma {:induction false} LastNameCounts(e: Event, lines: seq<string>, k: nat)
    requires forall j :: k < j < |lines| ==> !StartsWith(lines[j], "event:")
    ensures k < |lines| && StartsWith(lines[k], "event:") ==> WithLines(e, lines).name == Clean(lines[k][6..])
    ensures NoName(lines) ==> WithLines(e, lines).name == e.name
    decreases |lines|
  {
    if lines != [] {
      var n := |lines| - 1;
      assert lines == lines[..n] + [lines[n]];
      WithOneMoreLine(e, lines[..n], lines[n]);
      LastNameCounts(e, lines[..n], if k < n then k else |lines|);
    }
  }

  /** A block yields an event exactly if its data lines have text: their joined values, named by the last
      event line. */
  lemma BlockMeans(raw: string)
    ensures BlockEvents(raw) == [] <==> DataOf(Lines(raw)) == ""
    ensures DataOf(Lines(raw)) != "" ==> |BlockEvents(raw)| == 1 && BlockEvents(raw)[0].data == DataOf(Lines(raw))
    ensures BlockEvents(raw) != [] ==> forall k: nat :: IsLastName(Lines(raw), k) ==>
              BlockEvents(raw)[0].name == Clean(Lines(raw)[k][6..])
    ensures BlockEvents(raw) != [] && NoName(Lines(raw)) ==> BlockEvents(raw)[0].name == "message"
  {
    var lines := Lines(raw);
    DataIsJoined(EMPTY_EVENT, lines);
    assert "" + DataOf(lines) == DataOf(lines);
    LastNameCounts(EMPTY_EVENT, lines, |lines|);
    forall k: nat | IsLastName(lines, k)
      ensures WithLines(EMPTY_EVENT, lines).name == Clean(lines[k][6..])
    {
      LastNameCounts(EMPTY_EVENT, lines, k);
    }
  }

  class Parser {
    var buffer: string

    constructor ()
      ensures buffer == ""
    {
      buffer := "";
    }

    /** Takes the next chunk of the body and yields the events it completes. */
    method Feed(chunk: string) returns (events: seq<Event>)
      modifies this
      ensures Progress(events, buffer) == Parse(old(buffer) + chunk)
    {
      buffer := buffer + chunk;
      events := [];
      AfterNothing(Parse(buffer));
      var at := FirstBreak(buffer);
      while at != -1
        invariant at == FirstBreak(buffer)
        invariant After(events, Parse(buffer)) == Parse(old(buffer) + chunk)
        decreases |buffer|
      {
        ParseStep(events, buffer);
        var own := ReadBlock(buffer[..at]);
        buffer := buffer[at + 2..];
        events := events + own;
        at := FirstBreak(buffer);
      }
      assert events + [] == events;
    }

    /** The event of one block, if it carries data. */
    static method ReadBlock(raw: string) returns (events: seq<Event>)
      ensures events == BlockEvents(raw)
    {
      var lines := Lines(raw);
      var e := EMPTY_EVENT;
      for i := 0 to |lines|
        invariant e == WithLines(EMPTY_EVENT, lines[..i])
      {
        WithOneMoreLine(EMPTY_EVENT, lines[..i], lines[i]);
        assert lines[..i + 1] == lines[..i] + [lines[i]];
        if StartsWith(lines[i], EVENT) {
          e := e.(name := Clean(lines[i][|EVENT|..]));
        } else if StartsWith(lines[i], DATA) {
          e := e.(data := e.data + Clean(lines[i][|DATA|..]));
        }
      }
      assert lines[..|lines|] == lines;
      events := if e.data != "" then [e] else [];
    }
  }

  lemma AfterNothing(p: Progress)
    ensures After([], p) == p
  {
  }

  lemma ParseStep(events: seq<Event>, buffer: string)
    requires FirstBreak(buffer) != -1
    ensures var at := FirstBreak(buffer);
            After(events, Parse(buffer)) == After(events + BlockEvents(buffer[..at]), Parse(buffer[at + 2..]))
  {
    var at := FirstBreak(buffer);
    AfterBoth(events, BlockEvents(buffer[..at]), Parse(buffer[at + 2..]));
  }

  // ---- However the text is cut ----------------------------------------------------------------

  /** Text to the right of a blank line does not move it. */
  lemma BreakStays(a: string, b: string)
    requires FirstBreak(a) != -1
    ensures FirstBreak(a + b) == FirstBreak(a)
    ensures (a + b)[..FirstBreak(a)] == a[..FirstBreak(a)]
    ensures (a + b)[FirstBreak(a) + 2..] == a[FirstBreak(a) + 2..] + b
  {
    var at := FirstBreak(a);
    FirstBreakIsFirst(a + b, at);
    FirstBreakIsFirst(a, FirstBreak(a + b));
  }

  /** Parsing what is left over together with the next text is parsing the whole text. */
  lemma {:induction false} ParseResumes(a: string, b: string)
    ensures Parse(a + b) == After(Parse(a).events, Parse(Parse(a).rest + b))
    decreases |a|
  {
    var at := FirstBreak(a);
    if at != -1 {
      BreakStays(a, b);
      var rest := Parse(a[at + 2..]);
      ParseResumes(a[at + 2..], b);
      AfterBoth(BlockEvents(a[..at]), rest.events, Parse(rest.rest + b));
    }
  }

  /** What a parser holding this buffer yields over a series of chunks. */
  function FeedAll(buffer: string, chunks: seq<string>): Progress
    decreases |chunks|
  {
    if chunks == [] then Progress([], buffer)
    else
      var now := Parse(buffer + chunks[0]);
      After(now.events, FeedAll(now.rest, chunks[1..]))
  }

  function Concat(chunks: seq<string>): string {
    if chunks == [] then "" else chunks[0] + Concat(chunks[1..])
  }

  lemma {:induction false} RestHoldsNoBlock(s: string)
    ensures FirstBreak(Parse(s).rest) == -1
    decreases |s|
  {
    var at := FirstBreak(s);
    if at != -1 { RestHoldsNoBlock(s[at + 2..]); }
  }

  /** The events, and the leftover, do not depend on where the stream was cut. */
  lemma {:induction false} ChunkingIsInvisible(buffer: string, chunks: seq<string>)
    requires FirstBreak(buffer) == -1
    ensures FeedAll(buffer, chunks) == Parse(buffer + Concat(chunks))
    decreases |chunks|
  {
    if chunks == [] {
      assert buffer + Concat(chunks) == buffer;
    } else {
      var text, later := buffer + chunks[0], Concat(chunks[1..]);
      RestHoldsNoBlock(text);
      ChunkingIsInvisible(Parse(text).rest, chunks[1..]);
      ParseResumes(text, later);
      Regroup(buffer, chunks[0], later);
    }
  }

  // ---- Round trip -----------------------------------------------------------------------------

  /** An event whose name and data survive the framing. */
  predicate Printable(e: Event) {
    && '\n' !in e.name && Trimmed(e.name, JavaScriptSpace)
    && '\n' !in e.data && Trimmed(e.data, JavaScriptSpace) && e.data != ""
  }

  lemma {:induction false} OneLine(s: string)
    requires '\n' !in s
    ensures Lines(s) == [s]
  {
    if s != "" {
      OneLine(s[1..]);
      assert [s[0]] + s[1..] == s;
    }
  }

  lemma {:induction false} LinesOfJoin(a: string, b: string)
    ensures Lines(a + "\n" + b) == Lines(a) + Lines(b)
  {
    var s := a + "\n" + b;
    if a == "" {
      assert s[1..] == b;
    } else {
      assert s[1..] == a[1..] + "\n" + b;
      LinesOfJoin(a[1..], b);
    }
  }

  function Raw(e: Event): string {
    "event: " + e.name + "\n" + ("data: " + e.data)
  }

  lemma PrintedLines(e: Event)
    requires Printable(e)
    ensures Lines(Raw(e)) == ["event: " + e.name, "data: " + e.data]
  {
    var first, second := "event: " + e.name, "data: " + e.data;
    LinesOfJoin(first, second);
    OneLine(first);
    OneLine(second);
  }

  lemma NameLine(e: Event, name: string)
    requires Trimmed(name, JavaScriptSpace)
    ensures WithLine(e, "event: " + name) == e.(name := name)
  {
    var line := "event: " + name;
    assert line[..|EVENT|] == EVENT && line[|EVENT|..] == " " + name;
    TrimDropsOneSpace(name, JavaScriptSpace);
  }

  lemma DataLine(e: Event, data: string)
    requires Trimmed(data, JavaScriptSpace)
    ensures WithLine(e, "data: " + data) == e.(data := e.data + data)
  {
    var line := "data: " + data;
    assert line[0] != EVENT[0];
    assert line[..|DATA|] == DATA && line[|DATA|..] == " " + data;
    TrimDropsOneSpace(data, JavaScriptSpace);
  }

  lemma WithTwoLines(e: Event, a: string, b: string)
    ensures WithLines(e, [a, b]) == WithLine(WithLine(e, a), b)
  {
    WithOneMoreLine(e, [a], b);
    WithOneMoreLine(e, [], a);
    assert [a] + [b] == [a, b] && [] + [a] == [a];
  }

  lemma PrintedBlock(e: Event)
    requires Printable(e)
    ensures BlockEvents(Raw(e)) == [e]
  {
    var first, second := "event: " + e.name, "data: " + e.data;
    PrintedLines(e);
    NameLine(EMPTY_EVENT, e.name);
    DataLine(Event(e.name, ""), e.data);
    WithTwoLines(EMPTY_EVENT, first, second);
    assert "" + e.data == e.data;
    assert WithLines(EMPTY_EVENT, Lines(Raw(e))) == e;
  }

  lemma NoEarlierBreak(e: Event, rest: string, k: int)
    requires Printable(e) && BreaksAt(Print(e) + rest, k)
    ensures k >= |Raw(e)|
  {
    var s, cut := Print(e) + rest, |"event: " + e.name|;
    assert s[cut + 1] == 'd';
    assert forall j :: 0 <= j < |Raw(e)| && s[j] == '\n' ==> j == cut;
  }

  lemma PrintedBreak(e: Event, rest: string)
    requires Printable(e)
    ensures FirstBreak(Print(e) + rest) == |Raw(e)|
    ensures (Print(e) + rest)[..|Raw(e)|] == Raw(e) && (Print(e) + rest)[|Raw(e)| + 2..] == rest
  {
    var s := Print(e) + rest;
    assert Print(e) == Raw(e) + BREAK;
    FirstBreakIsFirst(s, |Raw(e)|);
    NoEarlierBreak(e, rest, FirstBreak(s));
  }

  /** Printing any list of printable events and parsing the text gives the list back, with nothing
      left over. */
  lemma {:induction false} RoundTrip(events: seq<Event>)
    requires forall e :: e in events ==> Printable(e)
    ensures Parse(PrintAll(events)) == Progress(events, "")
  {
    if events != [] {
      PrintedBreak(events[0], PrintAll(events[1..]));
      PrintedBlock(events[0]);
      RoundTrip(events[1..]);
      assert events == [events[0]] + events[1..];
    }
  }

  lemma {:induction false} BlockIsPrintable(e: Event, lines: seq<string>)
    requires '\n' !in e.name && Trimmed(e.name, JavaScriptSpace)
    requires '\n' !in e.data && Trimmed(e.data, JavaScriptSpace)
    requires forall i :: 0 <= i < |lines| ==> '\n' !in lines[i]
    ensures WithLines(e, lines).data != "" ==> Printable(WithLines(e, lines))
    decreases |lines|
  {
    if lines != [] {
      var line := lines[0];
      if StartsWith(line, EVENT) { TrimKeepsOnlyInk(line[|EVENT|..], JavaScriptSpace); }
      if StartsWith(line, DATA) { TrimKeepsOnlyInk(line[|DATA|..], JavaScriptSpace); }
      BlockIsPrintable(WithLine(e, line), lines[1..]);
    }
  }

  /** Whatever text arrives, every event the parser yields is printable. */
  lemma {:induction false} ParsedEventsArePrintable(s: string)
    ensures forall e :: e in Parse(s).events ==> Printable(e)
    decreases |s|
  {
    var at := FirstBreak(s);
    if at != -1 {
      BlockIsPrintable(EMPTY_EVENT, Lines(s[..at]));
      ParsedEventsArePrintable(s[at + 2..]);
    }
  }

  /** So printable events are exactly the ones that survive a round trip. */
  lemma RoundTripIffPrintable(e: Event)
    ensures Parse(Print(e)) == Progress([e], "") <==> Printable(e)
  {
    assert PrintAll([e]) == Print(e) by {
      assert [e][1..] == [];
      assert Print(e) + "" == Print(e);
    }
    if Printable(e) { RoundTrip([e]); }
    ParsedEventsArePrintable(Print(e));
    assert Parse(Print(e)).events == [e] ==> e in Parse(Print(e)).events;
  }

  // ---- The standard's own parser ----------------------------------------------------------------

  /** Section 9.2.6 of the WHATWG HTML Living Standard: the event type buffer and the data buffer. */
  datatype Buffers = Buffers(kind: string, data: string)

  const NO_BUFFERS := Buffers("", "")

  function FirstColon(line: string): (at: int)
    ensures at == -1 || (0 <= at < |line| && line[at] == ':')
    ensures ':' !in line[..if at == -1 then |line| else at]
  {
    if line == "" then -1
    else if line[0] == ':' then 0
    else
      var rest := FirstColon(line[1..]);
      if rest == -1 then -1 else rest + 1
  }

  function WithoutOneSpace(value: string): string {
    if value != "" && value[0] == ' ' then value[1..] else value
  }

  function ProcessField(b: Buffers, field: string, value: string): Buffers {
    if field == "event" then b.(kind := value)
    else if field == "data" then b.(data := b.data + value + "\n")
    else b
  }

  function ProcessLine(b: Buffers, line: string): Buffers {
    var at := FirstColon(line);
    if at == 0 then b
    else if at == -1 then ProcessField(b, line, "")
    else ProcessField(b, line[..at], WithoutOneSpace(line[at + 1..]))
  }

  function Dispatch(b: Buffers): seq<Event> {
    if b.data == "" then []
    else [Event(if b.kind == "" then "message" else b.kind, b.data[..|b.data| - 1])]
  }

  /** The events dispatched while these lines are processed in order. */
  function Interpret(b: Buffers, lines: seq<string>): seq<Event>
    decreases |lines|
  {
    if lines == [] then []
    else if lines[0] == "" then Dispatch(b) + Interpret(NO_BUFFERS, lines[1..])
    else Interpret(ProcessLine(b, lines[0]), lines[1..])
  }

  /** The lines of s that a line end closes; the last one is still open. */
  function ClosedLines(s: string): seq<string> {
    Lines(s)[..|Lines(s)| - 1]
  }

  predicate IsEvent(line: string) { StartsWith(line, EVENT) }

  predicate IsData(line: string) { StartsWith(line, DATA) }

  /** A line both parsers read the same way: its value, if it has one, is not empty and is separated
      from the colon by at most one space, and no field name stands without a colon. */
  predicate Plain(line: string) {
    var v := if IsEvent(line) then line[|EVENT|..] else if IsData(line) then line[|DATA|..] else "x";
    Clean(v) == WithoutOneSpace(v) != "" && line != "event" && line != "data"
  }

  /** Plain lines with at most one data line between two empty ones. */
  predicate Tidy(lines: seq<string>, seen: bool)
    decreases |lines|
  {
    lines == [] ||
    (Plain(lines[0]) && !(seen && IsData(lines[0]))
     && Tidy(lines[1..], lines[0] != "" && (seen || IsData(lines[0]))))
  }

  /** The standard's buffers and the event under construction agree. */
  predicate Agree(b: Buffers, e: Event) {
    && e.name == (if b.kind == "" then "message" else b.kind)
    && b.data == (if e.data == "" then "" else e.data + "\n")
  }

  lemma {:induction false} FirstColonAfter(field: string, value: string)
    requires ':' !in field
    ensures FirstColon(field + ":" + value) == |field|
  {
    var line := field + ":" + value;
    if field == "" {
      assert line[0] == ':';
    } else {
      assert line[0] == field[0] && line[1..] == field[1..] + ":" + value;
      FirstColonAfter(field[1..], value);
    }
  }

  lemma NamedLine(line: string, field: string)
    requires ':' !in field && StartsWith(line, field + ":")
    ensures FirstColon(line) == |field| && line[..|field|] == field
    ensures line[|field| + 1..] == line[|field + ":"|..]
  {
    var value := line[|field + ":"|..];
    assert line == field + ":" + value;
    FirstColonAfter(field, value);
  }

  lemma ProcessNamed(b: Buffers, line: string, field: string)
    requires field != "" && ':' !in field && StartsWith(line, field + ":")
    ensures ProcessLine(b, line) == ProcessField(b, field, WithoutOneSpace(line[|field + ":"|..]))
  {
    NamedLine(line, field);
  }

  lemma ProcessOther(b: Buffers, line: string)
    requires !IsEvent(line) && !IsData(line) && line != "event" && line != "data"
    ensures ProcessLine(b, line) == b
  {
    var at := FirstColon(line);
    if at > 0 {
      assert line == line[..at] + ":" + line[at + 1..];
      assert line[..at] == "event" ==> IsEvent(line);
      assert line[..at] == "data" ==> IsData(line);
    }
  }

  /** One plain line keeps the two parsers in agreement. */
  lemma PlainLineAgrees(b: Buffers, e: Event, line: string)
    requires Agree(b, e) && Plain(line) && line != "" && (IsData(line) ==> e.data == "")
    ensures Agree(ProcessLine(b, line), WithLine(e, line))
    ensures WithLine(e, line).data != "" <==> e.data != "" || IsData(line)
  {
    if IsEvent(line) {
      ProcessNamed(b, line, "event");
      assert !IsData(line) by { assert line[0] == line[..|EVENT|][0] == 'e'; OtherLetter(line); }
    } else if IsData(line) {
      ProcessNamed(b, line, "data");
    } else {
      ProcessOther(b, line);
    }
  }

  lemma OtherLetter(line: string)
    requires line != "" && line[0] == 'e'
    ensures !IsData(line)
  {
    assert |line| >= |DATA| ==> line[..|DATA|][0] == 'e';
  }

  /** Lines with text in them, except that the first may be empty when nothing was read yet. */
  predicate OneBlock(b: Buffers, e: Event, lines: seq<string>) {
    && (forall i :: 0 < i < |lines| ==> lines[i] != "")
    && (lines != [] && lines[0] == "" ==> b == NO_BUFFERS && e == EMPTY_EVENT)
  }

  /** Lines the standard reads without dispatching anything. */
  function Read(b: Buffers, lines: seq<string>): Buffers
    decreases |lines|
  {
    if lines == [] then b
    else if lines[0] == "" then Read(NO_BUFFERS, lines[1..])
    else Read(ProcessLine(b, lines[0]), lines[1..])
  }

  lemma {:induction false} BlockAgrees(b: Buffers, e: Event, lines: seq<string>)
    requires Agree(b, e) && OneBlock(b, e, lines) && Tidy(lines, e.data != "")
    ensures Agree(Read(b, lines), WithLines(e, lines))
    decreases |lines|
  {
    if lines != [] {
      var line, rest := lines[0], lines[1..];
      if line != "" {
        PlainLineAgrees(b, e, line);
        BlockAgrees(ProcessLine(b, line), WithLine(e, line), rest);
      } else {
        assert WithLine(e, "") == e;
        BlockAgrees(b, e, rest);
      }
    }
  }

  lemma {:induction false} BlockIsSilent(b: Buffers, lines: seq<string>, later: seq<string>)
    requires forall i :: 0 < i < |lines| ==> lines[i] != ""
    requires lines != [] && lines[0] == "" ==> b == NO_BUFFERS
    ensures Interpret(b, lines + later) == Interpret(Read(b, lines), later)
    decreases |lines|
  {
    if lines == [] {
      assert lines + later == later;
    } else {
      assert (lines + later)[1..] == lines[1..] + later;
      BlockIsSilent(if lines[0] == "" then b else ProcessLine(b, lines[0]), lines[1..], later);
    }
  }

  lemma {:induction false} TidyParts(a: seq<string>, c: seq<string>, seen: bool)
    requires Tidy(a + [""] + c, seen)
    ensures Tidy(a, seen) && Tidy(c, false)
    decreases |a|
  {
    var all := a + [""] + c;
    if a == [] {
      assert all[0] == "" && all[1..] == c;
    } else {
      assert all[0] == a[0] && all[1..] == a[1..] + [""] + c;
      TidyParts(a[1..], c, a[0] != "" && (seen || IsData(a[0])));
    }
  }

  lemma {:induction false} InnerLinesHaveText(s: string, i: nat)
    requires forall k :: !BreaksAt(s, k)
    requires 0 < i < |Lines(s)| - 1
    ensures Lines(s)[i] != ""
  {
    if s[0] == '\n' {
      assert !BreaksAt(s, 0);
      if i > 1 { NoBreakLater(s); InnerLinesHaveText(s[1..], i - 1); }
    } else {
      NoBreakLater(s);
      InnerLinesHaveText(s[1..], i);
    }
  }

  lemma NoBreakLater(s: string)
    requires s != "" && forall k :: !BreaksAt(s, k)
    ensures forall k :: !BreaksAt(s[1..], k)
  {
    forall k | BreaksAt(s[1..], k)
      ensures false
    {
      assert BreaksAt(s, k + 1);
    }
  }

  lemma DropLast(a: seq<string>, b: seq<string>)
    requires b != []
    ensures (a + b)[..|a + b| - 1] == a + b[..|b| - 1]
  {
  }

  lemma LinesOfBlock(raw: string, rest: string)
    ensures Lines(raw + "\n" + ("\n" + rest)) == (Lines(raw) + [""]) + Lines(rest)
  {
    LinesOfJoin(raw, "\n" + rest);
    assert ("\n" + rest)[1..] == rest && Lines("\n" + rest) == [""] + Lines(rest);
  }

  /** A complete block, seen by lines: its own, an empty one, and those of the text after it. */
  lemma BlockLines(s: string)
    requires FirstBreak(s) != -1
    ensures var at := FirstBreak(s);
            ClosedLines(s) == Lines(s[..at]) + [""] + ClosedLines(s[at + 2..])
  {
    var at := FirstBreak(s);
    var raw, rest := s[..at], s[at + 2..];
    assert s == raw + "\n" + ("\n" + rest);
    LinesOfBlock(raw, rest);
    DropLast(Lines(raw) + [""], Lines(rest));
  }

  lemma NoBreakInBlock(s: string, k: int)
    requires FirstBreak(s) != -1
    ensures !BreaksAt(s[..FirstBreak(s)] + "\n", k)
  {
    var closed := s[..FirstBreak(s)] + "\n";
    if BreaksAt(closed, k) {
      assert closed == s[..|closed|];
      FirstBreakIsFirst(s, k);
    }
  }

  lemma BlockLinesHaveText(s: string)
    requires FirstBreak(s) != -1
    ensures forall i :: 0 < i < |Lines(s[..FirstBreak(s)])| ==> Lines(s[..FirstBreak(s)])[i] != ""
  {
    var raw := s[..FirstBreak(s)];
    var closed := raw + "\n";
    LinesOfJoin(raw, "");
    assert closed + "" == closed;
    forall k
      ensures !BreaksAt(closed, k)
    {
      NoBreakInBlock(s, k);
    }
    forall i | 0 < i < |Lines(raw)|
      ensures Lines(raw)[i] != ""
    {
      InnerLinesHaveText(closed, i);
    }
  }

  lemma BlockInterprets(raw: string, later: seq<string>)
    requires Tidy(Lines(raw), false) && forall i :: 0 < i < |Lines(raw)| ==> Lines(raw)[i] != ""
    ensures Interpret(NO_BUFFERS, Lines(raw) + [""] + later) == BlockEvents(raw) + Interpret(NO_BUFFERS, later)
  {
    var lines := Lines(raw);
    BlockAgrees(NO_BUFFERS, EMPTY_EVENT, lines);
    assert lines + [""] + later == lines + ([""] + later);
    BlockIsSilent(NO_BUFFERS, lines, [""] + later);
    DispatchAgrees(Read(NO_BUFFERS, lines), WithLines(EMPTY_EVENT, lines), later);
  }

  /** On tidy text the incremental parser yields what the standard's line-by-line parser dispatches. */
  lemma {:induction false} StandardAgrees(s: string)
    requires Tidy(ClosedLines(s), false)
    ensures Parse(s).events == Interpret(NO_BUFFERS, ClosedLines(s))
    decreases |s|
  {
    var at := FirstBreak(s);
    if at == -1 {
      UnclosedTextIsSilent(s);
    } else {
      BlockLines(s);
      BlockLinesHaveText(s);
      TidyParts(Lines(s[..at]), ClosedLines(s[at + 2..]), false);
      BlockInterprets(s[..at], ClosedLines(s[at + 2..]));
      StandardAgrees(s[at + 2..]);
    }
  }

  lemma DispatchAgrees(b: Buffers, e: Event, later: seq<string>)
    requires Agree(b, e)
    ensures Interpret(b, [""] + later) == (if e.data != "" then [e] else []) + Interpret(NO_BUFFERS, later)
  {
    assert ([""] + later)[1..] == later;
    if e.data != "" { assert b.data[..|b.data| - 1] == e.data; }
  }

  lemma UnclosedTextIsSilent(s: string)
    requires FirstBreak(s) == -1
    ensures Interpret(NO_BUFFERS, ClosedLines(s)) == []
  {
    var lines := ClosedLines(s);
    forall k
      ensures !BreaksAt(s, k)
    {
      if BreaksAt(s, k) { FirstBreakIsFirst(s, k); }
    }
    forall i | 0 < i < |lines|
      ensures lines[i] != ""
    {
      InnerLinesHaveText(s, i);
    }
    BlockIsSilent(NO_BUFFERS, lines, []);
    assert lines + [] == lines;
  }

  lemma NameLineIsPlain(name: string)
    requires Trimmed(name, JavaScriptSpace) && name != ""
    ensures Plain("event: " + name) && !IsData("event: " + name)
  {
    var line := "event: " + name;
    TrimDropsOneSpace(name, JavaScriptSpace);
    assert line[..|EVENT|] == EVENT && line[|EVENT|..] == " " + name;
    assert (" " + name)[1..] == name;
    OtherLetter(line);
  }

  lemma DataLineIsPlain(data: string)
    requires Trimmed(data, JavaScriptSpace) && data != ""
    ensures Plain("data: " + data) && IsData("data: " + data)
  {
    var line := "data: " + data;
    TrimDropsOneSpace(data, JavaScriptSpace);
    assert line[0] != EVENT[0];
    assert line[..|DATA|] == DATA && line[|DATA|..] == " " + data;
    assert (" " + data)[1..] == data;
  }

  lemma TidyOfThree(a: string, b: string, later: seq<string>)
    requires Plain(a) && Plain(b) && !IsData(a) && a != "" && Tidy(later, false)
    ensures Tidy([a, b, ""] + later, false)
  {
    assert Plain("") && Tidy([""] + later, true) && Tidy([""] + later, false) by {
      assert ([""] + later)[1..] == later;
    }
    assert ([b, ""] + later)[1..] == [""] + later;
    assert Tidy([b, ""] + later, false);
    assert ([a, b, ""] + later)[1..] == [b, ""] + later;
  }

  lemma PrintedLinesAreTidy(e: Event, later: seq<string>)
    requires Printable(e) && e.name != "" && Tidy(later, false)
    ensures Tidy(["event: " + e.name, "data: " + e.data, ""] + later, false)
  {
    NameLineIsPlain(e.name);
    DataLineIsPlain(e.data);
    TidyOfThree("event: " + e.name, "data: " + e.data, later);
  }

  lemma {:induction false} PrintedTextIsTidy(events: seq<Event>)
    requires forall e :: e in events ==> Printable(e) && e.name != ""
    ensures Tidy(ClosedLines(PrintAll(events)), false)
  {
    if events != [] {
      var e, rest := events[0], PrintAll(events[1..]);
      PrintedBreak(e, rest);
      BlockLines(Print(e) + rest);
      PrintedLines(e);
      PrintedTextIsTidy(events[1..]);
      PrintedLinesAreTidy(e, ClosedLines(rest));
      assert ["event: " + e.name, "data: " + e.data] + [""] == ["event: " + e.name, "data: " + e.data, ""];
    }
  }

  /** A client that implements the standard reads the same list back from the printed text. */
  lemma StandardReadsPrintedEvents(events: seq<Event>)
    requires forall e :: e in events ==> Printable(e) && e.name != ""
    ensures Interpret(NO_BUFFERS, ClosedLines(PrintAll(events))) == events
  {
    PrintedTextIsTidy(events);
    StandardAgrees(PrintAll(events));
    RoundTrip(events);
  }
}
