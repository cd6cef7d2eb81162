/** Unified diffs: their structure, their text, and the numbers in their hunk headers. */
module DiffText {
  import opened Wrappers
  import opened Text

  datatype DiffLine = Context(text: string) | Added(text: string) | Removed(text: string) | NoNewline

  /** One @@ section: where its old and new lines start, how many there are, and its lines. */
  datatype Hunk = Hunk(oldStart: nat, oldCount: nat, newStart: nat, newCount: nat, section: string, lines: seq<DiffLine>)

  /** The text changes of a file: its old name, its path (none when it is deleted) and its hunks. */
  datatype Change = Change(oldName: string, newPath: Option<string>, hunks: seq<Hunk>)

  /** One file of a diff: its extended header lines and, unless it was only renamed, switched in mode or
      is binary, its text changes. */
  datatype FileDiff = FileDiff(extended: seq<string>, change: Option<Change>)

  // ---- Decimal numbers ------------------------------------------------------------------------------

  predicate IsDigit(c: char) {
    '0' <= c <= '9'
  }

  function Digit(n: nat): (c: char)
    requires n < 10
    ensures IsDigit(c) && c as int - '0' as int == n
  {
    '0' + n as char
  }

  function Decimal(n: nat): (s: string)
    ensures s != "" && forall i :: 0 <= i < |s| ==> IsDigit(s[i])
  {
    if n < 10 then [Digit(n)] else Decimal(n / 10) + [Digit(n % 10)]
  }

  function Value(s: string): nat
    requires forall i :: 0 <= i < |s| ==> IsDigit(s[i])
  {
    if s == "" then 0
    else
      assert IsDigit(s[|s| - 1]);
      Value(s[..|s| - 1]) * 10 + (s[|s| - 1] as int - '0' as int)
  }

  lemma {:induction false} ValueOfDecimal(n: nat)
    ensures Value(Decimal(n)) == n
  {
    var s := Decimal(n);
    if n >= 10 {
      ValueOfDecimal(n / 10);
      assert s[..|s| - 1] == Decimal(n / 10);
    } else {
      assert s[..|s| - 1] == "";
    }
  }

  function LeadingDigits(s: string): (n: nat)
    ensures n <= |s| && forall i :: 0 <= i < n ==> IsDigit(s[i])
    ensures n < |s| ==> !IsDigit(s[n])
  {
    if s != "" && IsDigit(s[0]) then 1 + LeadingDigits(s[1..]) else 0
  }

  lemma {:induction false} LeadingDigitsOf(digits: string, rest: string)
    requires forall i :: 0 <= i < |digits| ==> IsDigit(digits[i])
    requires rest != "" ==> !IsDigit(rest[0])
    ensures LeadingDigits(digits + rest) == |digits|
  {
    if digits == "" {
      assert digits + rest == rest;
    } else {
      assert (digits + rest)[1..] == digits[1..] + rest;
      LeadingDigitsOf(digits[1..], rest);
    }
  }

  // ---- Hunk headers ---------------------------------------------------------------------------------

  function RangeText(start: nat, count: nat): string {
    Decimal(start) + if count == 1 then "" else "," + Decimal(count)
  }

  function HunkHeader(h: Hunk): string {
    "@@ -" + RangeText(h.oldStart, h.oldCount) + " +" + RangeText(h.newStart, h.newCount) + " @@" + h.section
  }

  datatype Reading = Reading(value: nat, rest: string)

  /** What follows an optional comma and number. */
  function AfterComma(s: string): string {
    if s == "" || s[0] != ',' then s
    else
      var n := LeadingDigits(s[1..]);
      if n > 0 then s[1..][n..] else s
  }

  /** A number, optionally followed by a comma and another, at the head of a text. */
  function ReadRange(s: string): Option<Reading> {
    var n := LeadingDigits(s);
    if n == 0 then None else Some(Reading(Value(s[..n]), AfterComma(s[n..])))
  }

  /** The new-file start a header line gives; None for any other line. */
  function NewStart(raw: string): Option<nat> {
    if !StartsWith(raw, "@@ -") then None
    else
      var oldRange := ReadRange(raw[4..]);
      if oldRange.None? || !StartsWith(oldRange.value.rest, " +") then None
      else
        var newRange := ReadRange(oldRange.value.rest[2..]);
        if newRange.None? || !StartsWith(newRange.value.rest, " @@") then None else Some(newRange.value.value)
  }

  lemma ReadNumber(n: nat, tail: string)
    requires tail != "" && !IsDigit(tail[0])
    ensures var s, k := Decimal(n) + tail, |Decimal(n)|;
            LeadingDigits(s) == k && s[..k] == Decimal(n) && s[k..] == tail && Value(s[..k]) == n
  {
    ValueOfDecimal(n);
    LeadingDigitsOf(Decimal(n), tail);
    assert (Decimal(n) + tail)[..|Decimal(n)|] == Decimal(n);
  }

  lemma ReadFirst(start: nat, tail: string)
    requires tail != "" && !IsDigit(tail[0])
    ensures ReadRange(Decimal(start) + tail) == Some(Reading(start, AfterComma(tail)))
  {
    ReadNumber(start, tail);
  }

  lemma SkipSecond(count: nat, rest: string)
    requires rest != "" && !IsDigit(rest[0])
    ensures AfterComma("," + (Decimal(count) + rest)) == rest
  {
    ReadNumber(count, rest);
    assert ("," + (Decimal(count) + rest))[1..] == Decimal(count) + rest;
  }

  lemma ReadRangeOf(start: nat, count: nat, rest: string)
    requires rest != "" && rest[0] == ' '
    ensures ReadRange(RangeText(start, count) + rest) == Some(Reading(start, rest))
  {
    if count == 1 {
      assert RangeText(start, count) + rest == Decimal(start) + rest;
      ReadFirst(start, rest);
    } else {
      var tail := "," + (Decimal(count) + rest);
      assert RangeText(start, count) + rest == Decimal(start) + tail;
      ReadFirst(start, tail);
      SkipSecond(count, rest);
    }
  }

  /** The scanners read back the start a printed header carries. */
  lemma HeaderRoundTrip(h: Hunk)
    ensures NewStart(HunkHeader(h)) == Some(h.newStart)
  {
    var raw := HunkHeader(h);
    var tail := " @@" + h.section;
    var middle := " +" + (RangeText(h.newStart, h.newCount) + tail);
    assert raw == "@@ -" + (RangeText(h.oldStart, h.oldCount) + middle);
    assert raw[..4] == "@@ -" && raw[4..] == RangeText(h.oldStart, h.oldCount) + middle;
    ReadRangeOf(h.oldStart, h.oldCount, middle);
    assert middle[..2] == " +" && middle[2..] == RangeText(h.newStart, h.newCount) + tail;
    ReadRangeOf(h.newStart, h.newCount, tail);
    assert tail[..3] == " @@";
  }

  /** A start, and a count unless it is one. */
  predicate IsRange(s: string) {
    var n := LeadingDigits(s);
    0 < n && (n == |s| || (s[n] == ',' && n + 1 < |s| && LeadingDigits(s[n + 1..]) == |s| - n - 1))
  }

  lemma {:induction false} LeadingDigitsCut(s: string)
    ensures LeadingDigits(s[..LeadingDigits(s)]) == LeadingDigits(s)
  {
    var n := LeadingDigits(s);
    LeadingDigitsOf(s[..n], "");
    assert s[..n] + "" == s[..n];
  }

  lemma CutAt(s: string, n: nat)
    requires n <= |s|
    ensures s == s[..n] + s[n..]
  {
  }

  lemma CommaRange(first: string, second: string)
    requires first != "" && second != ""
    requires LeadingDigits(first) == |first| && LeadingDigits(second) == |second|
    ensures IsRange(first + ("," + second)) && LeadingDigits(first + ("," + second)) == |first|
    ensures (first + ("," + second))[..|first|] == first
  {
    LeadingDigitsOf(first, "," + second);
    assert (first + ("," + second))[|first| + 1..] == second;
  }

  /** A range is read off the head of a text, and what is left begins where it ends. */
  lemma ReadRangeMeans(s: string) returns (range: string)
    requires ReadRange(s).Some?
    ensures IsRange(range) && s == range + ReadRange(s).value.rest
    ensures var n := LeadingDigits(range); ReadRange(s).value.value == Value(range[..n])
  {
    var n := LeadingDigits(s);
    var first, after := s[..n], s[n..];
    CutAt(s, n);
    LeadingDigitsCut(s);
    range := first;
    assert first[..n] == first;
    if AfterComma(after) != after {
      var second := SecondNumber(after);
      CommaRange(first, second);
      range := first + ("," + second);
      Regroup(first, "," + second, AfterComma(after));
    }
  }

  lemma SecondNumber(after: string) returns (second: string)
    requires AfterComma(after) != after
    ensures second != "" && LeadingDigits(second) == |second| && after == ("," + second) + AfterComma(after)
  {
    var rest := after[1..];
    var m := LeadingDigits(rest);
    second := rest[..m];
    LeadingDigitsCut(rest);
    CutAt(rest, m);
    CutAt(after, 1);
    Regroup(",", second, rest[m..]);
  }

  /** Only lines of a hunk header's shape are taken for one, and the start is that of the second range. */
  lemma HeadersHaveShape(raw: string) returns (oldRange: string, newRange: string, tail: string)
    requires NewStart(raw).Some?
    ensures IsRange(oldRange) && IsRange(newRange)
    ensures raw == "@@ -" + (oldRange + (" +" + (newRange + (" @@" + tail))))
    ensures var n := LeadingDigits(newRange); NewStart(raw).value == Value(newRange[..n])
  {
    oldRange := ReadRangeMeans(raw[4..]);
    var middle := ReadRange(raw[4..]).value.rest;
    newRange := ReadRangeMeans(middle[2..]);
    var rest := ReadRange(middle[2..]).value.rest;
    tail := rest[3..];
    CutAt(raw, 4);
    CutAt(middle, 2);
    CutAt(rest, 3);
  }

  // ---- Lines of text --------------------------------------------------------------------------------

  /** Where Python's str.splitlines() ends a line. */
  predicate EndsLine(c: char) {
    '\n' <= c <= '\r' || '\U{1C}' <= c <= '\U{1E}' || c == '\U{85}' || c == '\U{2028}' || c == '\U{2029}'
  }

  predicate OneLine(s: string) {
    forall i :: 0 <= i < |s| ==> !EndsLine(s[i])
  }

  function SplitLines(s: string): (lines: seq<string>)
    ensures s != "" ==> lines != []
    ensures forall i :: 0 <= i < |lines| ==> OneLine(lines[i])
    decreases |s|
  {
    if s == "" then []
    else if |s| >= 2 && s[0] == '\r' && s[1] == '\n' then [""] + SplitLines(s[2..])
    else if EndsLine(s[0]) then [""] + SplitLines(s[1..])
    else if s[1..] == "" then [s]
    else
      var rest := SplitLines(s[1..]);
      [[s[0]] + rest[0]] + rest[1..]
  }

  /** Lines as text, each closed by a line feed. */
  function Unlines(lines: seq<string>): string {
    if lines == [] then "" else lines[0] + "\n" + Unlines(lines[1..])
  }

  lemma {:induction false} SplitAtEnd(line: string, end: char, rest: string)
    requires OneLine(line) && EndsLine(end) && end != '\r'
    ensures SplitLines(line + [end] + rest) == [line] + SplitLines(rest)
  {
    var s := line + [end] + rest;
    if line == "" {
      assert s[0] == end && s[1..] == rest;
    } else {
      assert s[0] == line[0] && s[1..] == line[1..] + [end] + rest;
      SplitAtEnd(line[1..], end, rest);
      assert [line[0]] + line[1..] == line;
    }
  }

  /** Splitting undoes joining exactly when no line holds a character that ends a line. */
  lemma {:induction false} SplitUndoesJoinIff(lines: seq<string>)
    ensures SplitLines(Unlines(lines)) == lines <==> forall i :: 0 <= i < |lines| ==> OneLine(lines[i])
  {
    if forall i :: 0 <= i < |lines| ==> OneLine(lines[i]) { SplitOfJoin(lines); }
  }

  lemma {:induction false} SplitOfJoin(lines: seq<string>)
    requires forall i :: 0 <= i < |lines| ==> OneLine(lines[i])
    ensures SplitLines(Unlines(lines)) == lines
  {
    if lines != [] {
      SplitAtEnd(lines[0], '\n', Unlines(lines[1..]));
      SplitOfJoin(lines[1..]);
    }
  }

  // ---- The text of a diff -----------------------------------------------------------------------------

  function RawLine(l: DiffLine): string {
    match l
    case Context(text) => " " + text
    case Added(text) => "+" + text
    case Removed(text) => "-" + text
    case NoNewline => "\\ No newline at end of file"
  }

  /** A line of the diff without the mark of a line of the new file. */
  function Content(raw: string): string {
    if raw != "" && (raw[0] == '+' || raw[0] == ' ') then raw[1..] else raw
  }

  function RawLines(lines: seq<DiffLine>): seq<string> {
    if lines == [] then [] else [RawLine(lines[0])] + RawLines(lines[1..])
  }

  function RawHunks(hunks: seq<Hunk>): seq<string> {
    if hunks == [] then [] else [HunkHeader(hunks[0])] + RawLines(hunks[0].lines) + RawHunks(hunks[1..])
  }

  function NewNameLine(newPath: Option<string>): string {
    if newPath.None? then "+++ /dev/null" else "+++ b/" + newPath.value
  }

  function RawChange(c: Change): seq<string> {
    ["--- " + c.oldName, NewNameLine(c.newPath)] + RawHunks(c.hunks)
  }

  function RawFile(f: FileDiff): seq<string> {
    f.extended + if f.change.None? then [] else RawChange(f.change.value)
  }

  function RawDiff(files: seq<FileDiff>): seq<string> {
    if files == [] then [] else RawFile(files[0]) + RawDiff(files[1..])
  }

  // ---- The path of a file ---------------------------------------------------------------------------

  function BeforeTab(s: string): string {
    if s == "" || s[0] == '\t' then "" else [s[0]] + BeforeTab(s[1..])
  }

  /** What the scanners make of the name on a +++ line. */
  function StripPath(raw: string): string {
    var path := BeforeTab(Strip(raw));
    if StartsWith(path, "a/") || StartsWith(path, "b/") then path[2..] else path
  }

  /** A path the scanners read back: no tab in it and no white space at its end. */
  predicate PlainPath(path: string) {
    '\t' !in path && (path != "" ==> !PythonSpace(path[|path| - 1]))
  }

  /** The path the changed lines of a file stand under. */
  function PathOf(newPath: Option<string>): string {
    if newPath.None? then "/dev/null" else newPath.value
  }

  function HunksOf(f: FileDiff): seq<Hunk> {
    if f.change.None? then [] else f.change.value.hunks
  }

  function FilePath(f: FileDiff): string {
    if f.change.None? then "" else PathOf(f.change.value.newPath)
  }

  lemma {:induction false} BeforeNoTab(s: string)
    requires '\t' !in s
    ensures BeforeTab(s) == s
  {
    if s != "" { BeforeNoTab(s[1..]); }
  }

  lemma PathRoundTrip(path: string)
    requires PlainPath(path)
    ensures StripPath("b/" + path) == path
  {
    var raw := "b/" + path;
    assert raw[0] == 'b' && (path != "" ==> raw[|raw| - 1] == path[|path| - 1]);
    TrimOfTrimmed(raw, PythonSpace);
    BeforeNoTab(raw);
    assert raw[..2] == "b/" && raw[2..] == path;
  }

  /** With an a/ the same; and what follows a tab is no part of the name. */
  lemma OldPathRoundTrip(path: string)
    requires PlainPath(path)
    ensures StripPath("a/" + path) == path
  {
    var raw := "a/" + path;
    assert raw[0] == 'a' && (path != "" ==> raw[|raw| - 1] == path[|path| - 1]);
    TrimOfTrimmed(raw, PythonSpace);
    BeforeNoTab(raw);
    assert raw[..2] == "a/" && raw[2..] == path;
  }

  lemma {:induction false} BeforeTheTab(name: string, tail: string)
    requires '\t' !in name
    ensures BeforeTab(name + "\t" + tail) == name
  {
    if name != "" {
      assert (name + "\t" + tail)[1..] == name[1..] + "\t" + tail;
      BeforeTheTab(name[1..], tail);
    }
  }

  lemma NewNameRoundTrip(newPath: Option<string>)
    requires newPath.Some? ==> PlainPath(newPath.value)
    ensures StartsWith(NewNameLine(newPath), "+++ ") && StripPath(NewNameLine(newPath)[4..]) == PathOf(newPath)
  {
    var raw := NewNameLine(newPath);
    if newPath.Some? {
      assert raw[..4] == "+++ " && raw[4..] == "b/" + newPath.value;
      PathRoundTrip(newPath.value);
    } else {
      assert raw[..4] == "+++ " && raw[4..] == "/dev/null";
      TrimOfTrimmed("/dev/null", PythonSpace);
      BeforeNoTab("/dev/null");
      OtherStart("/dev/null", "a/");
      OtherStart("/dev/null", "b/");
    }
  }

  /** A text that starts with one character does not start with a prefix that starts with another. */
  lemma OtherStart(raw: string, prefix: string)
    requires prefix != "" && (raw == "" || raw[0] != prefix[0])
    ensures !StartsWith(raw, prefix)
  {
    assert |prefix| <= |raw| ==> raw[..|prefix|][0] == raw[0];
  }

  // ---- Walking over lines -----------------------------------------------------------------------------

  function Walk<S>(step: (S, string) -> S, s: S, raws: seq<string>): S
    decreases |raws|
  {
    if raws == [] then s else Walk(step, step(s, raws[0]), raws[1..])
  }

  lemma {:induction false} WalkBoth<S>(step: (S, string) -> S, s: S, a: seq<string>, b: seq<string>)
    ensures Walk(step, s, a + b) == Walk(step, Walk(step, s, a), b)
    decreases |a|
  {
    if a == [] {
      assert a + b == b;
    } else {
      assert (a + b)[1..] == a[1..] + b;
      WalkBoth(step, step(s, a[0]), a[1..], b);
    }
  }

  lemma WalkSingle<S>(step: (S, string) -> S, s: S, raw: string)
    ensures Walk(step, s, [raw]) == step(s, raw)
  {
    assert Walk(step, step(s, raw), [raw][1..]) == step(s, raw);
  }

  lemma WalkOneMore<S>(step: (S, string) -> S, s: S, raws: seq<string>, i: nat)
    requires i < |raws|
    ensures Walk(step, s, raws[..i + 1]) == step(Walk(step, s, raws[..i]), raws[i])
  {
    assert raws[..i + 1] == raws[..i] + [raws[i]];
    WalkBoth(step, s, raws[..i], [raws[i]]);
    WalkSingle(step, Walk(step, s, raws[..i]), raws[i]);
  }

  /** Walking a hunk is reading its header, then its lines, then the rest. */
  lemma WalkHunk<S>(step: (S, string) -> S, s: S, hunks: seq<Hunk>)
    requires hunks != []
    ensures Walk(step, s, RawHunks(hunks)) ==
            Walk(step, Walk(step, step(s, HunkHeader(hunks[0])), RawLines(hunks[0].lines)), RawHunks(hunks[1..]))
  {
    var head, lines, rest := [HunkHeader(hunks[0])], RawLines(hunks[0].lines), RawHunks(hunks[1..]);
    WalkBoth(step, s, head + lines, rest);
    WalkBoth(step, s, head, lines);
    WalkSingle(step, s, HunkHeader(hunks[0]));
  }

  /** Walking a file is passing its extended header lines and then, if its text changed, reading its two
      names and its hunks. */
  lemma WalkFile<S>(step: (S, string) -> S, s: S, files: seq<FileDiff>)
    requires files != []
    ensures var f := files[0];
            var middle := Walk(step, s, f.extended);
            Walk(step, s, RawDiff(files)) ==
            Walk(step, if f.change.None? then middle else WalkedChange(step, middle, f.change.value), RawDiff(files[1..]))
  {
    var f := files[0];
    WalkBoth(step, s, RawFile(f), RawDiff(files[1..]));
    if f.change.None? {
      assert RawFile(f) == f.extended;
    } else {
      WalkBoth(step, s, f.extended, RawChange(f.change.value));
      WalkChange(step, Walk(step, s, f.extended), f.change.value);
    }
  }

  function WalkedChange<S>(step: (S, string) -> S, s: S, c: Change): S {
    Walk(step, step(step(s, "--- " + c.oldName), NewNameLine(c.newPath)), RawHunks(c.hunks))
  }

  lemma WalkChange<S>(step: (S, string) -> S, s: S, c: Change)
    ensures Walk(step, s, RawChange(c)) == WalkedChange(step, s, c)
  {
    var minus, plus := "--- " + c.oldName, NewNameLine(c.newPath);
    assert RawChange(c) == ([minus] + [plus]) + RawHunks(c.hunks);
    WalkBoth(step, s, [minus] + [plus], RawHunks(c.hunks));
    WalkBoth(step, s, [minus], [plus]);
    WalkSingle(step, s, minus);
    WalkSingle(step, step(s, minus), plus);
  }
}
