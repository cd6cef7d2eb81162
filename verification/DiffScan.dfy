/** The secrets scanner's walk over a diff: which added lines it looks at, and where it says they are. */
module DiffScan {
  import opened Wrappers
  import opened Text
  import opened DiffText

  /** An added line with the path and the new-file line number it is reported under. */
  datatype Place = Place(path: string, line: nat, text: string)

  datatype State = State(path: string, newLine: nat, found: seq<Place>)

  const START := State("", 0, [])

  predicate IsFileLine(raw: string) {
    StartsWith(raw, "--- ") || StartsWith(raw, "diff --git") || StartsWith(raw, "index ")
    || StartsWith(raw, "old mode") || StartsWith(raw, "new mode")
  }

  /** What one line of the diff does to the scanner. */
  function Step(s: State, raw: string): State {
    if StartsWith(raw, "+++ ") then s.(path := StripPath(raw[4..]))
    else if IsFileLine(raw) then s
    else if NewStart(raw).Some? then s.(newLine := NewStart(raw).value)
    else if StartsWith(raw, "+") then State(s.path, s.newLine + 1, s.found + [Place(s.path, s.newLine, raw[1..])])
    else if StartsWith(raw, "-") then s
    else s.(newLine := s.newLine + 1)
  }

  /** Where an added line is, without its text. */
  datatype Spot = Spot(path: string, line: nat)

  function Spots(places: seq<Place>): (spots: seq<Spot>)
    ensures |spots| == |places| && forall i :: 0 <= i < |places| ==> spots[i] == Spot(places[i].path, places[i].line)
  {
    if places == [] then [] else [Spot(places[0].path, places[0].line)] + Spots(places[1..])
  }

  function Scan(raws: seq<string>): State {
    Walk(Step, START, raws)
  }

  datatype Finding = Finding(rule: string, path: string, line: nat, redacted: string)

  /** The rules: what they find on one line of text at a place. */
  type Rules = (string, string, nat) -> Option<Finding>

  function FindingsAt(rules: Rules, places: seq<Place>): seq<Finding> {
    if places == [] then []
    else
      var n := |places| - 1;
      var p := places[n];
      var finding := rules(p.text, p.path, p.line);
      FindingsAt(rules, places[..n]) + if finding.Some? then [finding.value] else []
  }

  /** Part by part and place by place, in order. */
  lemma {:induction false} FindingsInOrder(rules: Rules, a: seq<Place>, b: seq<Place>, p: Place)
    ensures FindingsAt(rules, a + b) == FindingsAt(rules, a) + FindingsAt(rules, b) && FindingsAt(rules, []) == []
    ensures FindingsAt(rules, [p]) ==
            if rules(p.text, p.path, p.line).Some? then [rules(p.text, p.path, p.line).value] else []
    decreases |b|
  {
    assert [p][..0] == [];
    if b == [] {
      assert a + b == a;
    } else {
      var n := |b| - 1;
      assert (a + b)[..|a + b| - 1] == a + b[..n];
      FindingsInOrder(rules, a, b[..n], p);
    }
  }

  /** The findings of the places the walk visits, in order. */
  method ScanDiff(diff: string, rules: Rules) returns (findings: seq<Finding>)
    ensures findings == FindingsAt(rules, Scan(SplitLines(diff)).found)
  {
    findings := [];
    var path, newLine := "", 0;
    var raws := SplitLines(diff);
    ghost var s := START;
    var i := 0;
    while i < |raws|
      invariant i <= |raws| && s == Walk(Step, START, raws[..i])
      invariant s.path == path && s.newLine == newLine && findings == FindingsAt(rules, s.found)
    {
      var raw := raws[i];
      WalkOneMore(Step, START, raws, i);
      s := Step(s, raw);
      i := i + 1;
      if StartsWith(raw, "+++ ") {
        path := StripPath(raw[4..]);
        continue;
      }
      if IsFileLine(raw) { continue; }
      var hunk := NewStart(raw);
      if hunk.Some? {
        newLine := hunk.value;
        continue;
      }
      if StartsWith(raw, "+") {
        var finding := rules(raw[1..], path, newLine);
        if finding.Some? { findings := findings + [finding.value]; }
        newLine := newLine + 1;
      } else if StartsWith(raw, "-") {
        continue;
      } else {
        newLine := newLine + 1;
      }
    }
    assert raws[..i] == raws;
  }

  // ---- The true places ----------------------------------------------------------------------------

  /** The added lines of a hunk where they stand in the new file, when its next new line is this one. */
  function AddedLines(path: string, line: nat, lines: seq<DiffLine>): seq<Place>
    decreases |lines|
  {
    if lines == [] then []
    else match lines[0]
      case Context(_) => AddedLines(path, line + 1, lines[1..])
      case Added(text) => [Place(path, line, text)] + AddedLines(path, line + 1, lines[1..])
      case Removed(_) => AddedLines(path, line, lines[1..])
      case NoNewline => AddedLines(path, line, lines[1..])
  }

  function AddedInHunks(path: string, hunks: seq<Hunk>): seq<Place> {
    if hunks == [] then [] else AddedLines(path, hunks[0].newStart, hunks[0].lines) + AddedInHunks(path, hunks[1..])
  }

  function AddedInDiff(files: seq<FileDiff>): seq<Place> {
    if files == [] then [] else AddedInHunks(FilePath(files[0]), HunksOf(files[0])) + AddedInDiff(files[1..])
  }

  /** The lines a hunk leaves in the new file. */
  function NewSide(lines: seq<DiffLine>): seq<string> {
    if lines == [] then []
    else match lines[0]
      case Context(text) => [text] + NewSide(lines[1..])
      case Added(text) => [text] + NewSide(lines[1..])
      case Removed(_) => NewSide(lines[1..])
      case NoNewline => NewSide(lines[1..])
  }

  /** The hunk's new side is what stands in the new file from this line on, if it has any. */
  predicate StandsIn(newFile: seq<string>, line: nat, lines: seq<DiffLine>) {
    NewSide(lines) == []
    || (1 <= line && line - 1 + |NewSide(lines)| <= |newFile|
        && newFile[line - 1..line - 1 + |NewSide(lines)|] == NewSide(lines))
  }

  lemma StandsInRest(newFile: seq<string>, line: nat, lines: seq<DiffLine>)
    requires lines != [] && StandsIn(newFile, line, lines)
    ensures var shown := lines[0].Context? || lines[0].Added?;
            && StandsIn(newFile, if shown then line + 1 else line, lines[1..])
            && (shown ==> 1 <= line <= |newFile| && newFile[line - 1] == lines[0].text)
  {
    var side, rest := NewSide(lines), NewSide(lines[1..]);
    if lines[0].Context? || lines[0].Added? {
      assert side[0] == newFile[line - 1] && side[1..] == rest;
      assert newFile[line..line + |rest|] == rest;
    }
  }

  /** The places are true: at each of them the new file has that text. */
  lemma {:induction false} AddedLinesStand(path: string, newFile: seq<string>, line: nat, lines: seq<DiffLine>)
    requires StandsIn(newFile, line, lines)
    ensures forall p :: p in AddedLines(path, line, lines) ==>
              p.path == path && 1 <= p.line <= |newFile| && newFile[p.line - 1] == p.text
    decreases |lines|
  {
    if lines != [] {
      StandsInRest(newFile, line, lines);
      AddedLinesStand(path, newFile, if lines[0].Context? || lines[0].Added? then line + 1 else line, lines[1..]);
    }
  }

  // ---- When the walk is right -------------------------------------------------------------------------

  /** The added line is printed as a file header: its text starts with "++ ". */
  predicate LooksLikeHeader(l: DiffLine) {
    l.Added? && StartsWith(l.text, "++ ")
  }

  /** No added line looks like a header, and none comes after a "no newline" marker of its hunk. */
  predicate Countable(lines: seq<DiffLine>, marked: bool) {
    lines == []
    || (!LooksLikeHeader(lines[0]) && !(marked && lines[0].Added?)
        && Countable(lines[1..], marked || lines[0].NoNewline?))
  }

  predicate CountableHunks(hunks: seq<Hunk>) {
    forall i :: 0 <= i < |hunks| ==> Countable(hunks[i].lines, false)
  }

  predicate CountableDiff(files: seq<FileDiff>) {
    forall i :: 0 <= i < |files| ==> CountableHunks(HunksOf(files[i]))
  }

  /** Names and extended header lines the walk passes over: a plain path or none, and no extended header
      line that starts with a plus. */
  predicate Named(f: FileDiff) {
    && (f.change.Some? ==> NamedChange(f.change.value))
    && forall i :: 0 <= i < |f.extended| ==> !StartsWith(f.extended[i], "+")
  }

  predicate NamedChange(c: Change) {
    c.newPath.Some? ==> PlainPath(c.newPath.value)
  }

  /** The places the walk visits in a hunk without header-like lines: the marker is counted as a line. */
  function Visited(path: string, line: nat, lines: seq<DiffLine>): seq<Place>
    decreases |lines|
  {
    if lines == [] then []
    else match lines[0]
      case Context(_) => Visited(path, line + 1, lines[1..])
      case Added(text) => [Place(path, line, text)] + Visited(path, line + 1, lines[1..])
      case Removed(_) => Visited(path, line, lines[1..])
      case NoNewline => Visited(path, line + 1, lines[1..])
  }

  function VisitedInHunks(path: string, hunks: seq<Hunk>): seq<Place> {
    if hunks == [] then [] else Visited(path, hunks[0].newStart, hunks[0].lines) + VisitedInHunks(path, hunks[1..])
  }

  function VisitedInDiff(files: seq<FileDiff>): seq<Place> {
    if files == [] then [] else VisitedInHunks(FilePath(files[0]), HunksOf(files[0])) + VisitedInDiff(files[1..])
  }

  predicate Headerless(lines: seq<DiffLine>) {
    forall i :: 0 <= i < |lines| ==> !LooksLikeHeader(lines[i])
  }

  predicate HeaderlessHunks(hunks: seq<Hunk>) {
    forall i :: 0 <= i < |hunks| ==> Headerless(hunks[i].lines)
  }

  predicate HeaderlessDiff(files: seq<FileDiff>) {
    forall i :: 0 <= i < |files| ==> HeaderlessHunks(HunksOf(files[i]))
  }

  /** What a diff line that does not look like a header does to the scanner. */
  function Effect(s: State, l: DiffLine): State {
    match l
    case Context(_) => s.(newLine := s.newLine + 1)
    case Added(text) => State(s.path, s.newLine + 1, s.found + [Place(s.path, s.newLine, text)])
    case Removed(_) => s
    case NoNewline => s.(newLine := s.newLine + 1)
  }

  lemma HeaderLikeText(text: string)
    ensures StartsWith("+" + text, "+++ ") <==> StartsWith(text, "++ ")
  {
    var raw := "+" + text;
    assert "+++ "[1..] == "++ ";
    if |raw| >= 4 { assert raw[..4] == "+" + text[..3] && raw[..4][1..] == text[..3]; }
  }

  lemma StepOfAdded(s: State, text: string)
    ensures StartsWith(text, "++ ") ==> Step(s, "+" + text).found == s.found
    ensures !StartsWith(text, "++ ") ==> Step(s, "+" + text) == Effect(s, Added(text))
  {
    var raw := "+" + text;
    assert raw[1..] == text && raw[..1] == "+";
    HeaderLikeText(text);
    NotAFileLine(raw);
    OtherStart(raw, "@@ -");
  }

  lemma NotAFileLine(raw: string)
    requires raw == "" || raw[0] !in "-dion"
    ensures !IsFileLine(raw)
  {
    OtherStart(raw, "--- ");
    OtherStart(raw, "diff --git");
    OtherStart(raw, "index ");
    OtherStart(raw, "old mode");
    OtherStart(raw, "new mode");
  }

  lemma StepOfOther(s: State, l: DiffLine)
    requires !l.Added?
    ensures Step(s, RawLine(l)) == Effect(s, l)
  {
    var raw := RawLine(l);
    OtherStart(raw, "+++ ");
    OtherStart(raw, "+");
    OtherStart(raw, "@@ -");
    if l.Removed? {
      assert raw[..1] == "-";
    } else {
      NotAFileLine(raw);
      OtherStart(raw, "-");
    }
  }

  lemma HeaderIsHeader(h: Hunk)
    ensures !StartsWith(HunkHeader(h), "+++ ") && !IsFileLine(HunkHeader(h))
    ensures NewStart(HunkHeader(h)) == Some(h.newStart)
  {
    var raw := HunkHeader(h);
    HeaderRoundTrip(h);
    assert raw[0] == '@';
    OtherStart(raw, "+++ ");
    NotAFileLine(raw);
  }

  lemma StepOfHeader(s: State, h: Hunk)
    ensures Step(s, HunkHeader(h)) == s.(newLine := h.newStart)
  {
    HeaderIsHeader(h);
  }

  lemma StepOfNames(s: State, c: Change)
    requires NamedChange(c)
    ensures Step(s, "--- " + c.oldName) == s
    ensures Step(s, NewNameLine(c.newPath)) == s.(path := PathOf(c.newPath))
  {
    var minus := "--- " + c.oldName;
    assert minus[..4] == "--- ";
    OtherStart(minus, "+++ ");
    NewNameRoundTrip(c.newPath);
  }

  lemma StepOfExtended(s: State, raw: string)
    requires !StartsWith(raw, "+")
    ensures Step(s, raw).found == s.found
  {
    if raw != "" { assert raw[..1] == [raw[0]]; }
    OtherStart(raw, "+++ ");
  }

  /** What the walk needs to know of a step: enough to follow it over a printed diff. */
  ghost predicate Follows(step: (State, string) -> State) {
    && (forall s, l :: LooksLikeHeader(l) ==> step(s, RawLine(l)).found == s.found)
    && (forall s, l :: !LooksLikeHeader(l) ==> step(s, RawLine(l)) == Effect(s, l))
    && (forall s, h :: step(s, HunkHeader(h)) == s.(newLine := h.newStart))
    && (forall s, c: Change :: NamedChange(c) ==> Renamed(step, s, c))
    && (forall s, raw :: !StartsWith(raw, "+") ==> step(s, raw).found == s.found)
  }

  predicate Renamed(step: (State, string) -> State, s: State, c: Change) {
    step(step(s, "--- " + c.oldName), NewNameLine(c.newPath)) == s.(path := PathOf(c.newPath))
  }

  lemma StepFollows()
    ensures Follows(Step)
  {
    forall s, l
      ensures LooksLikeHeader(l) ==> Step(s, RawLine(l)).found == s.found
      ensures !LooksLikeHeader(l) ==> Step(s, RawLine(l)) == Effect(s, l)
    {
      if l.Added? { StepOfAdded(s, l.text); } else { StepOfOther(s, l); }
    }
    forall s, h
      ensures Step(s, HunkHeader(h)) == s.(newLine := h.newStart)
    {
      StepOfHeader(s, h);
    }
    forall s, c: Change | NamedChange(c)
      ensures Renamed(Step, s, c)
    {
      StepOfNames(s, c);
    }
    forall s, raw | !StartsWith(raw, "+")
      ensures Step(s, raw).found == s.found
    {
      StepOfExtended(s, raw);
    }
  }

  lemma {:induction false} HunkIsVisited(step: (State, string) -> State, s: State, lines: seq<DiffLine>)
    requires Follows(step) && Headerless(lines)
    ensures Walk(step, s, RawLines(lines)).path == s.path
    ensures Walk(step, s, RawLines(lines)).found == s.found + Visited(s.path, s.newLine, lines)
    decreases |lines|
  {
    if lines != [] {
      var next := Effect(s, lines[0]);
      assert step(s, RawLine(lines[0])) == next;
      assert RawLines(lines)[1..] == RawLines(lines[1..]);
      HunkIsVisited(step, next, lines[1..]);
      EffectIsVisited(s, lines);
    }
  }

  lemma EffectIsVisited(s: State, lines: seq<DiffLine>)
    requires lines != []
    ensures var next := Effect(s, lines[0]);
            && next.path == s.path
            && s.found + Visited(s.path, s.newLine, lines) == next.found + Visited(s.path, next.newLine, lines[1..])
  {
    if lines[0].Added? {
      var here, rest := [Place(s.path, s.newLine, lines[0].text)], Visited(s.path, s.newLine + 1, lines[1..]);
      assert Visited(s.path, s.newLine, lines) == here + rest;
      Regroup(s.found, here, rest);
    }
  }

  lemma {:induction false} HunksAreVisited(step: (State, string) -> State, s: State, hunks: seq<Hunk>)
    requires Follows(step) && HeaderlessHunks(hunks)
    ensures Walk(step, s, RawHunks(hunks)).found == s.found + VisitedInHunks(s.path, hunks)
    decreases |hunks|
  {
    if hunks != [] {
      var start := s.(newLine := hunks[0].newStart);
      assert step(s, HunkHeader(hunks[0])) == start;
      WalkHunk(step, s, hunks);
      HunkIsVisited(step, start, hunks[0].lines);
      HunksAreVisited(step, Walk(step, start, RawLines(hunks[0].lines)), hunks[1..]);
      Regroup(s.found, Visited(s.path, hunks[0].newStart, hunks[0].lines), VisitedInHunks(s.path, hunks[1..]));
    }
  }

  lemma {:induction false} ExtendedIsPassed(step: (State, string) -> State, s: State, extended: seq<string>)
    requires Follows(step) && forall i :: 0 <= i < |extended| ==> !StartsWith(extended[i], "+")
    ensures Walk(step, s, extended).found == s.found
    decreases |extended|
  {
    if extended != [] { ExtendedIsPassed(step, step(s, extended[0]), extended[1..]); }
  }

  /** At the first hunk of a file the walk has the file's path and has found nothing since. */
  lemma FileStart(step: (State, string) -> State, s: State, files: seq<FileDiff>) returns (start: State)
    requires Follows(step) && files != [] && Named(files[0])
    ensures start.found == s.found && (files[0].change.Some? ==> start.path == FilePath(files[0]))
    ensures Walk(step, s, RawDiff(files)) ==
            Walk(step, Walk(step, start, RawHunks(HunksOf(files[0]))), RawDiff(files[1..]))
  {
    var f := files[0];
    start := Walk(step, s, f.extended);
    ExtendedIsPassed(step, s, f.extended);
    WalkFile(step, s, files);
    if f.change.Some? {
      assert Renamed(step, start, f.change.value);
      start := start.(path := PathOf(f.change.value.newPath));
    }
  }

  lemma FileIsVisited(step: (State, string) -> State, s: State, files: seq<FileDiff>) returns (mid: State)
    requires Follows(step) && files != [] && Named(files[0]) && HeaderlessHunks(HunksOf(files[0]))
    ensures mid.found == s.found + VisitedInHunks(FilePath(files[0]), HunksOf(files[0]))
    ensures Walk(step, s, RawDiff(files)) == Walk(step, mid, RawDiff(files[1..]))
  {
    var start := FileStart(step, s, files);
    HunksAreVisited(step, start, HunksOf(files[0]));
    mid := Walk(step, start, RawHunks(HunksOf(files[0])));
  }

  lemma {:induction false} DiffIsVisited(step: (State, string) -> State, s: State, files: seq<FileDiff>)
    requires Follows(step) && HeaderlessDiff(files) && forall i :: 0 <= i < |files| ==> Named(files[i])
    ensures Walk(step, s, RawDiff(files)).found == s.found + VisitedInDiff(files)
    decreases |files|
  {
    if files != [] {
      var mid := FileIsVisited(step, s, files);
      DiffIsVisited(step, mid, files[1..]);
      Regroup(s.found, VisitedInHunks(FilePath(files[0]), HunksOf(files[0])), VisitedInDiff(files[1..]));
    }
  }

  // ---- A line that looks like a header is missed -------------------------------------------------------

  function AddedCount(lines: seq<DiffLine>): nat {
    if lines == [] then 0 else (if lines[0].Added? then 1 else 0) + AddedCount(lines[1..])
  }

  function HunksCount(hunks: seq<Hunk>): nat {
    if hunks == [] then 0 else AddedCount(hunks[0].lines) + HunksCount(hunks[1..])
  }

  function DiffCount(files: seq<FileDiff>): nat {
    if files == [] then 0 else HunksCount(HunksOf(files[0])) + DiffCount(files[1..])
  }

  lemma {:induction false} HunkMisses(step: (State, string) -> State, s: State, lines: seq<DiffLine>)
    requires Follows(step)
    ensures |Walk(step, s, RawLines(lines)).found| <= |s.found| + AddedCount(lines)
    ensures !Headerless(lines) ==> |Walk(step, s, RawLines(lines)).found| < |s.found| + AddedCount(lines)
    decreases |lines|
  {
    if lines != [] {
      var next := step(s, RawLine(lines[0]));
      assert RawLines(lines)[1..] == RawLines(lines[1..]);
      if !LooksLikeHeader(lines[0]) { assert next == Effect(s, lines[0]); }
      HunkMisses(step, next, lines[1..]);
    }
  }

  lemma HeaderlessFirstHunk(hunks: seq<Hunk>)
    requires hunks != []
    ensures Headerless(hunks[0].lines) && HeaderlessHunks(hunks[1..]) ==> HeaderlessHunks(hunks)
  {
    assert forall i :: 0 < i < |hunks| ==> hunks[i] == hunks[1..][i - 1];
  }

  lemma HeaderlessFirstFile(files: seq<FileDiff>)
    requires files != []
    ensures HeaderlessHunks(HunksOf(files[0])) && HeaderlessDiff(files[1..]) ==> HeaderlessDiff(files)
  {
    assert forall i :: 0 < i < |files| ==> files[i] == files[1..][i - 1];
  }

  lemma {:induction false} HunksMiss(step: (State, string) -> State, s: State, hunks: seq<Hunk>)
    requires Follows(step)
    ensures |Walk(step, s, RawHunks(hunks)).found| <= |s.found| + HunksCount(hunks)
    ensures !HeaderlessHunks(hunks) ==> |Walk(step, s, RawHunks(hunks)).found| < |s.found| + HunksCount(hunks)
    decreases |hunks|
  {
    if hunks != [] {
      var start := s.(newLine := hunks[0].newStart);
      assert step(s, HunkHeader(hunks[0])) == start;
      WalkHunk(step, s, hunks);
      HunkMisses(step, start, hunks[0].lines);
      HunksMiss(step, Walk(step, start, RawLines(hunks[0].lines)), hunks[1..]);
      HeaderlessFirstHunk(hunks);
    }
  }

  lemma {:induction false} DiffMisses(step: (State, string) -> State, s: State, files: seq<FileDiff>)
    requires Follows(step) && forall i :: 0 <= i < |files| ==> Named(files[i])
    ensures |Walk(step, s, RawDiff(files)).found| <= |s.found| + DiffCount(files)
    ensures !HeaderlessDiff(files) ==> |Walk(step, s, RawDiff(files)).found| < |s.found| + DiffCount(files)
    decreases |files|
  {
    if files != [] {
      var start := FileStart(step, s, files);
      HunksMiss(step, start, HunksOf(files[0]));
      DiffMisses(step, Walk(step, start, RawHunks(HunksOf(files[0]))), files[1..]);
      HeaderlessFirstFile(files);
    }
  }

  // ---- Visited places against true places ---------------------------------------------------------------

  lemma {:induction false} CountOfLines(path: string, line: nat, lines: seq<DiffLine>)
    ensures |Visited(path, line, lines)| == AddedCount(lines)
    ensures |AddedLines(path, line, lines)| == AddedCount(lines)
    decreases |lines|
  {
    if lines != [] {
      CountOfLines(path, line, lines[1..]);
      CountOfLines(path, line + 1, lines[1..]);
    }
  }

  /** Ahead of the true line number by the markers passed, the walk is right exactly if nothing is added
      any more. */
  lemma {:induction false} VisitedIsTrueIff(path: string, line: nat, ahead: nat, lines: seq<DiffLine>)
    requires Headerless(lines)
    ensures Visited(path, line + ahead, lines) == AddedLines(path, line, lines) <==> Countable(lines, ahead > 0)
    decreases |lines|
  {
    if lines != [] {
      match lines[0]
      case Context(_) => VisitedIsTrueIff(path, line + 1, ahead, lines[1..]);
      case Added(_) =>
        VisitedIsTrueIff(path, line + 1, ahead, lines[1..]);
        var v, t := Visited(path, line + ahead, lines), AddedLines(path, line, lines);
        assert v[1..] == Visited(path, line + 1 + ahead, lines[1..]) && t[1..] == AddedLines(path, line + 1, lines[1..]);
        assert v == [v[0]] + v[1..] && t == [t[0]] + t[1..];
      case Removed(_) => VisitedIsTrueIff(path, line, ahead, lines[1..]);
      case NoNewline => VisitedIsTrueIff(path, line, ahead + 1, lines[1..]);
    }
  }

  lemma SamePieces(a: seq<Place>, b: seq<Place>, x: seq<Place>, y: seq<Place>)
    requires |a| == |b|
    ensures a + x == b + y <==> a == b && x == y
  {
    if a + x == b + y {
      assert a == (a + x)[..|a|] && b == (b + y)[..|b|];
      assert x == (a + x)[|a|..] && y == (b + y)[|b|..];
    }
  }

  lemma {:induction false} HunksAreTrueIff(path: string, hunks: seq<Hunk>)
    requires HeaderlessHunks(hunks)
    ensures |VisitedInHunks(path, hunks)| == |AddedInHunks(path, hunks)| == HunksCount(hunks)
    ensures VisitedInHunks(path, hunks) == AddedInHunks(path, hunks) <==> CountableHunks(hunks)
  {
    if hunks != [] {
      var h := hunks[0];
      HunksAreTrueIff(path, hunks[1..]);
      VisitedIsTrueIff(path, h.newStart, 0, h.lines);
      CountOfLines(path, h.newStart, h.lines);
      SamePieces(Visited(path, h.newStart, h.lines), AddedLines(path, h.newStart, h.lines),
                 VisitedInHunks(path, hunks[1..]), AddedInHunks(path, hunks[1..]));
      assert CountableHunks(hunks) <==> Countable(h.lines, false) && CountableHunks(hunks[1..]);
    }
  }

  lemma {:induction false} DiffIsTrueIff(files: seq<FileDiff>)
    requires HeaderlessDiff(files)
    ensures VisitedInDiff(files) == AddedInDiff(files) <==> CountableDiff(files)
  {
    if files != [] {
      var f := files[0];
      DiffIsTrueIff(files[1..]);
      HunksAreTrueIff(FilePath(f), HunksOf(f));
      SamePieces(VisitedInHunks(FilePath(f), HunksOf(f)), AddedInHunks(FilePath(f), HunksOf(f)),
                 VisitedInDiff(files[1..]), AddedInDiff(files[1..]));
      assert CountableDiff(files) <==> CountableHunks(HunksOf(f)) && CountableDiff(files[1..]);
    }
  }

  lemma {:induction false} CountOfHunks(path: string, hunks: seq<Hunk>)
    ensures |AddedInHunks(path, hunks)| == HunksCount(hunks)
  {
    if hunks != [] {
      CountOfLines(path, hunks[0].newStart, hunks[0].lines);
      CountOfHunks(path, hunks[1..]);
    }
  }

  lemma {:induction false} CountOfDiff(files: seq<FileDiff>)
    ensures |AddedInDiff(files)| == DiffCount(files)
  {
    if files != [] {
      CountOfHunks(FilePath(files[0]), HunksOf(files[0]));
      CountOfDiff(files[1..]);
    }
  }

  lemma {:induction false} CountableIsHeaderless(lines: seq<DiffLine>, marked: bool)
    requires Countable(lines, marked)
    ensures Headerless(lines)
  {
    if lines != [] {
      CountableIsHeaderless(lines[1..], marked || lines[0].NoNewline?);
      assert forall i :: 0 < i < |lines| ==> lines[i] == lines[1..][i - 1];
    }
  }

  lemma CountableDiffIsHeaderless(files: seq<FileDiff>)
    requires CountableDiff(files)
    ensures HeaderlessDiff(files)
  {
    forall i, j | 0 <= i < |files| && 0 <= j < |HunksOf(files[i])|
      ensures Headerless(HunksOf(files[i])[j].lines)
    {
      assert CountableHunks(HunksOf(files[i]));
      CountableIsHeaderless(HunksOf(files[i])[j].lines, false);
    }
  }

  predicate SameTexts(a: seq<Place>, b: seq<Place>) {
    |a| == |b| && forall i :: 0 <= i < |a| ==> a[i].text == b[i].text
  }

  lemma {:induction false} LinesSameTexts(path: string, at: nat, line: nat, lines: seq<DiffLine>)
    ensures SameTexts(Visited(path, at, lines), AddedLines(path, line, lines))
    decreases |lines|
  {
    if lines != [] {
      match lines[0]
      case Context(_) => LinesSameTexts(path, at + 1, line + 1, lines[1..]);
      case Added(_) => LinesSameTexts(path, at + 1, line + 1, lines[1..]);
      case Removed(_) => LinesSameTexts(path, at, line, lines[1..]);
      case NoNewline => LinesSameTexts(path, at + 1, line, lines[1..]);
    }
  }

  lemma {:induction false} HunksSameTexts(path: string, hunks: seq<Hunk>)
    ensures SameTexts(VisitedInHunks(path, hunks), AddedInHunks(path, hunks))
  {
    if hunks != [] {
      LinesSameTexts(path, hunks[0].newStart, hunks[0].newStart, hunks[0].lines);
      HunksSameTexts(path, hunks[1..]);
    }
  }

  lemma {:induction false} DiffSameTexts(files: seq<FileDiff>)
    ensures SameTexts(VisitedInDiff(files), AddedInDiff(files))
  {
    if files != [] {
      HunksSameTexts(FilePath(files[0]), HunksOf(files[0]));
      DiffSameTexts(files[1..]);
    }
  }

  /** With the same texts, the same spots make the same places. */
  lemma SpotsDecide(a: seq<Place>, b: seq<Place>)
    requires SameTexts(a, b)
    ensures Spots(a) == Spots(b) <==> a == b
  {
    if Spots(a) == Spots(b) {
      forall i | 0 <= i < |a|
        ensures a[i] == b[i]
      {
        assert Spots(a)[i] == Spots(b)[i];
      }
    }
  }

  /** Over a printed diff the scanner looks at every added line exactly once, in order, under its true path
      and new-file line number, exactly when no added text starts with "++ " and no line is added after a
      "no newline" marker of its hunk; otherwise not even the paths and numbers are right. */
  lemma PlacesAreTrueIff(files: seq<FileDiff>)
    requires forall i :: 0 <= i < |files| ==> Named(files[i])
    ensures Scan(RawDiff(files)).found == AddedInDiff(files) <==> CountableDiff(files)
    ensures Spots(Scan(RawDiff(files)).found) == Spots(AddedInDiff(files)) <==> CountableDiff(files)
  {
    StepFollows();
    if HeaderlessDiff(files) {
      DiffIsVisited(Step, START, files);
      assert [] + VisitedInDiff(files) == VisitedInDiff(files);
      DiffIsTrueIff(files);
      DiffSameTexts(files);
      SpotsDecide(VisitedInDiff(files), AddedInDiff(files));
    } else {
      DiffMisses(Step, START, files);
      CountOfDiff(files);
      if CountableDiff(files) {
        CountableDiffIsHeaderless(files);
      }
    }
  }

  lemma UnlinesOfTwo(a: string, b: string)
    ensures Unlines([a, b]) == a + "\n" + (b + "\n")
  {
    assert [a, b][1..] == [b] && [b][1..] == [];
    assert Unlines([b]) == b + "\n" + "";
    assert b + "\n" + "" == b + "\n";
  }

  lemma FormFeedSplits(left: string, right: string, added: string)
    requires OneLine(left) && OneLine(right) && OneLine(added)
    ensures SplitLines(Unlines([left + "\U{0C}" + right, added])) == [left, right, added]
  {
    var rest := added + "\n";
    var middle := right + "\n" + rest;
    UnlinesOfTwo(left + "\U{0C}" + right, added);
    assert left + "\U{0C}" + right + "\n" + rest == left + "\U{0C}" + middle;
    SplitAtEnd(left, '\U{0C}', middle);
    SplitAtEnd(right, '\n', rest);
    SplitAtEnd(added, '\n', "");
    assert rest + "" == rest;
  }

  /** A form feed in an unchanged line is enough to misplace what follows: the line is split in two and,
      unless the second half happens to look like something else, both halves are counted. */
  lemma FormFeedMisplaces(s: State, before: string, after: string, text: string)
    requires OneLine(before) && OneLine(after) && OneLine(text) && !StartsWith(text, "++ ")
    requires after != "" && after[0] !in "-dion+@"
    ensures AddedLines(s.path, s.newLine, [Context(before + "\U{0C}" + after), Added(text)]) ==
            [Place(s.path, s.newLine + 1, text)]
    ensures Walk(Step, s, SplitLines(Unlines([(" " + before) + "\U{0C}" + after, "+" + text]))).found ==
            s.found + [Place(s.path, s.newLine + 2, text)]
  {
    var lines := [Context(before + "\U{0C}" + after), Added(text)];
    assert lines[1..] == [Added(text)] && [Added(text)][1..] == [];
    assert AddedLines(s.path, s.newLine + 2, []) == [];
    var first := " " + before;
    FormFeedSplits(first, after, "+" + text);
    WalkThree(Step, s, first, after, "+" + text);
    PlainStep(s, first);
    PlainStep(s.(newLine := s.newLine + 1), after);
    StepOfAdded(s.(newLine := s.newLine + 2), text);
  }

  lemma WalkThree(step: (State, string) -> State, s: State, a: string, b: string, c: string)
    ensures Walk(step, s, [a, b, c]) == step(step(step(s, a), b), c)
  {
    assert [a, b, c] == [a] + ([b] + [c]);
    WalkBoth(step, s, [a], [b] + [c]);
    WalkBoth(step, step(s, a), [b], [c]);
    WalkSingle(step, s, a);
    WalkSingle(step, step(s, a), b);
    WalkSingle(step, step(step(s, a), b), c);
  }

  lemma PlainStep(s: State, raw: string)
    requires raw != "" && raw[0] !in "-dion+@"
    ensures Step(s, raw) == s.(newLine := s.newLine + 1)
  {
    OtherStart(raw, "+++ ");
    NotAFileLine(raw);
    OtherStart(raw, "@@ -");
    OtherStart(raw, "+");
    OtherStart(raw, "-");
  }
}
