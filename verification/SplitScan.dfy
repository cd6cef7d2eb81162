/** The scanners on a diff as one text: they split the text themselves, at more characters than the line
    feeds that end the diff's lines. */
module SplitScan {
  import opened Wrappers
  import opened Text
  import opened DiffText
  import opened DiffScan

  // ---- What a line of the diff is split into ---------------------------------------------------------

  function Pieces(raw: string): (pieces: seq<string>)
    ensures pieces != []
  {
    SplitLines(raw + "\n")
  }

  /** The part a scanner sees at the head of the line, and the parts it takes for further lines. */
  function Cut(text: string): string {
    Pieces(text)[0]
  }

  function Rest(text: string): seq<string> {
    Pieces(text)[1..]
  }

  function AllPieces(raws: seq<string>): seq<string> {
    if raws == [] then [] else Pieces(raws[0]) + AllPieces(raws[1..])
  }

  lemma {:induction false} SplitAtFeed(a: string, b: string)
    ensures SplitLines(a + "\n" + b) == Pieces(a) + SplitLines(b)
    decreases |a|
  {
    var s, t := a + "\n" + b, a + "\n";
    if a == "" {
      assert s[0] == '\n' && s[1..] == b && t[1..] == "";
      assert SplitLines("") == [];
    } else if a == "\r" {
      assert s[0] == t[0] == '\r' && s[1] == t[1] == '\n';
      assert s[2..] == b && t[2..] == "";
      assert SplitLines("") == [];
    } else if a[0] == '\r' && s[1] == '\n' {
      var rest := a[2..];
      assert s[2..] == rest + "\n" + b && t[2..] == rest + "\n";
      SplitAtFeed(rest, b);
      Regroup([""], Pieces(rest), SplitLines(b));
    } else {
      var rest := a[1..];
      assert s[1..] == rest + "\n" + b && t[1..] == rest + "\n";
      SplitAtFeed(rest, b);
      FirstCharacter(s, t, SplitLines(b));
    }
  }

  /** One more character at the head of two texts, of which the first splits into more lines. */
  lemma FirstCharacter(s: string, t: string, more: seq<string>)
    requires |s| > 1 && |t| > 1 && s[0] == t[0] && s[1] == t[1] && !(s[0] == '\r' && s[1] == '\n')
    requires SplitLines(s[1..]) == SplitLines(t[1..]) + more
    ensures SplitLines(s) == SplitLines(t) + more
  {
    var rest := SplitLines(t[1..]);
    if EndsLine(s[0]) {
      Regroup([""], rest, more);
    } else {
      assert (rest + more)[0] == rest[0] && (rest + more)[1..] == rest[1..] + more;
      Regroup([[s[0]] + rest[0]], rest[1..], more);
    }
  }

  /** Splitting the text of a diff splits each of its lines. */
  lemma {:induction false} SplitOfUnlines(raws: seq<string>)
    ensures SplitLines(Unlines(raws)) == AllPieces(raws)
  {
    if raws != [] {
      SplitAtFeed(raws[0], Unlines(raws[1..]));
      SplitOfUnlines(raws[1..]);
    }
  }

  lemma {:induction false} AllPiecesBoth(a: seq<string>, b: seq<string>)
    ensures AllPieces(a + b) == AllPieces(a) + AllPieces(b)
    decreases |a|
  {
    if a == [] {
      assert a + b == b;
    } else {
      assert (a + b)[1..] == a[1..] + b;
      AllPiecesBoth(a[1..], b);
    }
  }

  /** What stands before a text without ending a line stays with its first part. */
  lemma {:induction false} PiecesAfter(prefix: string, text: string)
    requires OneLine(prefix)
    ensures Pieces(prefix + text) == [prefix + Cut(text)] + Rest(text)
    decreases |prefix|
  {
    var s := prefix + text + "\n";
    if prefix == "" {
      assert prefix + text == text && "" + Cut(text) == Cut(text);
    } else {
      assert s[1..] == (prefix[1..] + text) + "\n" && s[0] == prefix[0];
      PiecesAfter(prefix[1..], text);
      assert [prefix[0]] + (prefix[1..] + Cut(text)) == prefix + Cut(text);
    }
  }

  lemma PiecesOfOneLine(raw: string)
    requires OneLine(raw)
    ensures Pieces(raw) == [raw]
  {
    SplitAtEnd(raw, '\n', "");
    assert raw + ['\n'] + "" == raw + "\n";
  }

  /** The carriage return of a CRLF file is not split off: the line feed after it closes the same line. */
  lemma {:induction false} CarriageReturnIsSafe(text: string)
    requires OneLine(text)
    ensures Cut(text + "\r") == text && Rest(text + "\r") == []
  {
    var s := text + "\r" + "\n";
    if text == "" {
      assert s[0] == '\r' && s[1] == '\n' && s[2..] == "";
      assert SplitLines("") == [];
    } else {
      assert s[1..] == (text[1..] + "\r") + "\n";
      CarriageReturnIsSafe(text[1..]);
      assert [text[0]] + text[1..] == text;
    }
  }

  // ---- The diff a scanner sees --------------------------------------------------------------------------

  /** The parts of a line's text beyond the first. */
  function Extra(l: DiffLine): seq<string> {
    if l.NoNewline? then [] else Rest(l.text)
  }

  function CutLine(l: DiffLine): DiffLine {
    match l
    case Context(text) => Context(Cut(text))
    case Added(text) => Added(Cut(text))
    case Removed(text) => Removed(Cut(text))
    case NoNewline => NoNewline
  }

  /** What a scanner takes a part for, unless it reads as a hunk header. */
  function StandIn(part: string): DiffLine {
    if part == RawLine(NoNewline) then NoNewline
    else if StartsWith(part, "+") then Added(part[1..])
    else if StartsWith(part, "-") then Removed(part[1..])
    else if IsFileLine(part) then Removed("")
    else Context(Content(part))
  }

  /** A hunk of which only the start in the new file matters. */
  function BareHunk(start: nat): Hunk {
    Hunk(0, 1, start, 1, "", [])
  }

  /** The hunks the parts are taken for when a scanner has read this much of one. */
  function HunksFrom(h: Hunk, parts: seq<string>): (hunks: seq<Hunk>)
    ensures hunks != []
    decreases |parts|
  {
    if parts == [] then [h]
    else if NewStart(parts[0]).Some? then [h] + HunksFrom(BareHunk(NewStart(parts[0]).value), parts[1..])
    else HunksFrom(h.(lines := h.lines + [StandIn(parts[0])]), parts[1..])
  }

  function CutHunk(h: Hunk): Hunk {
    h.(section := Cut(h.section), lines := [])
  }

  /** Every part a hunk is split into after the first of its header. */
  function Parts(h: Hunk): seq<string> {
    Rest(h.section) + AllPieces(RawLines(h.lines))
  }

  function SeenHunks(hunks: seq<Hunk>): seq<Hunk> {
    if hunks == [] then [] else HunksFrom(CutHunk(hunks[0]), Parts(hunks[0])) + SeenHunks(hunks[1..])
  }

  function SeenFile(f: FileDiff): FileDiff {
    FileDiff(AllPieces(f.extended), if f.change.None? then None else Some(SeenChange(f.change.value)))
  }

  function SeenChange(c: Change): Change {
    c.(hunks := SeenHunks(c.hunks))
  }

  function SeenDiff(files: seq<FileDiff>): (seen: seq<FileDiff>)
    ensures |seen| == |files| && forall i :: 0 <= i < |files| ==> seen[i] == SeenFile(files[i])
  {
    if files == [] then [] else [SeenFile(files[0])] + SeenDiff(files[1..])
  }

  /** The names are single lines, and no part of an extended header line starts with a plus. */
  predicate Splittable(f: FileDiff) {
    && (forall i :: 0 <= i < |AllPieces(f.extended)| ==> !StartsWith(AllPieces(f.extended)[i], "+"))
    && (f.change.Some? ==>
          NamedChange(f.change.value) && OneLine(f.change.value.oldName) && OneLine(PathOf(f.change.value.newPath)))
  }

  // ---- The two read the same ------------------------------------------------------------------------------

  /** What this part needs to know of a scanner's step. */
  ghost predicate Reads<S(!new)>(step: (S, string) -> S) {
    && (forall s, p :: NewStart(p).None? ==> step(s, p) == step(s, RawLine(StandIn(p))))
    && (forall s, p :: NewStart(p).Some? ==> step(s, p) == step(s, HunkHeader(BareHunk(NewStart(p).value))))
  }

  lemma StepReads()
    ensures Reads(Step)
  {
    forall s, p | NewStart(p).None?
      ensures Step(s, p) == Step(s, RawLine(StandIn(p)))
    {
      StandInStep(s, p);
    }
    forall s, p | NewStart(p).Some?
      ensures Step(s, p) == Step(s, HunkHeader(BareHunk(NewStart(p).value)))
    {
      HeaderStep(s, p);
    }
  }

  /** A part with a mark is the line it is taken for. */
  lemma MarkedPart(p: string)
    requires p != "" && (p[0] == '+' || p[0] == '-')
    ensures RawLine(StandIn(p)) == p
  {
    assert p[..1] == [p[0]] && p == [p[0]] + p[1..];
    OtherStart(p, if p[0] == '+' then "-" else "+");
  }

  lemma UnmarkedPart(p: string)
    requires p == "" || (p[0] != '+' && p[0] != '-')
    ensures !StartsWith(p, "+") && !StartsWith(p, "-") && !StartsWith(p, "+++ ")
  {
    OtherStart(p, "+");
    OtherStart(p, "-");
    OtherStart(p, "+++ ");
  }

  lemma StandInStep(s: State, p: string)
    requires NewStart(p).None?
    ensures Step(s, p) == Step(s, RawLine(StandIn(p)))
  {
    if p != "" && (p[0] == '+' || p[0] == '-') {
      MarkedPart(p);
    } else {
      UnmarkedPart(p);
      StepOfOther(s, StandIn(p));
      if p == RawLine(NoNewline) { StepOfOther(s, NoNewline); }
    }
  }

  lemma HeaderPart(p: string)
    requires NewStart(p).Some?
    ensures p[0] == '@' && !StartsWith(p, "+") && !StartsWith(p, "+++ ") && !IsFileLine(p)
  {
    assert p[..4][0] == '@';
    UnmarkedPart(p);
    NotAFileLine(p);
  }

  lemma HeaderStep(s: State, p: string)
    requires NewStart(p).Some?
    ensures Step(s, p) == Step(s, HunkHeader(BareHunk(NewStart(p).value)))
  {
    HeaderPart(p);
    StepOfHeader(s, BareHunk(NewStart(p).value));
  }

  /** From any state, both lists of lines lead to the same one. */
  ghost predicate Alike<S(!new)>(step: (S, string) -> S, a: seq<string>, b: seq<string>) {
    forall s :: Walk(step, s, a) == Walk(step, s, b)
  }

  lemma AlikeBoth<S(!new)>(step: (S, string) -> S, a: seq<string>, b: seq<string>, c: seq<string>, d: seq<string>)
    requires Alike(step, a, b) && Alike(step, c, d)
    ensures Alike(step, a + c, b + d)
  {
    forall s
      ensures Walk(step, s, a + c) == Walk(step, s, b + d)
    {
      WalkBoth(step, s, a, c);
      WalkBoth(step, s, b, d);
    }
  }

  lemma AlikeOne<S(!new)>(step: (S, string) -> S, p: string, q: string)
    requires forall s :: step(s, p) == step(s, q)
    ensures Alike(step, [p], [q])
  {
    forall s
      ensures Walk(step, s, [p]) == Walk(step, s, [q])
    {
      WalkSingle(step, s, p);
      WalkSingle(step, s, q);
    }
  }

  lemma {:induction false} RawLinesBoth(a: seq<DiffLine>, b: seq<DiffLine>)
    ensures RawLines(a + b) == RawLines(a) + RawLines(b)
    decreases |a|
  {
    if a == [] {
      assert a + b == b;
    } else {
      assert (a + b)[1..] == a[1..] + b;
      RawLinesBoth(a[1..], b);
    }
  }

  lemma {:induction false} RawHunksBoth(a: seq<Hunk>, b: seq<Hunk>)
    ensures RawHunks(a + b) == RawHunks(a) + RawHunks(b)
    decreases |a|
  {
    if a == [] {
      assert a + b == b;
    } else {
      assert (a + b)[1..] == a[1..] + b;
      RawHunksBoth(a[1..], b);
      Regroup([HunkHeader(a[0])] + RawLines(a[0].lines), RawHunks(a[1..]), RawHunks(b));
    }
  }

  /** A hunk as far as it was read. */
  function Opened(h: Hunk): seq<string> {
    [HunkHeader(h)] + RawLines(h.lines)
  }

  lemma OpenedFurther(h: Hunk, l: DiffLine)
    ensures Opened(h.(lines := h.lines + [l])) == Opened(h) + [RawLine(l)]
  {
    RawLinesBoth(h.lines, [l]);
    assert RawLines([l]) == [RawLine(l)] + RawLines([l][1..]);
  }

  lemma OpenedAlone(h: Hunk, rest: seq<Hunk>)
    ensures RawHunks([h] + rest) == Opened(h) + RawHunks(rest)
  {
    assert ([h] + rest)[1..] == rest;
  }

  lemma {:induction false} PartsAlike<S(!new)>(step: (S, string) -> S, h: Hunk, parts: seq<string>)
    requires Reads(step)
    ensures Alike(step, Opened(h) + parts, RawHunks(HunksFrom(h, parts)))
    decreases |parts|
  {
    if parts == [] {
      OpenedAlone(h, []);
      assert [h] + [] == [h] && RawHunks([]) == [];
    } else {
      var p, rest := parts[0], parts[1..];
      assert parts == [p] + rest;
      Regroup(Opened(h), [p], rest);
      if NewStart(p).Some? {
        NextHunkAlike(step, h, p, rest);
      } else {
        NextLineAlike(step, h, p, rest);
      }
    }
  }

  lemma NextLineAlike<S(!new)>(step: (S, string) -> S, h: Hunk, p: string, rest: seq<string>)
    requires Reads(step) && NewStart(p).None?
    ensures Alike(step, Opened(h) + [p] + rest, RawHunks(HunksFrom(h, [p] + rest)))
    decreases |rest| + 1, 0
  {
    var more := h.(lines := h.lines + [StandIn(p)]);
    PartsAlike(step, more, rest);
    OpenedFurther(h, StandIn(p));
    AlikeOne(step, p, RawLine(StandIn(p)));
    AlikeBoth(step, Opened(h), Opened(h), [p], [RawLine(StandIn(p))]);
    AlikeBoth(step, Opened(h) + [p], Opened(more), rest, rest);
    assert ([p] + rest)[1..] == rest;
  }

  lemma NextHunkAlike<S(!new)>(step: (S, string) -> S, h: Hunk, p: string, rest: seq<string>)
    requires Reads(step) && NewStart(p).Some?
    ensures Alike(step, Opened(h) + [p] + rest, RawHunks(HunksFrom(h, [p] + rest)))
    decreases |rest| + 1, 0
  {
    var next := BareHunk(NewStart(p).value);
    PartsAlike(step, next, rest);
    assert Opened(next) == [HunkHeader(next)];
    AlikeOne(step, p, HunkHeader(next));
    AlikeBoth(step, [p], Opened(next), rest, rest);
    assert Alike(step, [p] + rest, RawHunks(HunksFrom(next, rest)));
    OpenedAlone(h, HunksFrom(next, rest));
    AlikeBoth(step, Opened(h), Opened(h), [p] + rest, RawHunks(HunksFrom(next, rest)));
    Regroup(Opened(h), [p], rest);
    assert ([p] + rest)[1..] == rest;
  }

  lemma HeadStandIn(l: DiffLine)
    ensures NewStart(RawLine(l)).None? && StandIn(RawLine(l)) == l
  {
    var p := RawLine(l);
    OtherStart(p, "@@ -");
    if l.Added? || l.Removed? {
      MarkedPart(p);
      assert p[..1] == [p[0]] && p[1..] == l.text;
      OtherStart(p, if l.Added? then "-" else "+");
    } else if l.Context? {
      UnmarkedPart(p);
      NotAFileLine(p);
      assert p[1..] == l.text;
    }
  }

  lemma PiecesOfLine(l: DiffLine)
    ensures Pieces(RawLine(l)) == [RawLine(CutLine(l))] + Extra(l)
  {
    match l
    case Context(text) => PiecesAfter(" ", text);
    case Added(text) => PiecesAfter("+", text);
    case Removed(text) => PiecesAfter("-", text);
    case NoNewline => PiecesOfOneLine(RawLine(NoNewline));
  }

  /** The parts of one line and of the lines after it. */
  lemma LineSplits(lines: seq<DiffLine>)
    requires lines != []
    ensures AllPieces(RawLines(lines)) ==
            [RawLine(CutLine(lines[0]))] + (Extra(lines[0]) + AllPieces(RawLines(lines[1..])))
  {
    PiecesOfLine(lines[0]);
    assert RawLines(lines)[1..] == RawLines(lines[1..]);
    Regroup([RawLine(CutLine(lines[0]))], Extra(lines[0]), AllPieces(RawLines(lines[1..])));
  }

  lemma DigitsAreOneLine(s: string)
    requires forall i :: 0 <= i < |s| ==> IsDigit(s[i])
    ensures OneLine(s)
  {
  }

  function HeaderStart(h: Hunk): string {
    "@@ -" + RangeText(h.oldStart, h.oldCount) + " +" + RangeText(h.newStart, h.newCount) + " @@"
  }

  lemma HeaderSplits(h: Hunk)
    ensures Pieces(HunkHeader(h)) == [HunkHeader(CutHunk(h))] + Rest(h.section)
  {
    DigitsAreOneLine(Decimal(h.oldStart));
    DigitsAreOneLine(Decimal(h.oldCount));
    DigitsAreOneLine(Decimal(h.newStart));
    DigitsAreOneLine(Decimal(h.newCount));
    assert OneLine(RangeText(h.oldStart, h.oldCount)) && OneLine(RangeText(h.newStart, h.newCount));
    assert HunkHeader(h) == HeaderStart(h) + h.section;
    PiecesAfter(HeaderStart(h), h.section);
  }

  lemma HunkSplits(hunks: seq<Hunk>)
    requires hunks != []
    ensures AllPieces(RawHunks(hunks)) ==
            (Opened(CutHunk(hunks[0])) + Parts(hunks[0])) + AllPieces(RawHunks(hunks[1..]))
  {
    var head, lines := [HunkHeader(hunks[0])], RawLines(hunks[0].lines);
    AllPiecesBoth(head + lines, RawHunks(hunks[1..]));
    AllPiecesBoth(head, lines);
    HeaderSplits(hunks[0]);
    PiecesAlone(HunkHeader(hunks[0]));
    assert Opened(CutHunk(hunks[0])) == [HunkHeader(CutHunk(hunks[0]))];
    Regroup(Opened(CutHunk(hunks[0])), Rest(hunks[0].section), AllPieces(lines));
  }

  lemma PiecesAlone(raw: string)
    ensures AllPieces([raw]) == Pieces(raw)
  {
    assert AllPieces([raw][1..]) == [];
  }

  lemma {:induction false} HunksAlike<S(!new)>(step: (S, string) -> S, hunks: seq<Hunk>)
    requires Reads(step)
    ensures Alike(step, AllPieces(RawHunks(hunks)), RawHunks(SeenHunks(hunks)))
    decreases |hunks|
  {
    if hunks != [] {
      var first := HunksFrom(CutHunk(hunks[0]), Parts(hunks[0]));
      HunkSplits(hunks);
      PartsAlike(step, CutHunk(hunks[0]), Parts(hunks[0]));
      HunksAlike(step, hunks[1..]);
      RawHunksBoth(first, SeenHunks(hunks[1..]));
      AlikeBoth(step, Opened(CutHunk(hunks[0])) + Parts(hunks[0]), RawHunks(first),
                AllPieces(RawHunks(hunks[1..])), RawHunks(SeenHunks(hunks[1..])));
    }
  }

  lemma NamesSplit(c: Change)
    requires OneLine(c.oldName) && OneLine(PathOf(c.newPath))
    ensures var names := ["--- " + c.oldName, NewNameLine(c.newPath)];
            AllPieces(RawChange(c)) == names + AllPieces(RawHunks(c.hunks))
  {
    var minus, plus := "--- " + c.oldName, NewNameLine(c.newPath);
    AllPiecesBoth([minus, plus], RawHunks(c.hunks));
    AllPiecesBoth([minus], [plus]);
    PiecesAlone(minus);
    PiecesAlone(plus);
    PiecesOfOneLine(minus);
    PiecesOfOneLine(plus);
    assert [minus] + [plus] == [minus, plus];
  }

  lemma FileAlike<S(!new)>(step: (S, string) -> S, f: FileDiff)
    requires Reads(step) && Splittable(f)
    ensures Alike(step, AllPieces(RawFile(f)), RawFile(SeenFile(f)))
  {
    if f.change.None? {
      assert RawFile(f) == f.extended && RawFile(SeenFile(f)) == AllPieces(f.extended);
    } else {
      var c := f.change.value;
      AllPiecesBoth(f.extended, RawChange(c));
      NamesSplit(c);
      HunksAlike(step, c.hunks);
      var names := ["--- " + c.oldName, NewNameLine(c.newPath)];
      AlikeBoth(step, names, names, AllPieces(RawHunks(c.hunks)), RawHunks(SeenHunks(c.hunks)));
      AlikeBoth(step, AllPieces(f.extended), AllPieces(f.extended), AllPieces(RawChange(c)), RawChange(SeenChange(c)));
    }
  }

  /** Splitting the text of a diff makes a scanner read another diff, the one it sees. */
  lemma {:induction false} DiffAlike<S(!new)>(step: (S, string) -> S, files: seq<FileDiff>)
    requires Reads(step) && forall i :: 0 <= i < |files| ==> Splittable(files[i])
    ensures Alike(step, AllPieces(RawDiff(files)), RawDiff(SeenDiff(files)))
  {
    if files != [] {
      assert Splittable(files[0]);
      FileAlike(step, files[0]);
      DiffAlike(step, files[1..]);
      AllPiecesBoth(RawFile(files[0]), RawDiff(files[1..]));
      assert SeenDiff(files)[1..] == SeenDiff(files[1..]);
      AlikeBoth(step, AllPieces(RawFile(files[0])), RawFile(SeenFile(files[0])),
                AllPieces(RawDiff(files[1..])), RawDiff(SeenDiff(files[1..])));
    }
  }

  /** The scanner ends on the text where it ends on the lines of that diff. */
  lemma TextReadsAsSeen<S(!new)>(step: (S, string) -> S, start: S, files: seq<FileDiff>)
    requires Reads(step) && forall i :: 0 <= i < |files| ==> Splittable(files[i])
    ensures Walk(step, start, SplitLines(Unlines(RawDiff(files)))) == Walk(step, start, RawDiff(SeenDiff(files)))
  {
    SplitOfUnlines(RawDiff(files));
    DiffAlike(step, files);
  }
}
