/** The dependency scanner's walk: manifest files only, each added line with the lockfile package it
    belongs to. */
module DependencyScan {
  import opened Wrappers
  import opened Text
  import opened DiffText
  import opened DiffScan

  datatype Kind = Pip | PackageJson | PackageLock

  /** The text patterns: the kind of manifest a path names, and the package key on a lockfile line. */
  datatype Patterns = Patterns(kindOf: string -> Option<Kind>, lockKey: string -> Option<string>)

  /** An added manifest line, with the package named last before or on it. */
  datatype Pin = Pin(place: Place, kind: Kind, package: string)

  datatype Walker = Walker(path: string, kind: Option<Kind>, newLine: nat, pending: string, found: seq<Pin>)

  const BEGIN := Walker("", None, 0, "", [])

  /** The package a line names: only lockfiles have lines that do. */
  function KeyOf(p: Patterns, kind: Kind, text: string): Option<string> {
    if kind == PackageLock then p.lockKey(text) else None
  }

  /** The package name a line of the new file leaves pending. */
  function Pending(p: Patterns, kind: Kind, pending: string, content: string): string {
    if KeyOf(p, kind, content).Some? then KeyOf(p, kind, content).value else pending
  }

  function Advance(p: Patterns, w: Walker, raw: string): Walker {
    if StartsWith(raw, "+++ ") then
      var path := StripPath(raw[4..]);
      w.(path := path, kind := p.kindOf(path), pending := "")
    else if IsFileLine(raw) then w
    else if NewStart(raw).Some? then w.(newLine := NewStart(raw).value)
    else if w.kind.None? || StartsWith(raw, "-") then w
    else
      var pending := Pending(p, w.kind.value, w.pending, Content(raw));
      w.(newLine := w.newLine + 1, pending := pending,
         found := if StartsWith(raw, "+") then w.found + [Pin(Place(w.path, w.newLine, Content(raw)), w.kind.value, pending)]
                  else w.found)
  }

  datatype Advice = Advice(package: string, version: string, advisory: string, path: string, line: nat)

  function AdviceFor(check: Pin -> Option<Advice>, pins: seq<Pin>): seq<Advice> {
    if pins == [] then []
    else
      var n := |pins| - 1;
      AdviceFor(check, pins[..n]) + if check(pins[n]).Some? then [check(pins[n]).value] else []
  }

  /** Part by part and pin by pin, in order. */
  lemma {:induction false} AdviceInOrder(check: Pin -> Option<Advice>, a: seq<Pin>, b: seq<Pin>, pin: Pin)
    ensures AdviceFor(check, a + b) == AdviceFor(check, a) + AdviceFor(check, b) && AdviceFor(check, []) == []
    ensures AdviceFor(check, [pin]) == if check(pin).Some? then [check(pin).value] else []
    decreases |b|
  {
    assert [pin][..0] == [];
    if b == [] {
      assert a + b == a;
    } else {
      var n := |b| - 1;
      assert (a + b)[..|a + b| - 1] == a + b[..n];
      AdviceInOrder(check, a, b[..n], pin);
    }
  }

  method ScanDiff(diff: string, p: Patterns, check: Pin -> Option<Advice>) returns (findings: seq<Advice>)
    ensures findings == AdviceFor(check, Walk((w, raw) => Advance(p, w, raw), BEGIN, SplitLines(diff)).found)
  {
    ghost var step := (w, raw) => Advance(p, w, raw);
    findings := [];
    var path, newLine, lockPending := "", 0, "";
    var kind: Option<Kind> := None;
    var raws := SplitLines(diff);
    ghost var w := BEGIN;
    var i := 0;
    while i < |raws|
      invariant i <= |raws| && w == Walk(step, BEGIN, raws[..i])
      invariant w.path == path && w.kind == kind && w.newLine == newLine && w.pending == lockPending
      invariant findings == AdviceFor(check, w.found)
    {
      var raw := raws[i];
      WalkOneMore(step, BEGIN, raws, i);
      w := Advance(p, w, raw);
      i := i + 1;
      if StartsWith(raw, "+++ ") {
        path := StripPath(raw[4..]);
        kind := p.kindOf(path);
        lockPending := "";
        continue;
      }
      if IsFileLine(raw) { continue; }
      var hunk := NewStart(raw);
      if hunk.Some? {
        newLine := hunk.value;
        continue;
      }
      if kind.None? { continue; }
      var added, removed, content := StartsWith(raw, "+"), StartsWith(raw, "-"), Content(raw);
      if kind.value == PackageLock && !removed {
        var key := p.lockKey(content);
        if key.Some? { lockPending := key.value; }
      }
      if added {
        var finding := check(Pin(Place(path, newLine, content), kind.value, lockPending));
        if finding.Some? { findings := findings + [finding.value]; }
      }
      if !removed { newLine := newLine + 1; }
    }
    assert raws[..i] == raws;
  }

  // ---- The true pins ------------------------------------------------------------------------------

  /** The new content of the files of a repository, as lines, by path. */
  type Tree = string -> seq<string>

  /** The package named last on these lines of a lockfile; nothing in other manifests. */
  function LastKey(p: Patterns, kind: Kind, texts: seq<string>): string {
    if texts == [] then ""
    else Pending(p, kind, LastKey(p, kind, texts[..|texts| - 1]), texts[|texts| - 1])
  }

  /** Of the lines of a lockfile that name a package the last one counts; other manifests name none. */
  lemma {:induction false} LastKeyMeans(p: Patterns, kind: Kind, texts: seq<string>, j: nat)
    requires forall k :: j < k < |texts| ==> p.lockKey(texts[k]).None?
    ensures kind != PackageLock ==> LastKey(p, kind, texts) == ""
    ensures j < |texts| && p.lockKey(texts[j]).Some? ==> LastKey(p, PackageLock, texts) == p.lockKey(texts[j]).value
    ensures (forall k :: 0 <= k < |texts| ==> p.lockKey(texts[k]).None?) ==> LastKey(p, PackageLock, texts) == ""
  {
    if texts != [] {
      var n := |texts| - 1;
      LastKeyMeans(p, kind, texts[..n], if j < n then j else |texts|);
    }
  }

  /** The lines of the file before this one. */
  function Before(file: seq<string>, line: nat): seq<string> {
    if 1 <= line <= |file| then file[..line - 1] else file
  }

  /** The added lines of a hunk of a manifest, each with the package named last at or before it in the
      new file. */
  function PinsOf(p: Patterns, path: string, kind: Kind, file: seq<string>, line: nat, lines: seq<DiffLine>): seq<Pin>
    decreases |lines|
  {
    if lines == [] then []
    else match lines[0]
      case Context(_) => PinsOf(p, path, kind, file, line + 1, lines[1..])
      case Added(text) =>
        [Pin(Place(path, line, text), kind, LastKey(p, kind, Before(file, line + 1)))]
        + PinsOf(p, path, kind, file, line + 1, lines[1..])
      case Removed(_) => PinsOf(p, path, kind, file, line, lines[1..])
      case NoNewline => PinsOf(p, path, kind, file, line, lines[1..])
  }

  function PinsInHunks(p: Patterns, path: string, kind: Kind, file: seq<string>, hunks: seq<Hunk>): seq<Pin> {
    if hunks == [] then []
    else PinsOf(p, path, kind, file, hunks[0].newStart, hunks[0].lines) + PinsInHunks(p, path, kind, file, hunks[1..])
  }

  function PinsInFile(p: Patterns, tree: Tree, f: FileDiff): seq<Pin> {
    var path, kind := FilePath(f), p.kindOf(FilePath(f));
    if kind.None? then [] else PinsInHunks(p, path, kind.value, tree(path), HunksOf(f))
  }

  function PinsInDiff(p: Patterns, tree: Tree, files: seq<FileDiff>): seq<Pin> {
    if files == [] then [] else PinsInFile(p, tree, files[0]) + PinsInDiff(p, tree, files[1..])
  }

  /** The hunks stand in the new file one after the other, after this line of it. */
  predicate InPlace(file: seq<string>, after: nat, hunks: seq<Hunk>)
    decreases |hunks|
  {
    hunks == []
    || (StandsIn(file, hunks[0].newStart, hunks[0].lines)
        && if NewSide(hunks[0].lines) == [] then InPlace(file, after, hunks[1..])
           else after < hunks[0].newStart
                && InPlace(file, hunks[0].newStart - 1 + |NewSide(hunks[0].lines)|, hunks[1..]))
  }

  function PlacesOf(pins: seq<Pin>): (places: seq<Place>)
    ensures |places| == |pins| && forall i :: 0 <= i < |pins| ==> places[i] == pins[i].place
  {
    if pins == [] then [] else [pins[0].place] + PlacesOf(pins[1..])
  }

  /** The pins of a hunk are its added lines, at their true places. */
  lemma {:induction false} PinsAreAddedLines(p: Patterns, path: string, kind: Kind, file: seq<string>, line: nat,
                                             lines: seq<DiffLine>)
    ensures PlacesOf(PinsOf(p, path, kind, file, line, lines)) == AddedLines(path, line, lines)
    decreases |lines|
  {
    if lines != [] {
      match lines[0]
      case Context(_) => PinsAreAddedLines(p, path, kind, file, line + 1, lines[1..]);
      case Added(_) =>
        PinsAreAddedLines(p, path, kind, file, line + 1, lines[1..]);
        var pins := PinsOf(p, path, kind, file, line, lines);
        assert pins[1..] == PinsOf(p, path, kind, file, line + 1, lines[1..]);
      case Removed(_) => PinsAreAddedLines(p, path, kind, file, line, lines[1..]);
      case NoNewline => PinsAreAddedLines(p, path, kind, file, line, lines[1..]);
    }
  }

  // ---- When the walk is right ---------------------------------------------------------------------

  /** Whether the walk takes what follows these lines of another file for a manifest: an added line that
      looks like a header changes the file it believes to be in. */
  predicate Active(p: Patterns, active: bool, lines: seq<DiffLine>)
    decreases |lines|
  {
    if lines == [] then active
    else Active(p, if LooksLikeHeader(lines[0]) then NamesManifest(p, lines[0].text) else active, lines[1..])
  }

  predicate NamesManifest(p: Patterns, text: string)
    requires StartsWith(text, "++ ")
  {
    p.kindOf(StripPath(text[3..])).Some?
  }

  /** No line is added while the walk believes to be in a manifest. */
  predicate Quiet(p: Patterns, active: bool, lines: seq<DiffLine>)
    decreases |lines|
  {
    lines == []
    || if LooksLikeHeader(lines[0]) then Quiet(p, NamesManifest(p, lines[0].text), lines[1..])
       else !(active && lines[0].Added?) && Quiet(p, active, lines[1..])
  }

  predicate QuietHunks(p: Patterns, active: bool, hunks: seq<Hunk>)
    decreases |hunks|
  {
    hunks == []
    || (Quiet(p, active, hunks[0].lines) && QuietHunks(p, Active(p, active, hunks[0].lines), hunks[1..]))
  }

  /** This line of the file names a package. */
  predicate Names(p: Patterns, kind: Kind, file: seq<string>, line: nat) {
    1 <= line <= |file| && KeyOf(p, kind, file[line - 1]).Some?
  }

  /** The package this line names; nothing on no line. */
  function KeyAt(p: Patterns, kind: Kind, file: seq<string>, line: nat): string {
    if Names(p, kind, file, line) then KeyOf(p, kind, file[line - 1]).value else ""
  }

  /** A line is added to the hunk before any of its lines names a package: it leans on what was shown
      before. */
  predicate Leans(p: Patterns, kind: Kind, lines: seq<DiffLine>) {
    lines != []
    && match lines[0]
       case Context(text) => KeyOf(p, kind, text).None? && Leans(p, kind, lines[1..])
       case Added(text) => KeyOf(p, kind, text).None?
       case Removed(_) => Leans(p, kind, lines[1..])
       case NoNewline => Leans(p, kind, lines[1..])
  }

  /** The last line that was shown and names a package, after a hunk that starts here. */
  function LastShown(p: Patterns, kind: Kind, last: nat, line: nat, lines: seq<DiffLine>): nat
    decreases |lines|
  {
    if lines == [] then last
    else match lines[0]
      case Context(text) => LastShown(p, kind, if KeyOf(p, kind, text).Some? then line else last, line + 1, lines[1..])
      case Added(text) => LastShown(p, kind, if KeyOf(p, kind, text).Some? then line else last, line + 1, lines[1..])
      case Removed(_) => LastShown(p, kind, last, line, lines[1..])
      case NoNewline => LastShown(p, kind, last, line, lines[1..])
  }

  /** Between the last line shown that names a package and this one, the nearest line to name one names
      another; no hunk shows it. */
  predicate Overtaken(p: Patterns, kind: Kind, file: seq<string>, last: nat, line: nat) {
    exists j :: last < j < line && Names(p, kind, file, j) && KeyAt(p, kind, file, j) != KeyAt(p, kind, file, last)
                && forall k :: j < k < line ==> !Names(p, kind, file, k)
  }

  /** No hunk that leans on an earlier one is overtaken. */
  predicate Paired(p: Patterns, kind: Kind, file: seq<string>, last: nat, hunks: seq<Hunk>)
    decreases |hunks|
  {
    hunks == []
    || ((Leans(p, kind, hunks[0].lines) ==> !Overtaken(p, kind, file, last, hunks[0].newStart))
        && Paired(p, kind, file, LastShown(p, kind, last, hunks[0].newStart, hunks[0].lines), hunks[1..]))
  }

  /** The file is read right: a manifest if its hunks are countable and none leans on a package that was
      overtaken, another file if no added line is taken for a manifest's. */
  predicate Sound(p: Patterns, tree: Tree, f: FileDiff) {
    var path, kind := FilePath(f), p.kindOf(FilePath(f));
    if kind.Some? then CountableHunks(HunksOf(f)) && Paired(p, kind.value, tree(path), 0, HunksOf(f))
    else QuietHunks(p, false, HunksOf(f))
  }

  /** The hunks of the manifests stand in the new files. */
  predicate Applied(p: Patterns, tree: Tree, files: seq<FileDiff>) {
    forall i :: 0 <= i < |files| && p.kindOf(FilePath(files[i])).Some? ==>
      InPlace(tree(FilePath(files[i])), 0, HunksOf(files[i]))
  }

  predicate ManifestsHeaderless(p: Patterns, files: seq<FileDiff>) {
    forall i :: 0 <= i < |files| && p.kindOf(FilePath(files[i])).Some? ==> HeaderlessHunks(HunksOf(files[i]))
  }

  // ---- What one line does -------------------------------------------------------------------------

  type Stepper = (Walker, string) -> Walker

  function Effect(p: Patterns, w: Walker, l: DiffLine): Walker {
    if w.kind.None? then w
    else match l
      case Context(text) => w.(newLine := w.newLine + 1, pending := Pending(p, w.kind.value, w.pending, text))
      case Added(text) =>
        var pending := Pending(p, w.kind.value, w.pending, text);
        w.(newLine := w.newLine + 1, pending := pending,
           found := w.found + [Pin(Place(w.path, w.newLine, text), w.kind.value, pending)])
      case Removed(_) => w
      case NoNewline => w.(newLine := w.newLine + 1)
  }

  /** A line taken for the header of a file. */
  function Redirected(p: Patterns, w: Walker, path: string): Walker {
    w.(path := path, kind := p.kindOf(path), pending := "")
  }

  /** The marker line names no package. */
  predicate MarkerIsPlain(p: Patterns) {
    p.lockKey(RawLine(NoNewline)).None?
  }

  lemma AdvanceOfLine(p: Patterns, w: Walker, l: DiffLine)
    requires MarkerIsPlain(p) && !LooksLikeHeader(l)
    ensures Advance(p, w, RawLine(l)) == Effect(p, w, l)
  {
    var raw := RawLine(l);
    LineIsNoHeader(l);
    if l.Context? || l.Added? { assert raw[1..] == l.text; }
    if l.Added? { assert raw[..1] == "+"; } else { OtherStart(raw, "+"); }
    if l.Removed? { assert raw[..1] == "-"; } else { OtherStart(raw, "-"); }
  }

  lemma LineIsNoHeader(l: DiffLine)
    requires !LooksLikeHeader(l)
    ensures !StartsWith(RawLine(l), "+++ ") && NewStart(RawLine(l)).None?
    ensures IsFileLine(RawLine(l)) ==> l.Removed?
  {
    var raw := RawLine(l);
    OtherStart(raw, "@@ -");
    if l.Added? {
      HeaderLikeText(l.text);
    } else {
      OtherStart(raw, "+++ ");
    }
    if !l.Removed? { NotAFileLine(raw); }
  }

  lemma AdvanceOfHeaderLike(p: Patterns, w: Walker, text: string)
    requires StartsWith(text, "++ ")
    ensures Advance(p, w, "+" + text) == Redirected(p, w, StripPath(text[3..]))
  {
    HeaderLikeText(text);
    assert ("+" + text)[4..] == text[3..];
  }

  /** Nothing is found, or one line more that does not look like a header. */
  predicate Plain(before: seq<Pin>, after: seq<Pin>) {
    after == before
    || (|after| == |before| + 1 && after[..|before|] == before && !StartsWith(after[|before|].place.text, "++ "))
  }

  /** What the walk needs to know of a step. */
  ghost predicate Follows(p: Patterns, step: Stepper) {
    && (forall w, l :: !LooksLikeHeader(l) ==> step(w, RawLine(l)) == Effect(p, w, l))
    && (forall w, l: DiffLine :: LooksLikeHeader(l) ==> step(w, RawLine(l)) == Redirected(p, w, StripPath(l.text[3..])))
    && (forall w, h :: step(w, HunkHeader(h)) == w.(newLine := h.newStart))
    && (forall w, c: Change :: NamedChange(c) ==> Renamed(p, step, w, c))
    && (forall w, raw :: !StartsWith(raw, "+") ==> step(w, raw).found == w.found)
    && (forall w: Walker, raw :: Plain(w.found, step(w, raw).found))
  }

  predicate Renamed(p: Patterns, step: Stepper, w: Walker, c: Change) {
    step(step(w, "--- " + c.oldName), NewNameLine(c.newPath)) == Redirected(p, w, PathOf(c.newPath))
  }

  lemma AdvanceOfHeader(p: Patterns, w: Walker, h: Hunk)
    ensures Advance(p, w, HunkHeader(h)) == w.(newLine := h.newStart)
  {
    HeaderIsHeader(h);
  }

  lemma AdvanceOfNames(p: Patterns, w: Walker, c: Change)
    requires NamedChange(c)
    ensures Advance(p, w, "--- " + c.oldName) == w
    ensures Advance(p, w, NewNameLine(c.newPath)) == Redirected(p, w, PathOf(c.newPath))
  {
    var minus := "--- " + c.oldName;
    assert minus[..4] == "--- ";
    OtherStart(minus, "+++ ");
    NewNameRoundTrip(c.newPath);
  }

  lemma AdvanceOfExtended(p: Patterns, w: Walker, raw: string)
    requires !StartsWith(raw, "+")
    ensures Advance(p, w, raw).found == w.found
  {
    if raw != "" { assert raw[..1] == [raw[0]]; }
    OtherStart(raw, "+++ ");
  }

  lemma AdvanceIsPlain(p: Patterns, w: Walker, raw: string)
    ensures Plain(w.found, Advance(p, w, raw).found)
  {
    if StartsWith(raw, "+") {
      assert raw[..1][0] == '+';
      assert raw == "+" + raw[1..];
      HeaderLikeText(raw[1..]);
    }
  }

  lemma AdvanceFollows(p: Patterns)
    requires MarkerIsPlain(p)
    ensures Follows(p, (w, raw) => Advance(p, w, raw))
  {
    var step: Stepper := (w, raw) => Advance(p, w, raw);
    forall w, l
      ensures !LooksLikeHeader(l) ==> step(w, RawLine(l)) == Effect(p, w, l)
      ensures LooksLikeHeader(l) ==> step(w, RawLine(l)) == Redirected(p, w, StripPath(l.text[3..]))
    {
      if LooksLikeHeader(l) { AdvanceOfHeaderLike(p, w, l.text); } else { AdvanceOfLine(p, w, l); }
    }
    forall w, h
      ensures step(w, HunkHeader(h)) == w.(newLine := h.newStart)
    {
      AdvanceOfHeader(p, w, h);
    }
    forall w, c: Change | NamedChange(c)
      ensures Renamed(p, step, w, c)
    {
      AdvanceOfNames(p, w, c);
    }
    forall w, raw
      ensures !StartsWith(raw, "+") ==> step(w, raw).found == w.found
      ensures Plain(w.found, step(w, raw).found)
    {
      if !StartsWith(raw, "+") { AdvanceOfExtended(p, w, raw); }
      AdvanceIsPlain(p, w, raw);
    }
  }

  // ---- A manifest without header-like lines -----------------------------------------------------------

  /** The package name pending after one more line of a hunk. */
  function After(p: Patterns, kind: Kind, pending: string, l: DiffLine): string {
    if l.Context? || l.Added? then Pending(p, kind, pending, l.text) else pending
  }

  /** The package name pending after a hunk. */
  function Carried(p: Patterns, kind: Kind, pending: string, lines: seq<DiffLine>): string
    decreases |lines|
  {
    if lines == [] then pending else Carried(p, kind, After(p, kind, pending, lines[0]), lines[1..])
  }

  function OwnPins(path: string, kind: Kind, line: nat, l: DiffLine, package: string): (pins: seq<Pin>)
    ensures |pins| == if l.Added? then 1 else 0
  {
    if l.Added? then [Pin(Place(path, line, l.text), kind, package)] else []
  }

  /** The pins the walk finds in a hunk of a manifest: the marker is counted as a line, and the package is
      the one pending. */
  function PinsSeen(p: Patterns, path: string, kind: Kind, pending: string, line: nat, lines: seq<DiffLine>): seq<Pin>
    decreases |lines|
  {
    if lines == [] then []
    else
      var next := After(p, kind, pending, lines[0]);
      OwnPins(path, kind, line, lines[0], next)
      + PinsSeen(p, path, kind, next, if lines[0].Removed? then line else line + 1, lines[1..])
  }

  function SeenInHunks(p: Patterns, path: string, kind: Kind, pending: string, hunks: seq<Hunk>): seq<Pin>
    decreases |hunks|
  {
    if hunks == [] then []
    else PinsSeen(p, path, kind, pending, hunks[0].newStart, hunks[0].lines)
         + SeenInHunks(p, path, kind, Carried(p, kind, pending, hunks[0].lines), hunks[1..])
  }

  function NextLine(line: nat, l: DiffLine): nat {
    if l.Context? || l.Added? then line + 1 else line
  }

  lemma EffectPins(p: Patterns, w: Walker, l: DiffLine)
    requires w.kind.Some?
    ensures var next := Effect(p, w, l);
            && next.path == w.path && next.kind == w.kind && next.pending == After(p, w.kind.value, w.pending, l)
            && next.found == w.found + OwnPins(w.path, w.kind.value, w.newLine, l, next.pending)
            && next.newLine == if l.Removed? then w.newLine else w.newLine + 1
  {
  }

  lemma {:induction false} LinesArePinned(p: Patterns, step: Stepper, w: Walker, lines: seq<DiffLine>)
    requires Follows(p, step) && Headerless(lines) && w.kind.Some?
    ensures var after := Walk(step, w, RawLines(lines));
            && after.path == w.path && after.kind == w.kind
            && after.pending == Carried(p, w.kind.value, w.pending, lines)
            && after.found == w.found + PinsSeen(p, w.path, w.kind.value, w.pending, w.newLine, lines)
    decreases |lines|
  {
    if lines != [] {
      var l := lines[0];
      var next := Effect(p, w, l);
      assert step(w, RawLine(l)) == next;
      assert RawLines(lines)[1..] == RawLines(lines[1..]);
      EffectPins(p, w, l);
      LinesArePinned(p, step, next, lines[1..]);
      Regroup(w.found, OwnPins(w.path, w.kind.value, w.newLine, l, next.pending),
              PinsSeen(p, w.path, w.kind.value, next.pending, next.newLine, lines[1..]));
    }
  }

  lemma {:induction false} HunksArePinned(p: Patterns, step: Stepper, w: Walker, hunks: seq<Hunk>)
    requires Follows(p, step) && HeaderlessHunks(hunks) && w.kind.Some?
    ensures Walk(step, w, RawHunks(hunks)).found == w.found + SeenInHunks(p, w.path, w.kind.value, w.pending, hunks)
    decreases |hunks|
  {
    if hunks != [] {
      var h := hunks[0];
      var start := w.(newLine := h.newStart);
      assert step(w, HunkHeader(h)) == start;
      WalkHunk(step, w, hunks);
      LinesArePinned(p, step, start, h.lines);
      HunksArePinned(p, step, Walk(step, start, RawLines(h.lines)), hunks[1..]);
      Regroup(w.found, PinsSeen(p, w.path, w.kind.value, w.pending, h.newStart, h.lines),
              SeenInHunks(p, w.path, w.kind.value, Carried(p, w.kind.value, w.pending, h.lines), hunks[1..]));
    }
  }

  lemma SameParts<T>(a: seq<T>, b: seq<T>, x: seq<T>, y: seq<T>)
    requires |a| >= |b| && |x| >= |y|
    ensures a + x == b + y <==> a == b && x == y
  {
    if a + x == b + y {
      assert |a| + |x| == |a + x| == |b + y| == |b| + |y|;
      assert a == (a + x)[..|a|] && b == (b + y)[..|b|];
      assert x == (a + x)[|a|..] && y == (b + y)[|b|..];
    }
  }

  // ---- The package pending against the package named in the file --------------------------------------

  lemma LastKeyOfMore(p: Patterns, kind: Kind, file: seq<string>, line: nat)
    requires 1 <= line <= |file|
    ensures LastKey(p, kind, Before(file, line + 1)) == Pending(p, kind, LastKey(p, kind, Before(file, line)), file[line - 1])
  {
    assert Before(file, line + 1) == file[..line];
    assert file[..line][..line - 1] == file[..line - 1];
  }

  /** The key named last before a line is the one on the nearest line that names any, if it is at or after
      a line that does. */
  lemma {:induction false} NearestNamed(p: Patterns, kind: Kind, file: seq<string>, last: nat, line: nat) returns (j: nat)
    requires last < line <= |file| + 1 && (last == 0 || Names(p, kind, file, last))
    ensures last <= j < line && (j > last ==> Names(p, kind, file, j))
    ensures forall k :: j < k < line ==> !Names(p, kind, file, k)
    ensures LastKey(p, kind, Before(file, line)) == KeyAt(p, kind, file, j)
    decreases line
  {
    if line == 1 {
      j := 0;
      assert Before(file, 1) == [];
    } else {
      LastKeyOfMore(p, kind, file, line - 1);
      if Names(p, kind, file, line - 1) {
        j := line - 1;
      } else {
        j := NearestNamed(p, kind, file, last, line - 1);
      }
    }
  }

  /** A package shown last is still the one named last exactly if it was not overtaken. */
  lemma StillLastIff(p: Patterns, kind: Kind, file: seq<string>, last: nat, line: nat)
    requires last < line <= |file| + 1 && (last == 0 || Names(p, kind, file, last))
    ensures KeyAt(p, kind, file, last) == LastKey(p, kind, Before(file, line)) <==> !Overtaken(p, kind, file, last, line)
  {
    var j := NearestNamed(p, kind, file, last, line);
    if Overtaken(p, kind, file, last, line) {
      var i :| last < i < line && Names(p, kind, file, i) && KeyAt(p, kind, file, i) != KeyAt(p, kind, file, last)
               && forall k :: i < k < line ==> !Names(p, kind, file, k);
      assert i == j;
    }
  }

  /** What the walk carries out of a hunk is the key on the last line shown that names one. */
  lemma {:induction false} CarriedIsShown(p: Patterns, kind: Kind, file: seq<string>, last: nat, line: nat,
                                          lines: seq<DiffLine>)
    requires StandsIn(file, line, lines) && (last == 0 || Names(p, kind, file, last))
    ensures var shown := LastShown(p, kind, last, line, lines);
            && (shown == 0 || Names(p, kind, file, shown))
            && (shown == last || line <= shown < line + |NewSide(lines)|)
            && Carried(p, kind, KeyAt(p, kind, file, last), lines) == KeyAt(p, kind, file, shown)
    decreases |lines|
  {
    if lines != [] {
      var l := lines[0];
      StandsInRest(file, line, lines);
      var next := if (l.Context? || l.Added?) && KeyOf(p, kind, l.text).Some? then line else last;
      CarriedIsShown(p, kind, file, next, NextLine(line, l), lines[1..]);
    }
  }

  lemma PinsUnfold(p: Patterns, path: string, kind: Kind, file: seq<string>, line: nat, lines: seq<DiffLine>)
    requires lines != []
    ensures PinsOf(p, path, kind, file, line, lines) ==
            OwnPins(path, kind, line, lines[0], LastKey(p, kind, Before(file, line + 1)))
            + PinsOf(p, path, kind, file, NextLine(line, lines[0]), lines[1..])
  {
  }

  lemma SeenUnfold(p: Patterns, path: string, kind: Kind, pending: string, line: nat, ahead: nat, lines: seq<DiffLine>)
    requires lines != []
    ensures var next := After(p, kind, pending, lines[0]);
            var at := NextLine(line, lines[0]) + if lines[0].NoNewline? then ahead + 1 else ahead;
            PinsSeen(p, path, kind, pending, line + ahead, lines) ==
            OwnPins(path, kind, line + ahead, lines[0], next) + PinsSeen(p, path, kind, next, at, lines[1..])
  {
  }

  lemma OwnIsTrueIff(path: string, kind: Kind, line: nat, ahead: nat, l: DiffLine, pending: string, package: string)
    ensures OwnPins(path, kind, line + ahead, l, pending) == OwnPins(path, kind, line, l, package)
            <==> (l.Added? ==> ahead == 0 && pending == package)
  {
    if l.Added? {
      var a, b := OwnPins(path, kind, line + ahead, l, pending)[0], OwnPins(path, kind, line, l, package)[0];
      assert a.place.line == line + ahead && b.place.line == line && a.package == pending && b.package == package;
    }
  }

  /** The package pending is the true one at this line, unless no later line of the hunk asks for it. */
  predicate Trusted(p: Patterns, kind: Kind, file: seq<string>, pending: string, line: nat, lines: seq<DiffLine>) {
    Leans(p, kind, lines) ==> pending == LastKey(p, kind, Before(file, line))
  }

  lemma TrustedUnfold(p: Patterns, kind: Kind, file: seq<string>, pending: string, line: nat, lines: seq<DiffLine>)
    requires lines != [] && StandsIn(file, line, lines)
    ensures var next := After(p, kind, pending, lines[0]);
            Trusted(p, kind, file, pending, line, lines) <==>
            (lines[0].Added? ==> next == LastKey(p, kind, Before(file, line + 1)))
            && Trusted(p, kind, file, next, NextLine(line, lines[0]), lines[1..])
  {
    StandsInRest(file, line, lines);
    if lines[0].Context? || lines[0].Added? { LastKeyOfMore(p, kind, file, line); }
  }

  /** Ahead of the true line number by the markers passed, the pins of a hunk are right exactly if nothing
      is added any more and the package pending is the true one where it is asked for. */
  lemma {:induction false} SeenIsTrueIff(p: Patterns, path: string, kind: Kind, file: seq<string>, pending: string, line: nat,
                                         ahead: nat, lines: seq<DiffLine>)
    requires Headerless(lines) && StandsIn(file, line, lines)
    ensures |PinsSeen(p, path, kind, pending, line + ahead, lines)| == |PinsOf(p, path, kind, file, line, lines)|
    ensures PinsSeen(p, path, kind, pending, line + ahead, lines) == PinsOf(p, path, kind, file, line, lines)
            <==> Countable(lines, ahead > 0) && Trusted(p, kind, file, pending, line, lines)
    decreases |lines|
  {
    if lines != [] {
      var l, next := lines[0], After(p, kind, pending, lines[0]);
      var line', ahead' := NextLine(line, l), if l.NoNewline? then ahead + 1 else ahead;
      StandsInRest(file, line, lines);
      SeenIsTrueIff(p, path, kind, file, next, line', ahead', lines[1..]);
      PinsUnfold(p, path, kind, file, line, lines);
      SeenUnfold(p, path, kind, pending, line, ahead, lines);
      TrustedUnfold(p, kind, file, pending, line, lines);
      var package := LastKey(p, kind, Before(file, line + 1));
      OwnIsTrueIff(path, kind, line, ahead, l, next, package);
      SameParts(OwnPins(path, kind, line + ahead, l, next), OwnPins(path, kind, line, l, package),
                PinsSeen(p, path, kind, next, line' + ahead', lines[1..]), PinsOf(p, path, kind, file, line', lines[1..]));
    }
  }

  /** A hunk of new lines leans on the package shown last: it can trust it exactly if it was not overtaken. */
  lemma TrustedIff(p: Patterns, kind: Kind, file: seq<string>, last: nat, h: Hunk)
    requires StandsIn(file, h.newStart, h.lines) && (last == 0 || Names(p, kind, file, last))
    requires NewSide(h.lines) != [] ==> last < h.newStart
    ensures Trusted(p, kind, file, KeyAt(p, kind, file, last), h.newStart, h.lines)
            <==> (Leans(p, kind, h.lines) ==> !Overtaken(p, kind, file, last, h.newStart))
  {
    if NewSide(h.lines) == [] {
      NothingLeans(p, kind, h.lines);
    } else {
      StillLastIff(p, kind, file, last, h.newStart);
    }
  }

  lemma {:induction false} NothingLeans(p: Patterns, kind: Kind, lines: seq<DiffLine>)
    requires NewSide(lines) == []
    ensures !Leans(p, kind, lines)
  {
    if lines != [] && (lines[0].Removed? || lines[0].NoNewline?) { NothingLeans(p, kind, lines[1..]); }
  }

  lemma {:induction false} SeenHunksAreTrueIff(p: Patterns, path: string, kind: Kind, file: seq<string>, after: nat,
                                               last: nat, hunks: seq<Hunk>)
    requires HeaderlessHunks(hunks) && InPlace(file, after, hunks)
    requires last <= after && (last == 0 || Names(p, kind, file, last))
    ensures var pending := KeyAt(p, kind, file, last);
            && |SeenInHunks(p, path, kind, pending, hunks)| == |PinsInHunks(p, path, kind, file, hunks)|
            && (SeenInHunks(p, path, kind, pending, hunks) == PinsInHunks(p, path, kind, file, hunks)
                <==> CountableHunks(hunks) && Paired(p, kind, file, last, hunks))
    decreases |hunks|
  {
    if hunks != [] {
      var h, pending := hunks[0], KeyAt(p, kind, file, last);
      var shown := LastShown(p, kind, last, h.newStart, h.lines);
      CarriedIsShown(p, kind, file, last, h.newStart, h.lines);
      TrustedIff(p, kind, file, last, h);
      SeenIsTrueIff(p, path, kind, file, pending, h.newStart, 0, h.lines);
      var after' := if NewSide(h.lines) == [] then after else h.newStart - 1 + |NewSide(h.lines)|;
      NextInPlace(file, after, hunks);
      SeenHunksAreTrueIff(p, path, kind, file, after', shown, hunks[1..]);
      SameParts(PinsSeen(p, path, kind, pending, h.newStart, h.lines), PinsOf(p, path, kind, file, h.newStart, h.lines),
                SeenInHunks(p, path, kind, KeyAt(p, kind, file, shown), hunks[1..]),
                PinsInHunks(p, path, kind, file, hunks[1..]));
      CountableFirst(hunks);
    }
  }

  lemma NextInPlace(file: seq<string>, after: nat, hunks: seq<Hunk>)
    requires hunks != [] && InPlace(file, after, hunks)
    ensures NewSide(hunks[0].lines) == [] ==> InPlace(file, after, hunks[1..])
    ensures NewSide(hunks[0].lines) != [] ==> InPlace(file, hunks[0].newStart - 1 + |NewSide(hunks[0].lines)|, hunks[1..])
  {
  }

  lemma CountableFirst(hunks: seq<Hunk>)
    requires hunks != []
    ensures CountableHunks(hunks) <==> Countable(hunks[0].lines, false) && CountableHunks(hunks[1..])
  {
    assert forall i :: 0 < i < |hunks| ==> hunks[i] == hunks[1..][i - 1];
  }

  // ---- A file that is no manifest -----------------------------------------------------------------------

  lemma GrownFurther<T>(a: seq<T>, b: seq<T>, c: seq<T>)
    requires a <= b && b <= c
    ensures a <= c && (a == c <==> a == b && b == c)
  {
  }

  lemma {:induction false} OtherLines(p: Patterns, step: Stepper, w: Walker, lines: seq<DiffLine>)
    requires Follows(p, step)
    ensures var after := Walk(step, w, RawLines(lines));
            && w.found <= after.found
            && (after.found == w.found <==> Quiet(p, w.kind.Some?, lines))
            && after.kind.Some? == Active(p, w.kind.Some?, lines)
    decreases |lines|
  {
    if lines != [] {
      var l := lines[0];
      var next := step(w, RawLine(l));
      assert RawLines(lines)[1..] == RawLines(lines[1..]);
      assert !LooksLikeHeader(l) ==> next == Effect(p, w, l);
      OtherLines(p, step, next, lines[1..]);
      GrownFurther(w.found, next.found, Walk(step, next, RawLines(lines[1..])).found);
    }
  }

  lemma {:induction false} OtherHunks(p: Patterns, step: Stepper, w: Walker, hunks: seq<Hunk>)
    requires Follows(p, step)
    ensures var after := Walk(step, w, RawHunks(hunks));
            w.found <= after.found && (after.found == w.found <==> QuietHunks(p, w.kind.Some?, hunks))
    decreases |hunks|
  {
    if hunks != [] {
      var start := w.(newLine := hunks[0].newStart);
      assert step(w, HunkHeader(hunks[0])) == start;
      WalkHunk(step, w, hunks);
      OtherLines(p, step, start, hunks[0].lines);
      var mid := Walk(step, start, RawLines(hunks[0].lines));
      OtherHunks(p, step, mid, hunks[1..]);
      GrownFurther(w.found, mid.found, Walk(step, mid, RawHunks(hunks[1..])).found);
    }
  }

  // ---- Files, and the whole diff --------------------------------------------------------------------------

  lemma {:induction false} ExtendedFindsNothing(p: Patterns, step: Stepper, w: Walker, extended: seq<string>)
    requires Follows(p, step) && forall i :: 0 <= i < |extended| ==> !StartsWith(extended[i], "+")
    ensures Walk(step, w, extended).found == w.found
    decreases |extended|
  {
    if extended != [] { ExtendedFindsNothing(p, step, step(w, extended[0]), extended[1..]); }
  }

  /** At the first hunk of a file the walk knows what kind of file it is and has found nothing since. */
  lemma FileBegins(p: Patterns, step: Stepper, w: Walker, files: seq<FileDiff>) returns (start: Walker)
    requires Follows(p, step) && files != [] && Named(files[0])
    ensures start.found == w.found
    ensures files[0].change.Some? ==> start == Redirected(p, start, FilePath(files[0]))
    ensures Walk(step, w, RawDiff(files)) ==
            Walk(step, Walk(step, start, RawHunks(HunksOf(files[0]))), RawDiff(files[1..]))
  {
    var f := files[0];
    start := Walk(step, w, f.extended);
    ExtendedFindsNothing(p, step, w, f.extended);
    WalkFile(step, w, files);
    if f.change.Some? {
      assert Renamed(p, step, start, f.change.value);
      start := Redirected(p, start, PathOf(f.change.value.newPath));
    }
  }

  lemma ManifestIsRead(p: Patterns, tree: Tree, step: Stepper, start: Walker, f: FileDiff) returns (own: seq<Pin>)
    requires Follows(p, step) && start == Redirected(p, start, FilePath(f)) && start.kind.Some? && HeaderlessHunks(HunksOf(f))
    requires InPlace(tree(FilePath(f)), 0, HunksOf(f))
    ensures Walk(step, start, RawHunks(HunksOf(f))).found == start.found + own
    ensures |own| == |PinsInFile(p, tree, f)| && (own == PinsInFile(p, tree, f) <==> Sound(p, tree, f))
  {
    HunksArePinned(p, step, start, HunksOf(f));
    SeenHunksAreTrueIff(p, start.path, start.kind.value, tree(start.path), 0, 0, HunksOf(f));
    own := SeenInHunks(p, start.path, start.kind.value, "", HunksOf(f));
  }

  lemma OtherFileIsRead(p: Patterns, step: Stepper, start: Walker, hunks: seq<Hunk>) returns (own: seq<Pin>)
    requires Follows(p, step) && start.kind.None?
    ensures Walk(step, start, RawHunks(hunks)).found == start.found + own
    ensures own == [] <==> QuietHunks(p, false, hunks)
  {
    OtherHunks(p, step, start, hunks);
    own := Walk(step, start, RawHunks(hunks)).found[|start.found|..];
  }

  /** What the walk finds in a file is at least as much as its pins, and just them if the file is sound. */
  lemma HunksAreRead(p: Patterns, tree: Tree, step: Stepper, start: Walker, f: FileDiff) returns (own: seq<Pin>)
    requires Follows(p, step) && (f.change.Some? ==> start == Redirected(p, start, FilePath(f)))
    requires p.kindOf(FilePath(f)).Some? ==> HeaderlessHunks(HunksOf(f)) && InPlace(tree(FilePath(f)), 0, HunksOf(f))
    ensures Walk(step, start, RawHunks(HunksOf(f))).found == start.found + own
    ensures |own| >= |PinsInFile(p, tree, f)| && (own == PinsInFile(p, tree, f) <==> Sound(p, tree, f))
  {
    if f.change.None? {
      own := [];
    } else if start.kind.Some? {
      own := ManifestIsRead(p, tree, step, start, f);
    } else {
      own := OtherFileIsRead(p, step, start, HunksOf(f));
    }
  }

  lemma {:induction false} DiffIsRead(p: Patterns, tree: Tree, step: Stepper, w: Walker, files: seq<FileDiff>)
    returns (own: seq<Pin>)
    requires Follows(p, step) && ManifestsHeaderless(p, files) && Applied(p, tree, files)
    requires forall i :: 0 <= i < |files| ==> Named(files[i])
    ensures Walk(step, w, RawDiff(files)).found == w.found + own
    ensures |own| >= |PinsInDiff(p, tree, files)|
    ensures own == PinsInDiff(p, tree, files) <==> forall i :: 0 <= i < |files| ==> Sound(p, tree, files[i])
    decreases |files|
  {
    own := [];
    if files != [] {
      var start := FileBegins(p, step, w, files);
      var first := HunksAreRead(p, tree, step, start, files[0]);
      var rest := DiffIsRead(p, tree, step, Walk(step, start, RawHunks(HunksOf(files[0]))), files[1..]);
      own := first + rest;
      Regroup(w.found, first, rest);
      SameParts(first, PinsInFile(p, tree, files[0]), rest, PinsInDiff(p, tree, files[1..]));
      SoundFirst(p, tree, files);
    }
  }

  lemma SoundFirst(p: Patterns, tree: Tree, files: seq<FileDiff>)
    requires files != []
    ensures (forall i :: 0 <= i < |files| ==> Sound(p, tree, files[i]))
            <==> Sound(p, tree, files[0]) && forall i :: 0 <= i < |files[1..]| ==> Sound(p, tree, files[1..][i])
  {
    if Sound(p, tree, files[0]) && forall i :: 0 <= i < |files[1..]| ==> Sound(p, tree, files[1..][i]) {
      assert forall i :: 0 < i < |files| ==> files[i] == files[1..][i - 1];
    }
  }

  // ---- A header-like line of a manifest is missed -----------------------------------------------------------

  predicate NoneLooksLikeHeader(pins: seq<Pin>) {
    forall pin :: pin in pins ==> !StartsWith(pin.place.text, "++ ")
  }

  lemma PlainKeeps(before: seq<Pin>, after: seq<Pin>)
    requires NoneLooksLikeHeader(before) && Plain(before, after)
    ensures NoneLooksLikeHeader(after)
  {
    if after != before {
      assert after == before + [after[|before|]];
    }
  }

  lemma {:induction false} FoundIsPlain(p: Patterns, step: Stepper, w: Walker, raws: seq<string>)
    requires Follows(p, step) && NoneLooksLikeHeader(w.found)
    ensures NoneLooksLikeHeader(Walk(step, w, raws).found)
    decreases |raws|
  {
    if raws != [] {
      PlainKeeps(w.found, step(w, raws[0]).found);
      FoundIsPlain(p, step, step(w, raws[0]), raws[1..]);
    }
  }

  lemma {:induction false} HeaderLikeLineIsPinned(p: Patterns, path: string, kind: Kind, file: seq<string>, line: nat,
                                                  lines: seq<DiffLine>)
    requires !Headerless(lines)
    ensures !NoneLooksLikeHeader(PinsOf(p, path, kind, file, line, lines))
    decreases |lines|
  {
    var own, rest := OwnPins(path, kind, line, lines[0], LastKey(p, kind, Before(file, line + 1))),
                     PinsOf(p, path, kind, file, NextLine(line, lines[0]), lines[1..]);
    PinsUnfold(p, path, kind, file, line, lines);
    if LooksLikeHeader(lines[0]) {
      assert own[0] in own + rest;
    } else {
      HeaderLikeLineIsPinned(p, path, kind, file, NextLine(line, lines[0]), lines[1..]);
      assert forall pin :: pin in rest ==> pin in own + rest;
    }
  }

  lemma {:induction false} HeaderLikeHunkIsPinned(p: Patterns, path: string, kind: Kind, file: seq<string>, hunks: seq<Hunk>)
    requires !HeaderlessHunks(hunks)
    ensures !NoneLooksLikeHeader(PinsInHunks(p, path, kind, file, hunks))
    decreases |hunks|
  {
    var h := hunks[0];
    var own, rest := PinsOf(p, path, kind, file, h.newStart, h.lines),
                     PinsInHunks(p, path, kind, file, hunks[1..]);
    if Headerless(h.lines) {
      HeaderLikeHunkIsPinned(p, path, kind, file, hunks[1..]);
      assert forall pin :: pin in rest ==> pin in own + rest;
    } else {
      HeaderLikeLineIsPinned(p, path, kind, file, h.newStart, h.lines);
      assert forall pin :: pin in own ==> pin in own + rest;
    }
  }

  lemma {:induction false} HeaderLikeManifestIsPinned(p: Patterns, tree: Tree, files: seq<FileDiff>)
    requires !ManifestsHeaderless(p, files)
    ensures !NoneLooksLikeHeader(PinsInDiff(p, tree, files))
  {
    var f := files[0];
    var kind, own, rest := p.kindOf(FilePath(f)), PinsInFile(p, tree, f), PinsInDiff(p, tree, files[1..]);
    if kind.Some? && !HeaderlessHunks(HunksOf(f)) {
      HeaderLikeHunkIsPinned(p, FilePath(f), kind.value, tree(FilePath(f)), HunksOf(f));
      assert forall pin :: pin in own ==> pin in own + rest;
    } else {
      HeaderLikeManifestIsPinned(p, tree, files[1..]);
      assert forall pin :: pin in rest ==> pin in own + rest;
    }
  }

  lemma SoundIsHeaderless(p: Patterns, tree: Tree, files: seq<FileDiff>)
    requires forall i :: 0 <= i < |files| ==> Sound(p, tree, files[i])
    ensures ManifestsHeaderless(p, files)
  {
    forall i, j | 0 <= i < |files| && p.kindOf(FilePath(files[i])).Some? && 0 <= j < |HunksOf(files[i])|
      ensures Headerless(HunksOf(files[i])[j].lines)
    {
      assert Sound(p, tree, files[i]);
      CountableIsHeaderless(HunksOf(files[i])[j].lines, false);
    }
  }

  /** Over a printed diff the scanner looks at exactly the added lines of manifest files, in order, under
      their true path and line number, and pairs a lockfile line with the package named last at or before
      it in the new file, exactly when no added line of a manifest looks like a header or comes after a "no
      newline" marker of its hunk, no added line of a lockfile leans on a package shown earlier that one
      not shown has overtaken, and no other file adds a line after one that names a manifest the way a
      header does. */
  lemma PinsAreTrueIff(p: Patterns, tree: Tree, files: seq<FileDiff>)
    requires MarkerIsPlain(p) && Applied(p, tree, files) && forall i :: 0 <= i < |files| ==> Named(files[i])
    ensures Walk((w, raw) => Advance(p, w, raw), BEGIN, RawDiff(files)).found == PinsInDiff(p, tree, files)
            <==> forall i :: 0 <= i < |files| ==> Sound(p, tree, files[i])
  {
    var step: Stepper := (w, raw) => Advance(p, w, raw);
    AdvanceFollows(p);
    if ManifestsHeaderless(p, files) {
      var own := DiffIsRead(p, tree, step, BEGIN, files);
      assert [] + own == own;
    } else {
      FoundIsPlain(p, step, BEGIN, RawDiff(files));
      HeaderLikeManifestIsPinned(p, tree, files);
      if forall i :: 0 <= i < |files| ==> Sound(p, tree, files[i]) { SoundIsHeaderless(p, tree, files); }
    }
  }

  // ---- A stale package --------------------------------------------------------------------------------------

  /** A lockfile of two packages, each with a line added; the diff shows the first one's key only. */
  function TwoPackages(path: string, first: string, x: string, y: string): FileDiff {
    FileDiff([], Some(Change("a/" + path, Some(path), [Hunk(1, 1, 1, 2, "", [Context(first), Added(x)]),
                                                       Hunk(2, 0, 4, 1, "", [Added(y)])])))
  }

  lemma TwoPackagesInPlace(path: string, first: string, x: string, second: string, y: string)
    ensures InPlace([first, x, second, y], 0, HunksOf(TwoPackages(path, first, x, y)))
  {
    var file, hunks := [first, x, second, y], HunksOf(TwoPackages(path, first, x, y));
    assert [Context(first), Added(x)][1..] == [Added(x)] && [Added(x)][1..] == [] && [Added(y)][1..] == [];
    assert NewSide([]) == [] && NewSide([Added(x)]) == [x] + [] && NewSide([Added(y)]) == [y] + [];
    assert NewSide(hunks[0].lines) == [first] + [x] && hunks[1..][1..] == [];
    assert file[0..2] == [first, x] && file[3..4] == [y];
  }

  lemma StaleIsSeen(p: Patterns, path: string, first: string, x: string, y: string)
    requires p.lockKey(first).Some? && p.lockKey(x).None? && p.lockKey(y).None?
    ensures SeenInHunks(p, path, PackageLock, "", HunksOf(TwoPackages(path, first, x, y))) ==
            [Pin(Place(path, 2, x), PackageLock, p.lockKey(first).value),
             Pin(Place(path, 4, y), PackageLock, p.lockKey(first).value)]
  {
    var hunks := HunksOf(TwoPackages(path, first, x, y));
    var a, b := [Context(first), Added(x)], [Added(y)];
    var key := p.lockKey(first).value;
    assert a[1..] == [Added(x)] && [Added(x)][1..] == [] && b[1..] == [];
    assert PinsSeen(p, path, PackageLock, key, 2, [Added(x)]) == [Pin(Place(path, 2, x), PackageLock, key)];
    assert PinsSeen(p, path, PackageLock, "", 1, a) == [Pin(Place(path, 2, x), PackageLock, key)];
    assert Carried(p, PackageLock, key, [Added(x)]) == key;
    assert Carried(p, PackageLock, "", a) == key;
    assert PinsSeen(p, path, PackageLock, key, 4, b) == [Pin(Place(path, 4, y), PackageLock, key)];
    assert hunks[1..][1..] == [];
    assert SeenInHunks(p, path, PackageLock, key, hunks[1..]) == [Pin(Place(path, 4, y), PackageLock, key)];
  }

  lemma StaleIsWrong(p: Patterns, path: string, first: string, x: string, second: string, y: string)
    requires p.lockKey(first).Some? && p.lockKey(second).Some? && p.lockKey(x).None? && p.lockKey(y).None?
    ensures PinsInHunks(p, path, PackageLock, [first, x, second, y], HunksOf(TwoPackages(path, first, x, y))) ==
            [Pin(Place(path, 2, x), PackageLock, p.lockKey(first).value),
             Pin(Place(path, 4, y), PackageLock, p.lockKey(second).value)]
  {
    var file, hunks := [first, x, second, y], HunksOf(TwoPackages(path, first, x, y));
    var a, b := [Context(first), Added(x)], [Added(y)];
    assert Before(file, 1) == [];
    LastKeyOfMore(p, PackageLock, file, 1);
    LastKeyOfMore(p, PackageLock, file, 2);
    LastKeyOfMore(p, PackageLock, file, 3);
    LastKeyOfMore(p, PackageLock, file, 4);
    assert a[1..] == [Added(x)] && [Added(x)][1..] == [] && b[1..] == [] && hunks[1..][1..] == [];
    assert PinsOf(p, path, PackageLock, file, 2, [Added(x)]) == [Pin(Place(path, 2, x), PackageLock, p.lockKey(first).value)];
    assert PinsOf(p, path, PackageLock, file, 4, b) == [Pin(Place(path, 4, y), PackageLock, p.lockKey(second).value)];
    assert PinsInHunks(p, path, PackageLock, file, hunks[1..]) ==
           [Pin(Place(path, 4, y), PackageLock, p.lockKey(second).value)];
  }

  lemma TwoPackagesCountable(path: string, first: string, x: string, y: string)
    requires !StartsWith(x, "++ ") && !StartsWith(y, "++ ")
    ensures CountableDiff([TwoPackages(path, first, x, y)]) && HeaderlessHunks(HunksOf(TwoPackages(path, first, x, y)))
  {
    var f := TwoPackages(path, first, x, y);
    assert [Context(first), Added(x)][1..] == [Added(x)] && [Added(x)][1..] == [] && [Added(y)][1..] == [];
    assert Countable(HunksOf(f)[0].lines, false) && Countable(HunksOf(f)[1].lines, false);
    CountableDiffIsHeaderless([f]);
    assert HeaderlessHunks(HunksOf([f][0]));
  }

  lemma OneFileIsPinned(p: Patterns, step: Stepper, f: FileDiff)
    requires Follows(p, step) && Named(f) && f.change.Some? && p.kindOf(FilePath(f)).Some? && HeaderlessHunks(HunksOf(f))
    ensures Walk(step, BEGIN, RawDiff([f])).found ==
            SeenInHunks(p, FilePath(f), p.kindOf(FilePath(f)).value, "", HunksOf(f))
  {
    var start := FileBegins(p, step, BEGIN, [f]);
    HunksArePinned(p, step, start, HunksOf(f));
    assert [f][1..] == [];
    assert [] + SeenInHunks(p, start.path, start.kind.value, "", HunksOf(f)) ==
           SeenInHunks(p, start.path, start.kind.value, "", HunksOf(f));
  }

  /** A lockfile changed in two places, of which the second does not show its key: the scanner pairs the
      second line with the first package, whatever the two are. */
  lemma StalePairing(p: Patterns, path: string, first: string, x: string, second: string, y: string)
    requires MarkerIsPlain(p) && PlainPath(path) && p.kindOf(path) == Some(PackageLock)
    requires p.lockKey(first).Some? && p.lockKey(second).Some? && p.lockKey(x).None? && p.lockKey(y).None?
    requires !StartsWith(x, "++ ") && !StartsWith(y, "++ ")
    ensures var tree: Tree := _ => [first, x, second, y];
            var files := [TwoPackages(path, first, x, y)];
            var found := Walk((w, raw) => Advance(p, w, raw), BEGIN, RawDiff(files)).found;
            && Applied(p, tree, files) && CountableDiff(files)
            && |found| == |PinsInDiff(p, tree, files)| == 2 && found[1].place == PinsInDiff(p, tree, files)[1].place
            && found[1].package == p.lockKey(first).value
            && PinsInDiff(p, tree, files)[1].package == p.lockKey(second).value
  {
    var step: Stepper := (w, raw) => Advance(p, w, raw);
    var f, tree: Tree := TwoPackages(path, first, x, y), _ => [first, x, second, y];
    TwoPackagesInPlace(path, first, x, second, y);
    AdvanceFollows(p);
    TwoPackagesCountable(path, first, x, y);
    OneFileIsPinned(p, step, f);
    StaleIsSeen(p, path, first, x, y);
    StaleIsWrong(p, path, first, x, second, y);
    assert PinsInDiff(p, tree, [f]) == PinsInFile(p, tree, f) + [];
  }
}
