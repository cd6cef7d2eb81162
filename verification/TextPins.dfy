/** The dependency scanner on a diff as one text, also one with CRLF line ends. */
module TextPins {
  import opened DiffText
  import opened DiffScan
  import opened SplitScan
  import opened DependencyScan

  // ---- The scanner reads the parts --------------------------------------------------------------------

  lemma UnmarkedAdvance(p: Patterns, w: Walker, part: string)
    requires MarkerIsPlain(p) && NewStart(part).None? && (part == "" || (part[0] != '+' && part[0] != '-'))
    ensures Advance(p, w, part) == Advance(p, w, RawLine(StandIn(part)))
  {
    UnmarkedPart(part);
    AdvanceOfLine(p, w, StandIn(part));
    if part == RawLine(NoNewline) { AdvanceOfLine(p, w, NoNewline); }
  }

  lemma HeaderAdvance(p: Patterns, w: Walker, part: string)
    requires NewStart(part).Some?
    ensures Advance(p, w, part) == Advance(p, w, HunkHeader(BareHunk(NewStart(part).value)))
  {
    HeaderPart(part);
    AdvanceOfHeader(p, w, BareHunk(NewStart(part).value));
  }

  lemma AdvanceReads(p: Patterns)
    requires MarkerIsPlain(p)
    ensures Reads((w, raw) => Advance(p, w, raw))
  {
    var step: Stepper := (w, raw) => Advance(p, w, raw);
    forall w: Walker, part | NewStart(part).None?
      ensures step(w, part) == step(w, RawLine(StandIn(part)))
    {
      if part != "" && (part[0] == '+' || part[0] == '-') {
        MarkedPart(part);
      } else {
        UnmarkedAdvance(p, w, part);
      }
    }
    forall w: Walker, part | NewStart(part).Some?
      ensures step(w, part) == step(w, HunkHeader(BareHunk(NewStart(part).value)))
    {
      HeaderAdvance(p, w, part);
    }
  }

  // ---- Lines that are only cut ----------------------------------------------------------------------------

  /** Nothing but a carriage return is cut off the lines and section headings. */
  predicate Whole(h: Hunk) {
    Rest(h.section) == [] && forall i :: 0 <= i < |h.lines| ==> Extra(h.lines[i]) == []
  }

  predicate WholeDiff(files: seq<FileDiff>) {
    forall i, j :: 0 <= i < |files| && 0 <= j < |HunksOf(files[i])| ==> Whole(HunksOf(files[i])[j])
  }

  function CutAll(texts: seq<string>): (cut: seq<string>)
    ensures |cut| == |texts| && forall i :: 0 <= i < |texts| ==> cut[i] == Cut(texts[i])
  {
    if texts == [] then [] else [Cut(texts[0])] + CutAll(texts[1..])
  }

  /** The new files with their lines cut. */
  function CutTree(tree: Tree): Tree {
    path => CutAll(tree(path))
  }

  function CutLines(lines: seq<DiffLine>): seq<DiffLine> {
    if lines == [] then [] else [CutLine(lines[0])] + CutLines(lines[1..])
  }

  lemma {:induction false} WholePieces(lines: seq<DiffLine>)
    requires forall i :: 0 <= i < |lines| ==> Extra(lines[i]) == []
    ensures AllPieces(RawLines(lines)) == RawLines(CutLines(lines))
  {
    if lines != [] {
      LineSplits(lines);
      assert Extra(lines[0]) == [];
      WholePieces(lines[1..]);
      assert CutLines(lines)[1..] == CutLines(lines[1..]);
      assert [] + AllPieces(RawLines(lines[1..])) == AllPieces(RawLines(lines[1..]));
    }
  }

  lemma {:induction false} HunkFromLines(h: Hunk, lines: seq<DiffLine>)
    ensures HunksFrom(h, RawLines(lines)) == [h.(lines := h.lines + lines)]
    decreases |lines|
  {
    if lines == [] {
      assert h.lines + [] == h.lines;
    } else {
      HeadStandIn(lines[0]);
      HunkFromFirst(h, RawLine(lines[0]), RawLines(lines[1..]));
      HunkFromLines(h.(lines := h.lines + [lines[0]]), lines[1..]);
      assert h.lines + [lines[0]] + lines[1..] == h.lines + lines;
    }
  }

  lemma HunkFromFirst(h: Hunk, part: string, rest: seq<string>)
    requires NewStart(part).None?
    ensures HunksFrom(h, [part] + rest) == HunksFrom(h.(lines := h.lines + [StandIn(part)]), rest)
  {
    assert ([part] + rest)[1..] == rest;
  }

  /** The hunk the scanner sees. */
  function Trimmed(h: Hunk): Hunk {
    CutHunk(h).(lines := CutLines(h.lines))
  }

  lemma WholeIsSeen(h: Hunk)
    requires Whole(h)
    ensures HunksFrom(CutHunk(h), Parts(h)) == [Trimmed(h)]
  {
    WholePieces(h.lines);
    assert Parts(h) == RawLines(CutLines(h.lines));
    HunkFromLines(CutHunk(h), CutLines(h.lines));
    assert [] + CutLines(h.lines) == CutLines(h.lines);
  }

  lemma {:induction false} NewSideIsCut(lines: seq<DiffLine>)
    ensures NewSide(CutLines(lines)) == CutAll(NewSide(lines))
  {
    if lines != [] {
      NewSideIsCut(lines[1..]);
      assert CutLines(lines)[1..] == CutLines(lines[1..]);
      if lines[0].Context? || lines[0].Added? {
        assert ([lines[0].text] + NewSide(lines[1..]))[1..] == NewSide(lines[1..]);
      }
    }
  }

  lemma TrimmedStands(file: seq<string>, h: Hunk)
    requires StandsIn(file, h.newStart, h.lines)
    ensures StandsIn(CutAll(file), h.newStart, Trimmed(h).lines)
  {
    NewSideIsCut(h.lines);
    var side, at := NewSide(h.lines), h.newStart - 1;
    if side != [] {
      forall k | 0 <= k < |side|
        ensures CutAll(file)[at..at + |side|][k] == CutAll(side)[k]
      {
        assert file[at..at + |side|][k] == side[k];
      }
    }
  }

  lemma {:induction false} TrimmedInPlace(file: seq<string>, after: nat, hunks: seq<Hunk>)
    requires InPlace(file, after, hunks) && forall i :: 0 <= i < |hunks| ==> Whole(hunks[i])
    ensures InPlace(CutAll(file), after, SeenHunks(hunks))
    decreases |hunks|
  {
    if hunks != [] {
      assert Whole(hunks[0]);
      RestInPlace(file, after, hunks);
      TrimmedInPlace(file, NextFree(after, hunks[0]), hunks[1..]);
      FirstTrimmed(file, after, hunks[0], SeenHunks(hunks[1..]));
    }
  }

  lemma FirstTrimmed(file: seq<string>, after: nat, h: Hunk, rest: seq<Hunk>)
    requires Whole(h) && StandsIn(file, h.newStart, h.lines) && (NewSide(h.lines) != [] ==> after < h.newStart)
    requires InPlace(CutAll(file), NextFree(after, h), rest)
    ensures InPlace(CutAll(file), after, HunksFrom(CutHunk(h), Parts(h)) + rest)
  {
    WholeIsSeen(h);
    TrimmedStands(file, h);
    NewSideIsCut(h.lines);
    FirstInPlace(CutAll(file), after, Trimmed(h), rest);
  }

  /** The last line of the new file that is taken, after one more hunk. */
  function NextFree(after: nat, h: Hunk): nat {
    if NewSide(h.lines) == [] || h.newStart == 0 then after else h.newStart - 1 + |NewSide(h.lines)|
  }

  lemma RestInPlace(file: seq<string>, after: nat, hunks: seq<Hunk>)
    requires hunks != [] && InPlace(file, after, hunks)
    ensures StandsIn(file, hunks[0].newStart, hunks[0].lines)
    ensures NewSide(hunks[0].lines) != [] ==> after < hunks[0].newStart
    ensures InPlace(file, NextFree(after, hunks[0]), hunks[1..])
  {
  }

  lemma FirstInPlace(file: seq<string>, after: nat, h: Hunk, rest: seq<Hunk>)
    requires StandsIn(file, h.newStart, h.lines) && (NewSide(h.lines) != [] ==> after < h.newStart)
    requires InPlace(file, NextFree(after, h), rest)
    ensures InPlace(file, after, [h] + rest)
  {
    assert ([h] + rest)[1..] == rest;
  }

  lemma SeenIsApplied(p: Patterns, tree: Tree, files: seq<FileDiff>)
    requires Applied(p, tree, files) && WholeDiff(files)
    ensures Applied(p, CutTree(tree), SeenDiff(files))
  {
    forall i | 0 <= i < |files| && p.kindOf(FilePath(files[i])).Some?
      ensures InPlace(CutTree(tree)(FilePath(files[i])), 0, HunksOf(SeenDiff(files)[i]))
    {
      TrimmedInPlace(tree(FilePath(files[i])), 0, HunksOf(files[i]));
    }
  }

  /** Over the text of a printed diff off whose lines at most a carriage return is cut, the scanner finds the
      pins of the diff and the new files as cut exactly when each file of it is sound. */
  lemma TextPinsAreTrueIff(p: Patterns, tree: Tree, files: seq<FileDiff>)
    requires MarkerIsPlain(p) && Applied(p, tree, files) && WholeDiff(files)
    requires forall i :: 0 <= i < |files| ==> Splittable(files[i])
    ensures Walk((w, raw) => Advance(p, w, raw), BEGIN, SplitLines(Unlines(RawDiff(files)))).found ==
            PinsInDiff(p, CutTree(tree), SeenDiff(files))
            <==> forall i :: 0 <= i < |files| ==> Sound(p, CutTree(tree), SeenFile(files[i]))
  {
    AdvanceReads(p);
    TextReadsAsSeen((w, raw) => Advance(p, w, raw), BEGIN, files);
    SeenIsApplied(p, tree, files);
    PinsAreTrueIff(p, CutTree(tree), SeenDiff(files));
    assert forall i :: 0 <= i < |files| ==> SeenDiff(files)[i] == SeenFile(files[i]);
  }
}
