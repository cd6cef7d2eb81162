/** The secrets scanner on a diff as one text: exactly when it reports added lines where they are. */
module TextPlaces {
  import opened Wrappers
  import opened Text
  import opened DiffText
  import opened DiffScan
  import opened SplitScan

  // ---- What a scanner finds among the parts ----------------------------------------------------------------

  /** The places the parts are reported at, when the line counter stands here. */
  function PartPlaces(path: string, at: nat, parts: seq<string>): seq<Place>
    decreases |parts|
  {
    if parts == [] then []
    else if NewStart(parts[0]).Some? then PartPlaces(path, NewStart(parts[0]).value, parts[1..])
    else match StandIn(parts[0])
      case Context(_) => PartPlaces(path, at + 1, parts[1..])
      case Added(text) => [Place(path, at, text)] + PartPlaces(path, at + 1, parts[1..])
      case Removed(_) => PartPlaces(path, at, parts[1..])
      case NoNewline => PartPlaces(path, at + 1, parts[1..])
  }

  /** What a line of a hunk adds at this line. */
  function Own(path: string, line: nat, l: DiffLine): seq<Place> {
    if l.Added? then [Place(path, line, l.text)] else []
  }

  /** Where the line counter stands after these lines of a hunk. */
  function EndLine(line: nat, lines: seq<DiffLine>): nat
    decreases |lines|
  {
    if lines == [] then line else EndLine(if lines[0].Removed? then line else line + 1, lines[1..])
  }

  lemma {:induction false} VisitedOneMore(path: string, line: nat, lines: seq<DiffLine>, l: DiffLine)
    ensures EndLine(line, lines + [l]) == if l.Removed? then EndLine(line, lines) else EndLine(line, lines) + 1
    ensures Visited(path, line, lines + [l]) ==
            Visited(path, line, lines) + Own(path, EndLine(line, lines), l)
    decreases |lines|
  {
    if lines == [] {
      assert lines + [l] == [l] && [l][1..] == [];
      assert Visited(path, line + 1, []) == [] && Visited(path, line, []) == [];
    } else {
      assert (lines + [l])[1..] == lines[1..] + [l];
      VisitedOneMore(path, if lines[0].Removed? then line else line + 1, lines[1..], l);
    }
  }

  lemma {:induction false} VisitedFrom(path: string, h: Hunk, parts: seq<string>)
    ensures VisitedInHunks(path, HunksFrom(h, parts)) ==
            Visited(path, h.newStart, h.lines) + PartPlaces(path, EndLine(h.newStart, h.lines), parts)
    decreases |parts|
  {
    if parts == [] {
      assert [h][1..] == [] && VisitedInHunks(path, []) == [];
    } else if NewStart(parts[0]).Some? {
      var next := BareHunk(NewStart(parts[0]).value);
      VisitedFrom(path, next, parts[1..]);
      assert ([h] + HunksFrom(next, parts[1..]))[1..] == HunksFrom(next, parts[1..]);
    } else {
      var l, at := StandIn(parts[0]), EndLine(h.newStart, h.lines);
      VisitedFrom(path, h.(lines := h.lines + [l]), parts[1..]);
      VisitedOneMore(path, h.newStart, h.lines, l);
      PlacesUnfold(path, at, parts);
      Regroup(Visited(path, h.newStart, h.lines), Own(path, at, l),
              PartPlaces(path, if l.Removed? then at else at + 1, parts[1..]));
    }
  }

  lemma PlacesUnfold(path: string, at: nat, parts: seq<string>)
    requires parts != [] && NewStart(parts[0]).None?
    ensures var l := StandIn(parts[0]);
            PartPlaces(path, at, parts) ==
            Own(path, at, l) + PartPlaces(path, if l.Removed? then at else at + 1, parts[1..])
  {
  }

  /** No part is taken for the header of a file. */
  predicate NoHeaderLike(parts: seq<string>) {
    forall i :: 0 <= i < |parts| ==> !StartsWith(parts[i], "+++ ")
  }

  lemma HeaderLikeStandIn(p: string)
    requires NewStart(p).None?
    ensures LooksLikeHeader(StandIn(p)) <==> StartsWith(p, "+++ ")
    ensures StandIn(p).Added? <==> StartsWith(p, "+")
  {
    if p != "" && p[0] == '+' {
      MarkedPart(p);
      assert p[..1] == "+" && p == "+" + p[1..];
      HeaderLikeText(p[1..]);
    } else {
      OtherStart(p, "+");
      OtherStart(p, "+++ ");
    }
  }

  lemma HeaderlessOneMore(lines: seq<DiffLine>, l: DiffLine)
    ensures Headerless(lines + [l]) <==> Headerless(lines) && !LooksLikeHeader(l)
  {
    if Headerless(lines + [l]) {
      assert (lines + [l])[|lines|] == l;
      assert forall i :: 0 <= i < |lines| ==> (lines + [l])[i] == lines[i];
    }
  }

  lemma HeaderlessFirst(h: Hunk, rest: seq<Hunk>)
    ensures HeaderlessHunks([h] + rest) <==> Headerless(h.lines) && HeaderlessHunks(rest)
  {
    if HeaderlessHunks([h] + rest) {
      assert ([h] + rest)[0] == h;
      assert forall i :: 0 <= i < |rest| ==> ([h] + rest)[i + 1] == rest[i];
    }
  }

  lemma NoHeaderLikeFirst(parts: seq<string>)
    requires parts != []
    ensures NoHeaderLike(parts) <==> !StartsWith(parts[0], "+++ ") && NoHeaderLike(parts[1..])
  {
    if NoHeaderLike(parts) {
      assert forall i :: 0 <= i < |parts[1..]| ==> parts[1..][i] == parts[i + 1];
    } else if !StartsWith(parts[0], "+++ ") {
      var i :| 0 <= i < |parts| && StartsWith(parts[i], "+++ ");
      assert parts[1..][i - 1] == parts[i];
    }
  }

  lemma {:induction false} HeaderlessFrom(h: Hunk, parts: seq<string>)
    ensures HeaderlessHunks(HunksFrom(h, parts)) <==> Headerless(h.lines) && NoHeaderLike(parts)
    decreases |parts|
  {
    if parts == [] {
      HeaderlessFirst(h, []);
      assert [h] + [] == [h];
    } else {
      NoHeaderLikeFirst(parts);
      if NewStart(parts[0]).Some? {
        var next := BareHunk(NewStart(parts[0]).value);
        HeaderPart(parts[0]);
        HeaderlessFrom(next, parts[1..]);
        HeaderlessFirst(h, HunksFrom(next, parts[1..]));
      } else {
        HeaderLikeStandIn(parts[0]);
        HeaderlessFrom(h.(lines := h.lines + [StandIn(parts[0])]), parts[1..]);
        HeaderlessOneMore(h.lines, StandIn(parts[0]));
      }
    }
  }

  /** How many parts are taken for added lines. */
  function PlusCount(parts: seq<string>): nat {
    if parts == [] then 0 else (if StartsWith(parts[0], "+") then 1 else 0) + PlusCount(parts[1..])
  }

  lemma {:induction false} AddedOneMore(lines: seq<DiffLine>, l: DiffLine)
    ensures AddedCount(lines + [l]) == AddedCount(lines) + if l.Added? then 1 else 0
  {
    if lines == [] {
      assert lines + [l] == [l] && [l][1..] == [];
    } else {
      assert (lines + [l])[1..] == lines[1..] + [l];
      AddedOneMore(lines[1..], l);
    }
  }

  lemma {:induction false} CountFrom(h: Hunk, parts: seq<string>)
    ensures HunksCount(HunksFrom(h, parts)) == AddedCount(h.lines) + PlusCount(parts)
    decreases |parts|
  {
    if parts == [] {
      assert [h][1..] == [] && HunksCount([]) == 0;
    } else if NewStart(parts[0]).Some? {
      var next := BareHunk(NewStart(parts[0]).value);
      HeaderPart(parts[0]);
      CountFrom(next, parts[1..]);
      assert ([h] + HunksFrom(next, parts[1..]))[1..] == HunksFrom(next, parts[1..]);
    } else {
      HeaderLikeStandIn(parts[0]);
      CountFrom(h.(lines := h.lines + [StandIn(parts[0])]), parts[1..]);
      AddedOneMore(h.lines, StandIn(parts[0]));
    }
  }

  // ---- The parts of the lines of a hunk ----------------------------------------------------------------------

  predicate NoPlus(parts: seq<string>) {
    forall i :: 0 <= i < |parts| ==> !StartsWith(parts[i], "+")
  }

  /** Where the line counter stands after parts that add nothing. */
  function Reach(at: nat, parts: seq<string>): nat
    decreases |parts|
  {
    if parts == [] then at
    else if NewStart(parts[0]).Some? then Reach(NewStart(parts[0]).value, parts[1..])
    else Reach(if StandIn(parts[0]).Removed? then at else at + 1, parts[1..])
  }

  lemma {:induction false} PlacesAfterParts(path: string, at: nat, parts: seq<string>, more: seq<string>)
    requires NoPlus(parts)
    ensures PartPlaces(path, at, parts + more) == PartPlaces(path, Reach(at, parts), more)
    decreases |parts|
  {
    if parts == [] {
      assert parts + more == more;
    } else {
      assert (parts + more)[1..] == parts[1..] + more;
      if NewStart(parts[0]).Some? {
        PlacesAfterParts(path, NewStart(parts[0]).value, parts[1..], more);
      } else {
        HeaderLikeStandIn(parts[0]);
        PlacesAfterParts(path, if StandIn(parts[0]).Removed? then at else at + 1, parts[1..], more);
      }
    }
  }

  lemma {:induction false} CutIsPrefix(text: string)
    ensures Cut(text) <= text
    decreases |text|
  {
    var s := text + "\n";
    if text != "" && !EndsLine(text[0]) {
      assert s[1..] == text[1..] + "\n";
      CutIsPrefix(text[1..]);
    }
  }

  lemma CutKeepsHeaders(l: DiffLine)
    ensures LooksLikeHeader(CutLine(l)) <==> LooksLikeHeader(l)
  {
    if l.Added? {
      CutIsPrefix(l.text);
      if StartsWith(l.text, "++ ") {
        assert l.text == "++ " + l.text[3..];
        PiecesAfter("++ ", l.text[3..]);
        assert ("++ " + Cut(l.text[3..]))[..3] == "++ ";
      }
    }
  }

  predicate PlusFree(lines: seq<DiffLine>) {
    forall i :: 0 <= i < |lines| ==> NoPlus(Extra(lines[i]))
  }

  /** The line counter, here when the true number is this, is right at every added line, and none looks
      like a header. */
  predicate Steady(at: nat, line: nat, lines: seq<DiffLine>)
    decreases |lines|
  {
    lines == []
    || match lines[0]
       case Context(text) => Steady(Reach(at + 1, Rest(text)), line + 1, lines[1..])
       case Added(text) =>
         at == line && !LooksLikeHeader(lines[0]) && Steady(Reach(at + 1, Rest(text)), line + 1, lines[1..])
       case Removed(text) => Steady(Reach(at, Rest(text)), line, lines[1..])
       case NoNewline => Steady(at + 1, line, lines[1..])
  }

  predicate SameSpots(a: seq<Place>, b: seq<Place>) {
    |a| == |b| && forall i :: 0 <= i < |a| ==> a[i].path == b[i].path && a[i].line == b[i].line
  }

  lemma SpotsAgreeIff(a: seq<Place>, b: seq<Place>)
    ensures Spots(a) == Spots(b) <==> SameSpots(a, b)
  {
    if Spots(a) == Spots(b) {
      assert |a| == |b|;
      forall i | 0 <= i < |a|
        ensures a[i].path == b[i].path && a[i].line == b[i].line
      {
        assert Spots(a)[i] == Spots(b)[i];
      }
    }
  }

  lemma SameSpotsBoth(a: seq<Place>, b: seq<Place>, c: seq<Place>, d: seq<Place>)
    requires |a| == |b|
    ensures SameSpots(a + c, b + d) <==> SameSpots(a, b) && SameSpots(c, d)
  {
    if SameSpots(a + c, b + d) {
      assert forall i :: 0 <= i < |a| ==> (a + c)[i] == a[i] && (b + d)[i] == b[i];
      assert |c| == |d|;
      assert forall i :: 0 <= i < |c| ==> (a + c)[|a| + i] == c[i] && (b + d)[|a| + i] == d[i];
    }
  }

  lemma LinePlaces(path: string, at: nat, lines: seq<DiffLine>)
    requires lines != [] && NoPlus(Extra(lines[0]))
    ensures var next := if lines[0].Removed? then at else at + 1;
            PartPlaces(path, at, AllPieces(RawLines(lines))) ==
            Own(path, at, CutLine(lines[0]))
            + PartPlaces(path, Reach(next, Extra(lines[0])), AllPieces(RawLines(lines[1..])))
  {
    var head, rest := RawLine(CutLine(lines[0])), Extra(lines[0]) + AllPieces(RawLines(lines[1..]));
    LineSplits(lines);
    HeadStandIn(CutLine(lines[0]));
    assert ([head] + rest)[1..] == rest;
    PlacesAfterParts(path, if lines[0].Removed? then at else at + 1, Extra(lines[0]), AllPieces(RawLines(lines[1..])));
  }

  lemma AddedUnfold(path: string, line: nat, lines: seq<DiffLine>)
    requires lines != []
    ensures AddedLines(path, line, lines) ==
            Own(path, line, lines[0])
            + AddedLines(path, if lines[0].Context? || lines[0].Added? then line + 1 else line, lines[1..])
  {
  }

  lemma {:induction false} LinesAreSteadyIff(path: string, at: nat, line: nat, lines: seq<DiffLine>)
    requires PlusFree(lines) && Headerless(lines)
    ensures |PartPlaces(path, at, AllPieces(RawLines(lines)))| == |AddedLines(path, line, lines)|
    ensures SameSpots(PartPlaces(path, at, AllPieces(RawLines(lines))), AddedLines(path, line, lines))
            <==> Steady(at, line, lines)
    decreases |lines|
  {
    if lines != [] {
      var l := lines[0];
      var at' := Reach(if l.Removed? then at else at + 1, Extra(l));
      var line' := if l.Context? || l.Added? then line + 1 else line;
      assert NoPlus(Extra(lines[0])) && !LooksLikeHeader(lines[0]);
      LinePlaces(path, at, lines);
      AddedUnfold(path, line, lines);
      LinesAreSteadyIff(path, at', line', lines[1..]);
      SameSpotsBoth(Own(path, at, CutLine(l)), Own(path, line, l),
                    PartPlaces(path, at', AllPieces(RawLines(lines[1..]))), AddedLines(path, line', lines[1..]));
      OwnSpots(path, at, line, l);
      SteadyUnfold(at, line, lines);
    }
  }

  lemma OwnSpots(path: string, at: nat, line: nat, l: DiffLine)
    ensures |Own(path, at, CutLine(l))| == |Own(path, line, l)|
    ensures SameSpots(Own(path, at, CutLine(l)), Own(path, line, l)) <==> (l.Added? ==> at == line)
  {
    if l.Added? {
      assert Own(path, at, CutLine(l))[0].line == at && Own(path, line, l)[0].line == line;
    }
  }

  lemma SteadyUnfold(at: nat, line: nat, lines: seq<DiffLine>)
    requires lines != []
    ensures var l := lines[0];
            Steady(at, line, lines) <==>
            (l.Added? ==> at == line && !LooksLikeHeader(l))
            && Steady(Reach(if l.Removed? then at else at + 1, Extra(l)),
                      if l.Context? || l.Added? then line + 1 else line, lines[1..])
  {
  }

  lemma {:induction false} PlusOfBoth(a: seq<string>, b: seq<string>)
    ensures PlusCount(a + b) == PlusCount(a) + PlusCount(b)
    decreases |a|
  {
    if a == [] {
      assert a + b == b;
    } else {
      assert (a + b)[1..] == a[1..] + b;
      PlusOfBoth(a[1..], b);
    }
  }

  lemma {:induction false} PlusOfNone(parts: seq<string>)
    ensures PlusCount(parts) == 0 <==> NoPlus(parts)
  {
    if parts != [] {
      PlusOfNone(parts[1..]);
      if NoPlus(parts[1..]) && !StartsWith(parts[0], "+") {
        assert forall i :: 0 < i < |parts| ==> parts[i] == parts[1..][i - 1];
      }
    }
  }

  /** A part with a plus is one added line too many. */
  lemma {:induction false} PlusOfLines(lines: seq<DiffLine>)
    ensures PlusCount(AllPieces(RawLines(lines))) >= AddedCount(lines)
    ensures PlusCount(AllPieces(RawLines(lines))) == AddedCount(lines) <==> PlusFree(lines)
  {
    if lines != [] {
      var head, more := [RawLine(CutLine(lines[0]))], AllPieces(RawLines(lines[1..]));
      LineSplits(lines);
      PlusOfBoth(head, Extra(lines[0]) + more);
      PlusOfBoth(Extra(lines[0]), more);
      PlusOfHead(CutLine(lines[0]));
      PlusOfNone(Extra(lines[0]));
      PlusOfLines(lines[1..]);
      PlusFreeFirst(lines);
    }
  }

  lemma PlusOfHead(l: DiffLine)
    ensures PlusCount([RawLine(l)]) == if l.Added? then 1 else 0
  {
    HeadStandIn(l);
    HeaderLikeStandIn(RawLine(l));
    assert PlusCount([RawLine(l)][1..]) == 0;
  }

  lemma PlusFreeFirst(lines: seq<DiffLine>)
    requires lines != []
    ensures PlusFree(lines) <==> NoPlus(Extra(lines[0])) && PlusFree(lines[1..])
  {
    if NoPlus(Extra(lines[0])) && PlusFree(lines[1..]) {
      assert forall i :: 0 < i < |lines| ==> lines[i] == lines[1..][i - 1];
    }
  }

  lemma NoHeaderLikeBoth(a: seq<string>, b: seq<string>)
    ensures NoHeaderLike(a + b) <==> NoHeaderLike(a) && NoHeaderLike(b)
  {
    if NoHeaderLike(a + b) {
      assert forall i :: 0 <= i < |a| ==> (a + b)[i] == a[i];
      assert forall i :: 0 <= i < |b| ==> (a + b)[|a| + i] == b[i];
    }
  }

  lemma NoPlusNoHeader(parts: seq<string>)
    requires NoPlus(parts)
    ensures NoHeaderLike(parts)
  {
    forall i | 0 <= i < |parts|
      ensures !StartsWith(parts[i], "+++ ")
    {
      HeaderLikeIsPlus(parts[i]);
    }
  }

  lemma HeaderLikeIsPlus(p: string)
    ensures StartsWith(p, "+++ ") ==> StartsWith(p, "+")
  {
    if p == "" || p[0] != '+' {
      OtherStart(p, "+++ ");
    } else {
      assert p[..1] == "+";
    }
  }

  lemma {:induction false} HeaderlessPieces(lines: seq<DiffLine>)
    requires PlusFree(lines)
    ensures NoHeaderLike(AllPieces(RawLines(lines))) <==> Headerless(lines)
  {
    if lines != [] {
      var l, head := lines[0], RawLine(CutLine(lines[0]));
      LineSplits(lines);
      PlusFreeFirst(lines);
      NoHeaderLikeBoth([head], Extra(l) + AllPieces(RawLines(lines[1..])));
      NoHeaderLikeBoth(Extra(l), AllPieces(RawLines(lines[1..])));
      NoPlusNoHeader(Extra(l));
      HeaderlessPieces(lines[1..]);
      HeadStandIn(CutLine(l));
      HeaderLikeStandIn(head);
      CutKeepsHeaders(l);
      assert [head][0] == head;
      HeaderlessOneFirst(lines);
    }
  }

  lemma HeaderlessOneFirst(lines: seq<DiffLine>)
    requires lines != []
    ensures Headerless(lines) <==> !LooksLikeHeader(lines[0]) && Headerless(lines[1..])
  {
    if !LooksLikeHeader(lines[0]) && Headerless(lines[1..]) {
      assert forall i :: 0 < i < |lines| ==> lines[i] == lines[1..][i - 1];
    }
  }

  // ---- When the text is read right ------------------------------------------------------------------------------

  /** No part of a line or section heading of the hunk, beyond its first, starts with a plus. */
  predicate PlusFreeHunk(h: Hunk) {
    NoPlus(Rest(h.section)) && PlusFree(h.lines)
  }

  predicate SteadyHunk(h: Hunk) {
    Steady(Reach(h.newStart, Rest(h.section)), h.newStart, h.lines)
  }

  /** The places found in the hunks a hunk is taken for. */
  lemma HunkIsSeen(path: string, h: Hunk)
    ensures var seen := HunksFrom(CutHunk(h), Parts(h));
            && VisitedInHunks(path, seen) == PartPlaces(path, h.newStart, Parts(h))
            && (HeaderlessHunks(seen) <==> NoHeaderLike(Parts(h)))
            && HunksCount(seen) == PlusCount(Parts(h)) >= AddedCount(h.lines)
            && (PlusCount(Parts(h)) == AddedCount(h.lines) <==> PlusFreeHunk(h))
  {
    VisitedFrom(path, CutHunk(h), Parts(h));
    assert [] + PartPlaces(path, h.newStart, Parts(h)) == PartPlaces(path, h.newStart, Parts(h));
    HeaderlessFrom(CutHunk(h), Parts(h));
    CountFrom(CutHunk(h), Parts(h));
    PlusOfBoth(Rest(h.section), AllPieces(RawLines(h.lines)));
    PlusOfNone(Rest(h.section));
    PlusOfLines(h.lines);
  }

  lemma HunkIsSteadyIff(path: string, h: Hunk)
    requires PlusFreeHunk(h)
    ensures NoHeaderLike(Parts(h)) <==> Headerless(h.lines)
    ensures Headerless(h.lines) ==>
              && |PartPlaces(path, h.newStart, Parts(h))| == |AddedLines(path, h.newStart, h.lines)|
              && (SameSpots(PartPlaces(path, h.newStart, Parts(h)), AddedLines(path, h.newStart, h.lines)) <==> SteadyHunk(h))
    ensures SteadyHunk(h) ==> Headerless(h.lines)
  {
    NoHeaderLikeBoth(Rest(h.section), AllPieces(RawLines(h.lines)));
    NoPlusNoHeader(Rest(h.section));
    HeaderlessPieces(h.lines);
    PlacesAfterParts(path, h.newStart, Rest(h.section), AllPieces(RawLines(h.lines)));
    if Headerless(h.lines) { LinesAreSteadyIff(path, Reach(h.newStart, Rest(h.section)), h.newStart, h.lines); }
    if SteadyHunk(h) { SteadyIsHeaderless(Reach(h.newStart, Rest(h.section)), h.newStart, h.lines); }
  }

  lemma {:induction false} SteadyIsHeaderless(at: nat, line: nat, lines: seq<DiffLine>)
    requires Steady(at, line, lines)
    ensures Headerless(lines)
    decreases |lines|
  {
    if lines != [] {
      var l := lines[0];
      SteadyUnfold(at, line, lines);
      SteadyIsHeaderless(Reach(if l.Removed? then at else at + 1, Extra(l)),
                         if l.Context? || l.Added? then line + 1 else line, lines[1..]);
      HeaderlessOneFirst(lines);
    }
  }

  predicate PlusFreeHunks(hunks: seq<Hunk>) {
    forall i :: 0 <= i < |hunks| ==> PlusFreeHunk(hunks[i])
  }

  predicate SteadyHunks(hunks: seq<Hunk>) {
    forall i :: 0 <= i < |hunks| ==> SteadyHunk(hunks[i])
  }

  predicate NoHeaderLikeHunks(hunks: seq<Hunk>) {
    forall i :: 0 <= i < |hunks| ==> NoHeaderLike(Parts(hunks[i]))
  }

  lemma FirstOfHunks(hunks: seq<Hunk>)
    requires hunks != []
    ensures PlusFreeHunks(hunks) <==> PlusFreeHunk(hunks[0]) && PlusFreeHunks(hunks[1..])
    ensures SteadyHunks(hunks) <==> SteadyHunk(hunks[0]) && SteadyHunks(hunks[1..])
    ensures NoHeaderLikeHunks(hunks) <==> NoHeaderLike(Parts(hunks[0])) && NoHeaderLikeHunks(hunks[1..])
  {
    assert forall i :: 0 < i < |hunks| ==> hunks[i] == hunks[1..][i - 1];
    assert forall i :: 0 <= i < |hunks[1..]| ==> hunks[1..][i] == hunks[i + 1];
  }

  lemma {:induction false} HunksOfBoth(path: string, a: seq<Hunk>, b: seq<Hunk>)
    ensures VisitedInHunks(path, a + b) == VisitedInHunks(path, a) + VisitedInHunks(path, b)
    ensures HunksCount(a + b) == HunksCount(a) + HunksCount(b)
    ensures HeaderlessHunks(a + b) <==> HeaderlessHunks(a) && HeaderlessHunks(b)
    decreases |a|
  {
    if a == [] {
      assert a + b == b;
    } else {
      assert (a + b)[1..] == a[1..] + b;
      HunksOfBoth(path, a[1..], b);
      Regroup(Visited(path, a[0].newStart, a[0].lines), VisitedInHunks(path, a[1..]), VisitedInHunks(path, b));
      HeaderlessFirst(a[0], a[1..] + b);
      HeaderlessFirst(a[0], a[1..]);
      assert [a[0]] + (a[1..] + b) == a + b && [a[0]] + a[1..] == a;
    }
  }

  lemma {:induction false} HunksAreSeen(path: string, hunks: seq<Hunk>)
    ensures HeaderlessHunks(SeenHunks(hunks)) <==> NoHeaderLikeHunks(hunks)
    ensures HunksCount(SeenHunks(hunks)) >= HunksCount(hunks)
    ensures HunksCount(SeenHunks(hunks)) == HunksCount(hunks) <==> PlusFreeHunks(hunks)
  {
    if hunks != [] {
      HunkIsSeen(path, hunks[0]);
      HunksOfBoth(path, HunksFrom(CutHunk(hunks[0]), Parts(hunks[0])), SeenHunks(hunks[1..]));
      HunksAreSeen(path, hunks[1..]);
      FirstOfHunks(hunks);
    }
  }

  lemma {:induction false} HunksAreSteadyIff(path: string, hunks: seq<Hunk>)
    requires PlusFreeHunks(hunks) && NoHeaderLikeHunks(hunks)
    ensures |VisitedInHunks(path, SeenHunks(hunks))| == |AddedInHunks(path, hunks)|
    ensures SameSpots(VisitedInHunks(path, SeenHunks(hunks)), AddedInHunks(path, hunks)) <==> SteadyHunks(hunks)
  {
    if hunks != [] {
      var h := hunks[0];
      FirstOfHunks(hunks);
      HunkIsSeen(path, h);
      HunkIsSteadyIff(path, h);
      HunksOfBoth(path, HunksFrom(CutHunk(h), Parts(h)), SeenHunks(hunks[1..]));
      HunksAreSteadyIff(path, hunks[1..]);
      SameSpotsBoth(PartPlaces(path, h.newStart, Parts(h)), AddedLines(path, h.newStart, h.lines),
                    VisitedInHunks(path, SeenHunks(hunks[1..])), AddedInHunks(path, hunks[1..]));
    }
  }

  lemma SteadyHunksAreHeaderless(hunks: seq<Hunk>)
    requires PlusFreeHunks(hunks) && SteadyHunks(hunks)
    ensures NoHeaderLikeHunks(hunks)
  {
    forall i | 0 <= i < |hunks|
      ensures NoHeaderLike(Parts(hunks[i]))
    {
      HunkIsSteadyIff("", hunks[i]);
    }
  }

  /** No further part of any line or section heading starts with a plus. */
  predicate PlusFreeDiff(files: seq<FileDiff>) {
    forall i :: 0 <= i < |files| ==> PlusFreeHunks(HunksOf(files[i]))
  }

  /** Whatever the parts of the lines do to the counter, it is right at every added line. */
  predicate SteadyDiff(files: seq<FileDiff>) {
    forall i :: 0 <= i < |files| ==> SteadyHunks(HunksOf(files[i]))
  }

  /** No part of any line looks like the header of a file. */
  predicate NoHeaderLikeDiff(files: seq<FileDiff>) {
    forall i :: 0 <= i < |files| ==> NoHeaderLikeHunks(HunksOf(files[i]))
  }

  lemma FirstOfFiles(files: seq<FileDiff>)
    requires files != []
    ensures PlusFreeDiff(files) <==> PlusFreeHunks(HunksOf(files[0])) && PlusFreeDiff(files[1..])
    ensures SteadyDiff(files) <==> SteadyHunks(HunksOf(files[0])) && SteadyDiff(files[1..])
    ensures NoHeaderLikeDiff(files) <==> NoHeaderLikeHunks(HunksOf(files[0])) && NoHeaderLikeDiff(files[1..])
  {
    assert forall i :: 0 < i < |files| ==> files[i] == files[1..][i - 1];
    assert forall i :: 0 <= i < |files[1..]| ==> files[1..][i] == files[i + 1];
  }

  lemma {:induction false} DiffIsSeen(files: seq<FileDiff>)
    ensures DiffCount(SeenDiff(files)) >= DiffCount(files)
    ensures DiffCount(SeenDiff(files)) == DiffCount(files) <==> PlusFreeDiff(files)
  {
    if files != [] {
      HunksAreSeen("", HunksOf(files[0]));
      DiffIsSeen(files[1..]);
      FirstOfFiles(files);
      assert SeenDiff(files)[1..] == SeenDiff(files[1..]);
    }
  }

  lemma SeenIsHeaderlessIff(files: seq<FileDiff>)
    ensures HeaderlessDiff(SeenDiff(files)) <==> NoHeaderLikeDiff(files)
  {
    forall i | 0 <= i < |files|
      ensures HeaderlessHunks(HunksOf(SeenDiff(files)[i])) <==> NoHeaderLikeHunks(HunksOf(files[i]))
    {
      HunksAreSeen("", HunksOf(files[i]));
    }
  }

  lemma FirstFileIsSeen(files: seq<FileDiff>)
    requires files != []
    ensures VisitedInDiff(SeenDiff(files)) ==
            VisitedInHunks(FilePath(files[0]), SeenHunks(HunksOf(files[0]))) + VisitedInDiff(SeenDiff(files[1..]))
  {
    assert SeenDiff(files)[1..] == SeenDiff(files[1..]);
  }

  lemma {:induction false} DiffIsSteadyIff(files: seq<FileDiff>)
    requires PlusFreeDiff(files) && NoHeaderLikeDiff(files)
    ensures |VisitedInDiff(SeenDiff(files))| == |AddedInDiff(files)|
    ensures SameSpots(VisitedInDiff(SeenDiff(files)), AddedInDiff(files)) <==> SteadyDiff(files)
  {
    if files != [] {
      var f := files[0];
      FirstOfFiles(files);
      HunksAreSteadyIff(FilePath(f), HunksOf(f));
      DiffIsSteadyIff(files[1..]);
      FirstFileIsSeen(files);
      SameSpotsBoth(VisitedInHunks(FilePath(f), SeenHunks(HunksOf(f))), AddedInHunks(FilePath(f), HunksOf(f)),
                    VisitedInDiff(SeenDiff(files[1..])), AddedInDiff(files[1..]));
    }
  }

  lemma SteadyIsNoHeader(files: seq<FileDiff>)
    requires PlusFreeDiff(files) && SteadyDiff(files)
    ensures NoHeaderLikeDiff(files)
  {
    forall i | 0 <= i < |files|
      ensures NoHeaderLikeHunks(HunksOf(files[i]))
    {
      SteadyHunksAreHeaderless(HunksOf(files[i]));
    }
  }

  /** Without header-like parts as many places are found as there are parts with a plus: a further one is
      one too many. */
  lemma PlusIsFound(files: seq<FileDiff>)
    requires (forall i :: 0 <= i < |files| ==> Splittable(files[i])) && NoHeaderLikeDiff(files)
    ensures var found := Scan(RawDiff(SeenDiff(files))).found;
            && found == VisitedInDiff(SeenDiff(files))
            && (|found| == |AddedInDiff(files)| ==> PlusFreeDiff(files))
  {
    var seen := SeenDiff(files);
    StepFollows();
    SeenIsHeaderlessIff(files);
    DiffIsVisited(Step, START, seen);
    assert [] + VisitedInDiff(seen) == VisitedInDiff(seen);
    DiffIsSeen(files);
    CountOfDiff(files);
    CountOfDiff(seen);
    DiffSameTexts(seen);
  }

  /** Without parts with a plus one that looks like a header is one place too few. */
  lemma HeaderLikeIsMissed(files: seq<FileDiff>)
    requires forall i :: 0 <= i < |files| ==> Splittable(files[i])
    requires PlusFreeDiff(files) && !NoHeaderLikeDiff(files)
    ensures |Scan(RawDiff(SeenDiff(files))).found| < |AddedInDiff(files)|
  {
    StepFollows();
    SeenIsHeaderlessIff(files);
    DiffMisses(Step, START, SeenDiff(files));
    DiffIsSeen(files);
    CountOfDiff(files);
  }

  /** Over the text of a printed diff, whatever its lines are split at, the scanner looks at every added line
      once, in order, with its true path and new-file line number if no further part of a line starts with
      a plus, no added text starts with "++ ", and the counter is right at every added line; and only then,
      unless a part that adds a line and one that hides a line come together. */
  lemma TextPlacesAreTrueIff(files: seq<FileDiff>)
    requires forall i :: 0 <= i < |files| ==> Splittable(files[i])
    ensures var right := Spots(Scan(SplitLines(Unlines(RawDiff(files)))).found) == Spots(AddedInDiff(files));
            && (PlusFreeDiff(files) && SteadyDiff(files) ==> right)
            && (right && (PlusFreeDiff(files) || NoHeaderLikeDiff(files)) ==> PlusFreeDiff(files) && SteadyDiff(files))
  {
    StepReads();
    TextReadsAsSeen(Step, START, files);
    SpotsAgreeIff(Scan(RawDiff(SeenDiff(files))).found, AddedInDiff(files));
    if NoHeaderLikeDiff(files) {
      PlusIsFound(files);
      if PlusFreeDiff(files) { DiffIsSteadyIff(files); }
    } else if PlusFreeDiff(files) {
      HeaderLikeIsMissed(files);
      if SteadyDiff(files) { SteadyIsNoHeader(files); }
    }
  }

  // ---- Two wrongs can make a right --------------------------------------------------------------------------------

  const SPLIT_TEXT := "x\U{0C}+y"

  lemma SplitTextSplits()
    ensures Cut(SPLIT_TEXT) == "x" && Rest(SPLIT_TEXT) == ["+y"]
  {
    SplitAtEnd("x", '\U{0C}', "+y\n");
    SplitAtEnd("+y", '\n', "");
    assert SPLIT_TEXT + "\n" == "x" + ['\U{0C}'] + "+y\n" && "+y" + ['\n'] + "" == "+y\n";
    assert SplitLines("") == [];
  }

  /** A hunk that adds a line like the header of its own file and removes one that splits. */
  function Cancelling(path: string): Hunk {
    Hunk(1, 1, 1, 1, "", [Added("++ b/" + path), Removed(SPLIT_TEXT)])
  }

  lemma CancellingPieces(path: string)
    requires OneLine(path)
    ensures Parts(Cancelling(path)) == ["+++ b/" + path, "-x", "+y"]
  {
    var lines := Cancelling(path).lines;
    assert lines[1..] == [Removed(SPLIT_TEXT)] && lines[1..][1..] == [] && AllPieces(RawLines([])) == [];
    LineSplits(lines);
    LineSplits(lines[1..]);
    SplitTextSplits();
    PiecesOfOneLine("++ b/" + path);
    PiecesOfOneLine("");
    assert "+" + ("++ b/" + path) == "+++ b/" + path && "-" + "x" == "-x";
    assert AllPieces(RawLines(lines[1..])) == ["-x", "+y"];
    assert Extra(lines[0]) == [] && Cut(lines[0].text) == "++ b/" + path;
    assert AllPieces(RawLines(lines)) == ["+++ b/" + path] + ["-x", "+y"];
  }

  lemma WalkToHunk(s: State, path: string)
    requires PlainPath(path) && OneLine(path)
    ensures Walk(Step, s, Opened(CutHunk(Cancelling(path))) + Parts(Cancelling(path))).found ==
            s.found + [Place(path, 1, "y")]
  {
    var h := Cancelling(path);
    CancellingPieces(path);
    WalkBoth(Step, s, Opened(CutHunk(h)), Parts(h));
    assert Opened(CutHunk(h)) == [HunkHeader(CutHunk(h))];
    WalkSingle(Step, s, HunkHeader(CutHunk(h)));
    StepOfHeader(s, CutHunk(h));
    WalkThree(Step, s.(newLine := 1), "+++ b/" + path, "-x", "+y");
    NewNameRoundTrip(Some(path));
    StepOfOther(State(path, 1, s.found), Removed("x"));
    OtherStart("y", "++ ");
    StepOfAdded(State(path, 1, s.found), "y");
  }

  lemma WalkToCancelling(c: Change)
    requires c.newPath.Some? && PlainPath(c.newPath.value) && OneLine(c.newPath.value) && OneLine(c.oldName)
    requires c.hunks == [Cancelling(c.newPath.value)]
    ensures Scan(AllPieces(RawChange(c))).found == [] + [Place(c.newPath.value, 1, "y")]
  {
    NamesSplit(c);
    HunkSplits(c.hunks);
    assert c.hunks[1..] == [] && AllPieces(RawHunks([])) == [];
    var minus, plus, rest := "--- " + c.oldName, NewNameLine(c.newPath), Opened(CutHunk(c.hunks[0])) + Parts(c.hunks[0]);
    assert AllPieces(RawChange(c)) == ([minus] + [plus]) + rest;
    WalkBoth(Step, START, [minus] + [plus], rest);
    WalkBoth(Step, START, [minus], [plus]);
    WalkSingle(Step, START, minus);
    WalkSingle(Step, START, plus);
    StepOfNames(START, c);
    WalkToHunk(START.(path := c.newPath.value), c.newPath.value);
  }

  /** With an added line that is taken for a header and a part that is taken for an added line, the spots
      can be right although both were misread. */
  lemma TwoWrongsCancel(path: string)
    requires PlainPath(path) && OneLine(path)
    ensures var files := [FileDiff([], Some(Change(path, Some(path), [Cancelling(path)])))];
            && Splittable(files[0]) && !PlusFreeDiff(files)
            && Spots(Scan(SplitLines(Unlines(RawDiff(files)))).found) == Spots(AddedInDiff(files))
  {
    var c := Change(path, Some(path), [Cancelling(path)]);
    var files := [FileDiff([], Some(c))];
    SplitOfUnlines(RawDiff(files));
    assert RawDiff(files) == RawChange(c) by { assert files[1..] == [] && [] + RawChange(c) + [] == RawChange(c); }
    WalkToCancelling(c);
    CancellingSpots(path);
    SplitTextSplits();
    assert StartsWith(Extra(Cancelling(path).lines[1])[0], "+");
    assert !PlusFree(HunksOf(files[0])[0].lines);
  }

  lemma CancellingSpots(path: string)
    ensures var files := [FileDiff([], Some(Change(path, Some(path), [Cancelling(path)])))];
            Spots(AddedInDiff(files)) == Spots([] + [Place(path, 1, "y")])
  {
    var files := [FileDiff([], Some(Change(path, Some(path), [Cancelling(path)])))];
    var lines := Cancelling(path).lines;
    assert files[1..] == [] && HunksOf(files[0])[1..] == [] && lines[1..][1..] == [];
    assert AddedLines(path, 2, lines[1..]) == [] && AddedInDiff([]) == [] && AddedInHunks(path, []) == [];
    assert AddedInHunks(path, HunksOf(files[0])) == [Place(path, 1, "++ b/" + path)];
    assert AddedInDiff(files) == [Place(path, 1, "++ b/" + path)];
  }
}
