/** Cutting a file into chunks for the search index without losing a line of text. */
module Chunker {
  import opened Text
  import opened Wrappers

  const CHUNK_LINES := 60
  const OVERLAP_LINES := 10
  const STEP := CHUNK_LINES - OVERLAP_LINES
  const MAX_DEFINITION_LINES := 200

  datatype Chunk = Chunk(startLine: nat, endLine: nat, content: string)

  /** Lines first to last, counted from 1, both included. */
  datatype Range = Range(first: nat, last: nat)

  /** A top-level definition of the syntax tree. */
  type Definition = Range

  /** A range of lines of this file. */
  predicate Within(lines: seq<string>, r: Range) {
    1 <= r.first <= r.last <= |lines|
  }

  /** Lines first to last as a slice that, like the source's, stops at the end of the list. */
  function LinesOf(lines: seq<string>, r: Range): seq<string> {
    if 1 <= r.first <= r.last <= |lines| then lines[r.first - 1..r.last]
    else if 1 <= r.first <= |lines| < r.last then lines[r.first - 1..]
    else []
  }

  function TextOf(lines: seq<string>, r: Range): string {
    Strip(Join(LinesOf(lines, r), "\n"))
  }

  /** The text of every range of a file. */
  function Reader(lines: seq<string>): Range -> string {
    (r: Range) => TextOf(lines, r)
  }

  /** The range as one chunk, or nothing when it has no text. */
  function OneChunk(text: Range -> string, r: Range): seq<Chunk> {
    if text(r) == "" then [] else [Chunk(r.first, r.last, text(r))]
  }

  /** One chunk for each range that has text in it. */
  function ChunksOf(text: Range -> string, ranges: seq<Range>): seq<Chunk> {
    if ranges == [] then [] else OneChunk(text, ranges[0]) + ChunksOf(text, ranges[1..])
  }

  lemma {:induction false} ChunksOfBoth(text: Range -> string, a: seq<Range>, b: seq<Range>)
    ensures ChunksOf(text, a + b) == ChunksOf(text, a) + ChunksOf(text, b)
  {
    if a == [] {
      assert a + b == b;
    } else {
      assert (a + b)[1..] == a[1..] + b;
      ChunksOfBoth(text, a[1..], b);
    }
  }

  // ---- Windows ------------------------------------------------------------------------------------

  /** The overlapping windows over a range. */
  function Windows(r: Range): (windows: seq<Range>)
    requires 1 <= r.first <= r.last
    ensures windows != []
    ensures forall i :: 0 <= i < |windows| ==> r.first <= windows[i].first <= windows[i].last <= r.last
    decreases r.last - r.first
  {
    if r.first + CHUNK_LINES > r.last then [r]
    else [Range(r.first, r.first + CHUNK_LINES - 1)] + Windows(Range(r.first + STEP, r.last))
  }

  /** Adjacent windows share exactly ten lines, every window but the last has sixty, and each goes past
      the one before. */
  lemma {:induction false} WindowsOverlap(r: Range, i: nat)
    requires 1 <= r.first <= r.last && i + 1 < |Windows(r)|
    ensures var a, b := Windows(r)[i], Windows(r)[i + 1];
            && a.last - b.first + 1 == OVERLAP_LINES
            && a.last - a.first + 1 == CHUNK_LINES
            && a.last < b.last
    decreases i
  {
    if i > 0 { WindowsOverlap(Range(r.first + STEP, r.last), i - 1); }
  }

  ghost predicate Covered(ranges: seq<Range>, n: nat) {
    exists i :: 0 <= i < |ranges| && ranges[i].first <= n <= ranges[i].last
  }

  lemma CoveredByOneOf(a: seq<Range>, b: seq<Range>, n: nat)
    requires Covered(a, n) || Covered(b, n)
    ensures Covered(a + b, n)
  {
    if i :| 0 <= i < |a| && a[i].first <= n <= a[i].last {
      assert (a + b)[i] == a[i];
    } else {
      var j :| 0 <= j < |b| && b[j].first <= n <= b[j].last;
      assert (a + b)[|a| + j] == b[j];
    }
  }

  /** Every line of the range lies in a window. */
  lemma {:induction false} WindowsCover(r: Range, n: nat)
    requires 1 <= r.first <= n <= r.last
    ensures Covered(Windows(r), n)
    decreases r.last - r.first
  {
    var ws := Windows(r);
    if r.first + CHUNK_LINES > r.last || n < r.first + CHUNK_LINES {
      assert ws[0].first <= n <= ws[0].last;
    } else {
      var rest := Windows(Range(r.first + STEP, r.last));
      WindowsCover(Range(r.first + STEP, r.last), n);
      CoveredByOneOf([ws[0]], rest, n);
    }
  }

  /** Where the k-th window stands, and whether it is the last. */
  lemma {:induction false} WindowAt(r: Range, k: nat)
    requires 1 <= r.first <= r.last && k < |Windows(r)|
    ensures var w := Windows(r)[k];
            && w.first == r.first + k * STEP
            && w.last == (if w.first + CHUNK_LINES > r.last then r.last else w.first + CHUNK_LINES - 1)
            && (k + 1 == |Windows(r)| <==> w.first + CHUNK_LINES > r.last)
    decreases k
  {
    if k > 0 { WindowAt(Range(r.first + STEP, r.last), k - 1); }
  }

  lemma ChunksOfSingle(text: Range -> string, r: Range)
    ensures ChunksOf(text, [r]) == OneChunk(text, r)
  {
    assert [r][1..] == [] && ChunksOf(text, []) == [];
    assert OneChunk(text, r) + [] == OneChunk(text, r);
  }

  lemma ChunksOfOneMore(text: Range -> string, ranges: seq<Range>, k: nat)
    requires k < |ranges|
    ensures ChunksOf(text, ranges[..k + 1]) == ChunksOf(text, ranges[..k]) + OneChunk(text, ranges[k])
  {
    assert ranges[..k + 1] == ranges[..k] + [ranges[k]];
    ChunksOfBoth(text, ranges[..k], [ranges[k]]);
    ChunksOfSingle(text, ranges[k]);
  }

  /** What one turn of the window loop cuts out is the text of the k-th window. */
  lemma WindowTurn(lines: seq<string>, r: Range, k: nat)
    requires Within(lines, r) && k < |Windows(r)|
    ensures var n, index := r.last - r.first + 1, k * STEP;
            var end := if index + CHUNK_LINES < n then index + CHUNK_LINES else n;
            && index < end <= n && (k + 1 == |Windows(r)| <==> index + CHUNK_LINES >= n)
            && Windows(r)[k] == Range(r.first + index, r.first + end - 1)
            && lines[r.first - 1..r.last][index..end] == lines[Windows(r)[k].first - 1..Windows(r)[k].last]
  {
    var n, index := r.last - r.first + 1, k * STEP;
    WindowAt(r, k);
    SliceOfSlice(lines, r.first - 1, r.last, index, if index + CHUNK_LINES < n then index + CHUNK_LINES else n);
  }

  /** The chunk of a range, from the lines read for it. */
  function Cut(window: seq<string>, first: nat, last: nat): seq<Chunk> {
    var content := Strip(Join(window, "\n"));
    if content == "" then [] else [Chunk(first, last, content)]
  }

  lemma CutIsOneChunk(lines: seq<string>, r: Range, window: seq<string>)
    requires Within(lines, r) && window == lines[r.first - 1..r.last]
    ensures Cut(window, r.first, r.last) == OneChunk(Reader(lines), r)
  {
    ReadWithin(lines, r);
  }

  lemma ReadWithin(lines: seq<string>, r: Range)
    requires Within(lines, r)
    ensures Reader(lines)(r) == Strip(Join(lines[r.first - 1..r.last], "\n"))
  {
  }

  /** Cuts the k-th window, which starts index lines into the segment. */
  method CutWindow(ghost lines: seq<string>, ghost r: Range, ghost k: nat, segment: seq<string>, first: nat, index: nat)
    returns (own: seq<Chunk>)
    requires Within(lines, r) && k < |Windows(r)|
    requires segment == lines[r.first - 1..r.last] && first == r.first && index == k * STEP
    ensures own == OneChunk(Reader(lines), Windows(r)[k])
  {
    WindowTurn(lines, r, k);
    var end := if index + CHUNK_LINES < |segment| then index + CHUNK_LINES else |segment|;
    var window := segment[index..end];
    CutIsOneChunk(lines, Windows(r)[k], window);
    own := Cut(window, first + index, first + index + |window| - 1);
  }

  /** The window loop over the lines first to last. */
  method Window(lines: seq<string>, first: nat, last: nat) returns (chunks: seq<Chunk>)
    requires Within(lines, Range(first, last))
    ensures chunks == ChunksOf(Reader(lines), Windows(Range(first, last)))
  {
    ghost var r, k := Range(first, last), 0;
    var segment := lines[first - 1..last];
    chunks := [];
    var index := 0;
    while index < |segment|
      invariant k < |Windows(r)| && index == k * STEP < |segment|
      invariant chunks == ChunksOf(Reader(lines), Windows(r)[..k])
    {
      var own := CutWindow(lines, r, k, segment, first, index);
      chunks := chunks + own;
      ChunksOfOneMore(Reader(lines), Windows(r), k);
      WindowAt(r, k);
      k := k + 1;
      if index + CHUNK_LINES >= |segment| { break; }
      index := index + STEP;
    }
    assert Windows(r)[..k] == Windows(r);
  }

  // ---- Definitions ----------------------------------------------------------------------------------

  /** The first line after the definitions seen so far. */
  function Cursor(nodes: seq<Definition>): nat {
    if nodes == [] then 1 else nodes[|nodes| - 1].last + 1
  }

  predicate AllWithin(lines: seq<string>, ranges: seq<Range>) {
    forall i :: 0 <= i < |ranges| ==> Within(lines, ranges[i])
  }

  /** The loose code between the cursor and a definition, in windows. */
  function GapRanges(lines: seq<string>, cursor: nat, node: Definition): (ranges: seq<Range>)
    requires 1 <= cursor && Within(lines, node)
    ensures AllWithin(lines, ranges)
  {
    if node.first > cursor then Windows(Range(cursor, node.first - 1)) else []
  }

  /** A definition is one range unless it is too long. */
  function OwnRanges(lines: seq<string>, node: Definition): (ranges: seq<Range>)
    requires Within(lines, node)
    ensures AllWithin(lines, ranges)
  {
    if node.last - node.first + 1 > MAX_DEFINITION_LINES then Windows(node) else [node]
  }

  function DefinitionRanges(lines: seq<string>, nodes: seq<Definition>): (ranges: seq<Range>)
    requires AllWithin(lines, nodes)
    ensures AllWithin(lines, ranges)
  {
    if nodes == [] then []
    else
      var n := |nodes| - 1;
      DefinitionRanges(lines, nodes[..n]) + GapRanges(lines, Cursor(nodes[..n]), nodes[n]) + OwnRanges(lines, nodes[n])
  }

  function TailRanges(lines: seq<string>, cursor: nat): (ranges: seq<Range>)
    requires 1 <= cursor
    ensures AllWithin(lines, ranges)
  {
    if cursor <= |lines| then Windows(Range(cursor, |lines|)) else []
  }

  function AstRanges(lines: seq<string>, nodes: seq<Definition>): (ranges: seq<Range>)
    requires AllWithin(lines, nodes)
    ensures AllWithin(lines, ranges)
  {
    DefinitionRanges(lines, nodes) + TailRanges(lines, Cursor(nodes))
  }

  function ChunksOfNode(lines: seq<string>, cursor: nat, node: Definition): seq<Chunk>
    requires 1 <= cursor && Within(lines, node)
  {
    ChunksOf(Reader(lines), GapRanges(lines, cursor, node)) + ChunksOf(Reader(lines), OwnRanges(lines, node))
  }

  lemma NodeChunks(lines: seq<string>, nodes: seq<Definition>, k: nat)
    requires AllWithin(lines, nodes) && k < |nodes|
    ensures ChunksOf(Reader(lines), DefinitionRanges(lines, nodes[..k + 1])) ==
            ChunksOf(Reader(lines), DefinitionRanges(lines, nodes[..k])) + ChunksOfNode(lines, Cursor(nodes[..k]), nodes[k])
  {
    var before, gap, own :=
      DefinitionRanges(lines, nodes[..k]), GapRanges(lines, Cursor(nodes[..k]), nodes[k]), OwnRanges(lines, nodes[k]);
    assert nodes[..k + 1][..k] == nodes[..k];
    ThreePartChunks(Reader(lines), before, gap, own);
  }

  lemma ThreePartChunks(text: Range -> string, a: seq<Range>, b: seq<Range>, c: seq<Range>)
    ensures ChunksOf(text, a + b + c) == ChunksOf(text, a) + (ChunksOf(text, b) + ChunksOf(text, c))
  {
    ChunksOfBoth(text, a, b);
    ChunksOfBoth(text, a + b, c);
    Regroup(ChunksOf(text, a), ChunksOf(text, b), ChunksOf(text, c));
  }

  /** One chunk per top-level definition; the gaps between them become windows. */
  method ChunkByAst(lines: seq<string>, nodes: seq<Definition>) returns (chunks: seq<Chunk>)
    requires AllWithin(lines, nodes)
    ensures chunks == ChunksOf(Reader(lines), AstRanges(lines, nodes))
  {
    chunks := [];
    var cursor := 1;
    var k := 0;
    while k < |nodes|
      invariant k <= |nodes| && cursor == Cursor(nodes[..k])
      invariant chunks == ChunksOf(Reader(lines), DefinitionRanges(lines, nodes[..k]))
    {
      var node := nodes[k];
      NodeChunks(lines, nodes, k);
      var own := ChunkNode(lines, cursor, node);
      chunks := chunks + own;
      cursor := node.last + 1;
      k := k + 1;
    }
    assert nodes[..k] == nodes;
    ChunksOfBoth(Reader(lines), DefinitionRanges(lines, nodes), TailRanges(lines, cursor));
    if cursor <= |lines| {
      var tail := Window(lines, cursor, |lines|);
      chunks := chunks + tail;
    }
  }

  method ChunkNode(lines: seq<string>, cursor: nat, node: Definition) returns (chunks: seq<Chunk>)
    requires 1 <= cursor && Within(lines, node)
    ensures chunks == ChunksOfNode(lines, cursor, node)
  {
    var gap := ChunkGap(lines, cursor, node);
    var own := ChunkOwn(lines, node);
    chunks := gap + own;
  }

  method ChunkGap(lines: seq<string>, cursor: nat, node: Definition) returns (chunks: seq<Chunk>)
    requires 1 <= cursor && Within(lines, node)
    ensures chunks == ChunksOf(Reader(lines), GapRanges(lines, cursor, node))
  {
    ghost var text, gap := Reader(lines), GapRanges(lines, cursor, node);
    if node.first <= cursor {
      NothingToChunk(text);
      return [];
    }
    assert gap == Windows(Range(cursor, node.first - 1));
    chunks := Window(lines, cursor, node.first - 1);
    assert chunks == ChunksOf(text, gap);
  }

  lemma NothingToChunk(text: Range -> string)
    ensures ChunksOf(text, []) == []
  {
  }

  method ChunkOwn(lines: seq<string>, node: Definition) returns (chunks: seq<Chunk>)
    requires Within(lines, node)
    ensures chunks == ChunksOf(Reader(lines), OwnRanges(lines, node))
  {
    if node.last - node.first + 1 > MAX_DEFINITION_LINES {
      chunks := Window(lines, node.first, node.last);
    } else {
      ChunksOfSingle(Reader(lines), node);
      chunks := OneChunk(Reader(lines), node);
    }
  }

  /** The ranges a file is cut into: small files and files without usable definitions are windowed. The
      definitions are None when no grammar knows the file or its parser failed. */
  function FileRanges(lines: seq<string>, definitions: Option<seq<Definition>>): (ranges: seq<Range>)
    requires lines != [] && (definitions.Some? ==> AllWithin(lines, definitions.value))
    ensures AllWithin(lines, ranges)
  {
    if |lines| > CHUNK_LINES && definitions.Some? && ChunksOf(Reader(lines), AstRanges(lines, definitions.value)) != []
    then AstRanges(lines, definitions.value)
    else Windows(Range(1, |lines|))
  }

  method ChunkFile(lines: seq<string>, definitions: Option<seq<Definition>>) returns (chunks: seq<Chunk>)
    requires lines != [] && (definitions.Some? ==> AllWithin(lines, definitions.value))
    ensures chunks == ChunksOf(Reader(lines), FileRanges(lines, definitions))
    ensures |lines| <= 60 ==>
              chunks == if Strip(Join(lines, "\n")) == "" then [] else [Chunk(1, |lines|, Strip(Join(lines, "\n")))]
    ensures |lines| > 60 && definitions.Some? ==>
              forall d :: d in definitions.value && d.last - d.first + 1 <= 200 ==>
                var text := Strip(Join(lines[d.first - 1..d.last], "\n"));
                text != "" ==> Chunk(d.first, d.last, text) in chunks
    ensures |lines| > 60 && definitions.None? ==> chunks == ChunksOf(Reader(lines), Windows(Range(1, |lines|)))
  {
    if |lines| <= CHUNK_LINES { SmallFileIsOneChunk(lines); }
    if |lines| > CHUNK_LINES && definitions.Some? { DefinitionsStayWhole(lines, definitions.value); }
    if |lines| <= CHUNK_LINES {
      chunks := Window(lines, 1, |lines|);
      return;
    }
    if definitions.Some? {
      chunks := ChunkByAst(lines, definitions.value);
      if chunks != [] { return; }
    }
    chunks := Window(lines, 1, |lines|);
  }

  lemma SmallFileIsOneChunk(lines: seq<string>)
    requires 1 <= |lines| <= CHUNK_LINES
    ensures var text := Strip(Join(lines, "\n"));
            ChunksOf(Reader(lines), Windows(Range(1, |lines|))) == if text == "" then [] else [Chunk(1, |lines|, text)]
  {
    var r := Range(1, |lines|);
    assert Windows(r) == [r];
    ChunksOfSingle(Reader(lines), r);
    ReadWithin(lines, r);
    assert lines[0..|lines|] == lines;
  }

  /** Of a file that is cut at all every definition of at most 200 lines with text in it is a chunk. */
  lemma DefinitionsStayWhole(lines: seq<string>, nodes: seq<Definition>)
    requires |lines| > CHUNK_LINES && AllWithin(lines, nodes)
    ensures forall d :: d in nodes && d.last - d.first + 1 <= 200 ==>
              var text := Strip(Join(lines[d.first - 1..d.last], "\n"));
              text != "" ==> Chunk(d.first, d.last, text) in ChunksOf(Reader(lines), FileRanges(lines, Some(nodes)))
  {
    forall d | d in nodes && d.last - d.first + 1 <= 200 && Strip(Join(lines[d.first - 1..d.last], "\n")) != ""
      ensures Chunk(d.first, d.last, Strip(Join(lines[d.first - 1..d.last], "\n")))
              in ChunksOf(Reader(lines), FileRanges(lines, Some(nodes)))
    {
      ReadWithin(lines, d);
      DefinitionStaysWhole(lines, nodes, d);
    }
  }

  // ---- No line is lost --------------------------------------------------------------------------------

  lemma NodeCovers(lines: seq<string>, cursor: nat, node: Definition, n: nat)
    requires 1 <= cursor <= n <= node.last && Within(lines, node)
    ensures Covered(GapRanges(lines, cursor, node), n) || Covered(OwnRanges(lines, node), n)
  {
    if n < node.first {
      WindowsCover(Range(cursor, node.first - 1), n);
    } else if node.last - node.first + 1 > MAX_DEFINITION_LINES {
      WindowsCover(node, n);
    } else {
      assert OwnRanges(lines, node)[0] == node;
    }
  }

  /** However the definitions lie, every line before the cursor is in some range. */
  lemma {:induction false} DefinitionsCover(lines: seq<string>, nodes: seq<Definition>, n: nat)
    requires AllWithin(lines, nodes) && 1 <= n < Cursor(nodes)
    ensures Covered(DefinitionRanges(lines, nodes), n)
  {
    var k := |nodes| - 1;
    var done, gap := DefinitionRanges(lines, nodes[..k]), GapRanges(lines, Cursor(nodes[..k]), nodes[k]);
    if n < Cursor(nodes[..k]) {
      DefinitionsCover(lines, nodes[..k], n);
    } else {
      NodeCovers(lines, Cursor(nodes[..k]), nodes[k], n);
    }
    if Covered(done, n) || Covered(gap, n) { CoveredByOneOf(done, gap, n); }
    CoveredByOneOf(done + gap, OwnRanges(lines, nodes[k]), n);
  }

  lemma FileIsCovered(lines: seq<string>, definitions: Option<seq<Definition>>, n: nat)
    requires lines != [] && (definitions.Some? ==> AllWithin(lines, definitions.value))
    requires 1 <= n <= |lines|
    ensures Covered(FileRanges(lines, definitions), n)
  {
    if FileRanges(lines, definitions) == Windows(Range(1, |lines|)) {
      WindowsCover(Range(1, |lines|), n);
    } else {
      var nodes := definitions.value;
      if n < Cursor(nodes) {
        DefinitionsCover(lines, nodes, n);
      } else {
        WindowsCover(Range(Cursor(nodes), |lines|), n);
      }
      CoveredByOneOf(DefinitionRanges(lines, nodes), TailRanges(lines, Cursor(nodes)), n);
    }
  }

  lemma {:induction false} RangeBecomesChunk(text: Range -> string, ranges: seq<Range>, i: nat)
    requires i < |ranges| && text(ranges[i]) != ""
    ensures Chunk(ranges[i].first, ranges[i].last, text(ranges[i])) in ChunksOf(text, ranges)
  {
    if i > 0 { RangeBecomesChunk(text, ranges[1..], i - 1); }
  }

  lemma LineTextInRange(lines: seq<string>, r: Range, n: nat)
    requires Within(lines, r) && r.first <= n <= r.last
    ensures Contains(TextOf(lines, r), Strip(lines[n - 1]))
  {
    var slice := lines[r.first - 1..r.last];
    assert slice[n - r.first] == lines[n - 1];
    var before, after := JoinAround(slice, "\n", n - r.first);
    InkSurvivesTrim(before, lines[n - 1], after, PythonSpace);
  }

  /** Every line that is not blank lies in a chunk, and its text is in that chunk's content. */
  lemma NoLineIsLost(lines: seq<string>, definitions: Option<seq<Definition>>, n: nat)
    requires lines != [] && (definitions.Some? ==> AllWithin(lines, definitions.value))
    requires 1 <= n <= |lines| && !Blank(lines[n - 1], PythonSpace)
    ensures exists c :: c in ChunksOf(Reader(lines), FileRanges(lines, definitions))
                        && c.startLine <= n <= c.endLine && Contains(c.content, Strip(lines[n - 1]))
  {
    var ranges := FileRanges(lines, definitions);
    FileIsCovered(lines, definitions, n);
    var i :| 0 <= i < |ranges| && ranges[i].first <= n <= ranges[i].last;
    LineTextInRange(lines, ranges[i], n);
    TrimEmptyIff(lines[n - 1], PythonSpace);
    RangeBecomesChunk(Reader(lines), ranges, i);
  }

  // ---- Every chunk is what it says ------------------------------------------------------------------

  predicate Short(ranges: seq<Range>) {
    forall i :: 0 <= i < |ranges| ==> ranges[i].last - ranges[i].first + 1 <= MAX_DEFINITION_LINES
  }

  lemma WindowsAreShort(r: Range)
    requires 1 <= r.first <= r.last
    ensures Short(Windows(r))
  {
    forall k | 0 <= k < |Windows(r)|
      ensures Windows(r)[k].last - Windows(r)[k].first + 1 <= MAX_DEFINITION_LINES
    {
      WindowAt(r, k);
    }
  }

  lemma NodeIsShort(lines: seq<string>, cursor: nat, node: Definition)
    requires 1 <= cursor && Within(lines, node)
    ensures Short(GapRanges(lines, cursor, node)) && Short(OwnRanges(lines, node))
  {
    if node.first > cursor { WindowsAreShort(Range(cursor, node.first - 1)); }
    if node.last - node.first + 1 > MAX_DEFINITION_LINES { WindowsAreShort(node); }
  }

  lemma {:induction false} DefinitionsAreShort(lines: seq<string>, nodes: seq<Definition>)
    requires AllWithin(lines, nodes)
    ensures Short(DefinitionRanges(lines, nodes))
  {
    if nodes != [] {
      var k := |nodes| - 1;
      DefinitionsAreShort(lines, nodes[..k]);
      NodeIsShort(lines, Cursor(nodes[..k]), nodes[k]);
    }
  }

  lemma FileRangesAreShort(lines: seq<string>, definitions: Option<seq<Definition>>)
    requires lines != [] && (definitions.Some? ==> AllWithin(lines, definitions.value))
    ensures Short(FileRanges(lines, definitions))
  {
    WindowsAreShort(Range(1, |lines|));
    if definitions.Some? {
      var nodes := definitions.value;
      DefinitionsAreShort(lines, nodes);
      if Cursor(nodes) <= |lines| { WindowsAreShort(Range(Cursor(nodes), |lines|)); }
    }
  }

  lemma {:induction false} ChunkComesFromRange(text: Range -> string, ranges: seq<Range>, c: Chunk) returns (i: nat)
    requires c in ChunksOf(text, ranges)
    ensures i < |ranges| && c == Chunk(ranges[i].first, ranges[i].last, text(ranges[i])) && c.content != ""
  {
    if c in OneChunk(text, ranges[0]) {
      i := 0;
    } else {
      i := ChunkComesFromRange(text, ranges[1..], c);
      i := i + 1;
    }
  }

  /** Each chunk's content is the stripped join of the lines it names, is not empty, and is at most 200
      lines long. */
  lemma ChunksAreFaithful(lines: seq<string>, definitions: Option<seq<Definition>>, c: Chunk)
    requires lines != [] && (definitions.Some? ==> AllWithin(lines, definitions.value))
    requires c in ChunksOf(Reader(lines), FileRanges(lines, definitions))
    ensures 1 <= c.startLine <= c.endLine <= |lines| && c.endLine - c.startLine + 1 <= MAX_DEFINITION_LINES
    ensures c.content == Strip(Join(lines[c.startLine - 1..c.endLine], "\n")) && c.content != ""
  {
    var r := RangeOfChunk(lines, definitions, c);
    ReadWithin(lines, r);
  }

  lemma RangeOfChunk(lines: seq<string>, definitions: Option<seq<Definition>>, c: Chunk) returns (r: Range)
    requires lines != [] && (definitions.Some? ==> AllWithin(lines, definitions.value))
    requires c in ChunksOf(Reader(lines), FileRanges(lines, definitions))
    ensures Within(lines, r) && r.last - r.first + 1 <= MAX_DEFINITION_LINES
    ensures c == Chunk(r.first, r.last, Reader(lines)(r)) && c.content != ""
  {
    var ranges := FileRanges(lines, definitions);
    FileRangesAreShort(lines, definitions);
    var i := ChunkComesFromRange(Reader(lines), ranges, c);
    r := ranges[i];
  }

  lemma MemberBecomesChunk(text: Range -> string, ranges: seq<Range>, r: Range)
    requires r in ranges && text(r) != ""
    ensures Chunk(r.first, r.last, text(r)) in ChunksOf(text, ranges)
  {
    var i :| 0 <= i < |ranges| && ranges[i] == r;
    RangeBecomesChunk(text, ranges, i);
  }

  lemma InOneOf<T>(x: T, a: seq<T>, b: seq<T>, c: seq<T>)
    requires x in a || x in c
    ensures x in a + b + c
  {
  }

  lemma {:induction false} DefinitionIsARange(lines: seq<string>, nodes: seq<Definition>, k: nat)
    requires AllWithin(lines, nodes) && k < |nodes| && nodes[k].last - nodes[k].first + 1 <= MAX_DEFINITION_LINES
    ensures nodes[k] in DefinitionRanges(lines, nodes)
  {
    var n := |nodes| - 1;
    if k < n {
      DefinitionIsARange(lines, nodes[..n], k);
    } else {
      ShortIsWhole(lines, nodes[n]);
    }
    LastJoins(lines, nodes, nodes[k]);
  }

  lemma ShortIsWhole(lines: seq<string>, node: Definition)
    requires Within(lines, node) && node.last - node.first + 1 <= MAX_DEFINITION_LINES
    ensures node in OwnRanges(lines, node)
  {
  }

  lemma LastJoins(lines: seq<string>, nodes: seq<Definition>, r: Range)
    requires nodes != [] && AllWithin(lines, nodes)
    requires r in DefinitionRanges(lines, nodes[..|nodes| - 1]) || r in OwnRanges(lines, nodes[|nodes| - 1])
    ensures r in DefinitionRanges(lines, nodes)
  {
    var n := |nodes| - 1;
    InOneOf(r, DefinitionRanges(lines, nodes[..n]), GapRanges(lines, Cursor(nodes[..n]), nodes[n]), OwnRanges(lines, nodes[n]));
  }

  // ---- The ranges lie end to end -------------------------------------------------------------------

  /** The next range begins where this one ends, or is the next window and shares ten lines with it. */
  predicate Next(a: Range, b: Range) {
    b.first == a.last + 1 || (a.last - a.first + 1 == 60 && b.first + 9 == a.last && a.last < b.last)
  }

  /** The ranges cover the lines from here up to but not including there, each following the one before. */
  predicate Tiles(ranges: seq<Range>, from: nat, next: nat) {
    if ranges == [] then from == next
    else
      && ranges[0].first == from && ranges[|ranges| - 1].last + 1 == next
      && forall i :: 0 <= i < |ranges| - 1 ==> Next(ranges[i], ranges[i + 1])
  }

  lemma TilesBoth(a: seq<Range>, b: seq<Range>, from: nat, middle: nat, next: nat)
    requires Tiles(a, from, middle) && Tiles(b, middle, next)
    ensures Tiles(a + b, from, next)
  {
    if a != [] && b != [] {
      forall i | 0 <= i < |a + b| - 1
        ensures Next((a + b)[i], (a + b)[i + 1])
      {
        if i < |a| - 1 {
          assert Next(a[i], a[i + 1]);
        } else if i >= |a| {
          assert Next(b[i - |a|], b[i - |a| + 1]);
        }
      }
    } else {
      assert a + b == if a == [] then b else a;
    }
  }

  lemma WindowsTile(r: Range)
    requires 1 <= r.first <= r.last
    ensures Tiles(Windows(r), r.first, r.last + 1)
  {
    var windows := Windows(r);
    WindowAt(r, 0);
    WindowAt(r, |windows| - 1);
    forall i | 0 <= i < |windows| - 1
      ensures Next(windows[i], windows[i + 1])
    {
      WindowsOverlap(r, i);
    }
  }

  /** The definitions follow one another down the file. */
  predicate Descending(nodes: seq<Definition>) {
    forall i, j :: 0 <= i < j < |nodes| ==> nodes[i].last < nodes[j].first
  }

  lemma NodeTiles(lines: seq<string>, cursor: nat, node: Definition)
    requires 1 <= cursor <= node.first && Within(lines, node)
    ensures Tiles(GapRanges(lines, cursor, node), cursor, node.first)
    ensures Tiles(OwnRanges(lines, node), node.first, node.last + 1)
  {
    if node.first > cursor { WindowsTile(Range(cursor, node.first - 1)); }
    if node.last - node.first + 1 > MAX_DEFINITION_LINES { WindowsTile(node); }
  }

  lemma {:induction false} DefinitionsTile(lines: seq<string>, nodes: seq<Definition>)
    requires AllWithin(lines, nodes) && Descending(nodes)
    ensures Tiles(DefinitionRanges(lines, nodes), 1, Cursor(nodes))
  {
    if nodes != [] {
      var n := |nodes| - 1;
      var node, cursor := nodes[n], Cursor(nodes[..n]);
      DefinitionsTile(lines, nodes[..n]);
      if n > 0 { assert nodes[..n][n - 1].last < node.first; }
      NodeTiles(lines, cursor, node);
      TilesBoth(DefinitionRanges(lines, nodes[..n]), GapRanges(lines, cursor, node), 1, cursor, node.first);
      TilesBoth(DefinitionRanges(lines, nodes[..n]) + GapRanges(lines, cursor, node), OwnRanges(lines, node),
                1, node.first, node.last + 1);
    }
  }

  /** The ranges of a file lie end to end from its first line to its last, and only windows of one stretch
      share lines, ten with the next; a range of more than sixty lines is a definition. */
  lemma FileIsTiled(lines: seq<string>, definitions: Option<seq<Definition>>)
    requires lines != [] && (definitions.Some? ==> AllWithin(lines, definitions.value) && Descending(definitions.value))
    ensures Tiles(FileRanges(lines, definitions), 1, |lines| + 1)
    ensures forall r :: r in FileRanges(lines, definitions) ==>
              r.last - r.first + 1 <= 60 || (definitions.Some? && r in definitions.value && r.last - r.first + 1 <= 200)
  {
    WindowsTile(Range(1, |lines|));
    WindowsAreSmall(Range(1, |lines|));
    if definitions.Some? { DefinitionsAndTailTile(lines, definitions.value); }
  }

  lemma DefinitionsAndTailTile(lines: seq<string>, nodes: seq<Definition>)
    requires AllWithin(lines, nodes) && Descending(nodes)
    ensures Tiles(AstRanges(lines, nodes), 1, |lines| + 1)
    ensures forall r :: r in AstRanges(lines, nodes) ==>
              r.last - r.first + 1 <= 60 || (r in nodes && r.last - r.first + 1 <= 200)
  {
    DefinitionsTile(lines, nodes);
    DefinitionsAreSmall(lines, nodes);
    if Cursor(nodes) <= |lines| {
      WindowsTile(Range(Cursor(nodes), |lines|));
      WindowsAreSmall(Range(Cursor(nodes), |lines|));
    }
    TilesBoth(DefinitionRanges(lines, nodes), TailRanges(lines, Cursor(nodes)), 1, Cursor(nodes), |lines| + 1);
  }

  lemma WindowsAreSmall(r: Range)
    requires 1 <= r.first <= r.last
    ensures forall w :: w in Windows(r) ==> w.last - w.first + 1 <= 60
  {
    forall k | 0 <= k < |Windows(r)|
      ensures Windows(r)[k].last - Windows(r)[k].first + 1 <= 60
    {
      WindowAt(r, k);
    }
  }

  lemma {:induction false} DefinitionsAreSmall(lines: seq<string>, nodes: seq<Definition>)
    requires AllWithin(lines, nodes)
    ensures forall r :: r in DefinitionRanges(lines, nodes) ==>
              r.last - r.first + 1 <= 60 || (r in nodes && r.last - r.first + 1 <= 200)
  {
    if nodes != [] {
      var n := |nodes| - 1;
      DefinitionsAreSmall(lines, nodes[..n]);
      NodeIsSmall(lines, Cursor(nodes[..n]), nodes[n]);
    }
  }

  lemma NodeIsSmall(lines: seq<string>, cursor: nat, node: Definition)
    requires 1 <= cursor && Within(lines, node)
    ensures forall r :: r in GapRanges(lines, cursor, node) ==> r.last - r.first + 1 <= 60
    ensures forall r :: r in OwnRanges(lines, node) ==>
              r.last - r.first + 1 <= 60 || (r == node && r.last - r.first + 1 <= 200)
  {
    if node.first > cursor { WindowsAreSmall(Range(cursor, node.first - 1)); }
    if node.last - node.first + 1 > MAX_DEFINITION_LINES { WindowsAreSmall(node); }
  }

  lemma EarlierEnds(lines: seq<string>, nodes: seq<Definition>, k: nat)
    requires AllWithin(lines, nodes) && Descending(nodes) && k < |nodes|
    ensures nodes[k].last < Cursor(nodes)
  {
    if k < |nodes| - 1 { assert nodes[k].last < nodes[|nodes| - 1].first; }
  }

  lemma FrontDescends(lines: seq<string>, nodes: seq<Definition>)
    requires nodes != [] && AllWithin(lines, nodes) && Descending(nodes)
    ensures var n := |nodes| - 1;
            AllWithin(lines, nodes[..n]) && Descending(nodes[..n]) && Cursor(nodes[..n]) <= nodes[n].first
  {
    var n := |nodes| - 1;
    if n > 0 { assert nodes[n - 1].last < nodes[n].first; }
  }

  lemma PartsOfNode(lines: seq<string>, cursor: nat, node: Definition, r: Range)
    requires 1 <= cursor && Within(lines, node)
    ensures r in GapRanges(lines, cursor, node) ==> cursor <= r.first <= r.last < node.first
    ensures r in OwnRanges(lines, node) ==> node.first <= r.first <= r.last <= node.last
  {
  }

  lemma {:induction false} PartsEndBefore(lines: seq<string>, nodes: seq<Definition>, r: Range)
    requires AllWithin(lines, nodes) && Descending(nodes) && r in DefinitionRanges(lines, nodes)
    ensures r.last < Cursor(nodes)
  {
    var n := |nodes| - 1;
    if r in DefinitionRanges(lines, nodes[..n]) {
      PartsEndBefore(lines, nodes[..n], r);
    } else {
      PartsOfLast(lines, nodes, r);
    }
  }

  predicate InsideOrOutside(r: Range, d: Definition) {
    r.last < d.first || d.last < r.first || (d.first <= r.first && r.last <= d.last)
  }

  lemma {:induction false} PartsRespectDefinitions(lines: seq<string>, nodes: seq<Definition>, r: Range, k: nat)
    requires AllWithin(lines, nodes) && Descending(nodes) && k < |nodes| && r in DefinitionRanges(lines, nodes)
    ensures InsideOrOutside(r, nodes[k])
  {
    var n := |nodes| - 1;
    FrontDescends(lines, nodes);
    if r in DefinitionRanges(lines, nodes[..n]) {
      if k < n {
        PartsRespectDefinitions(lines, nodes[..n], r, k);
      } else {
        PartsEndBefore(lines, nodes[..n], r);
      }
    } else {
      PartsOfLast(lines, nodes, r);
      LastRespects(lines, nodes, Cursor(nodes[..n]), r, k);
    }
  }

  lemma LastRespects(lines: seq<string>, nodes: seq<Definition>, cursor: nat, r: Range, k: nat)
    requires AllWithin(lines, nodes) && Descending(nodes) && k < |nodes| && cursor == Cursor(nodes[..|nodes| - 1])
    requires var node := nodes[|nodes| - 1];
             cursor <= r.first <= r.last < node.first || node.first <= r.first <= r.last <= node.last
    ensures InsideOrOutside(r, nodes[k])
  {
    var n := |nodes| - 1;
    FrontDescends(lines, nodes);
    if k < n { EarlierEnds(lines, nodes[..n], k); }
  }

  lemma PartsOfLast(lines: seq<string>, nodes: seq<Definition>, r: Range)
    requires nodes != [] && AllWithin(lines, nodes)
    requires r in DefinitionRanges(lines, nodes) && r !in DefinitionRanges(lines, nodes[..|nodes| - 1])
    ensures var node := nodes[|nodes| - 1];
            Cursor(nodes[..|nodes| - 1]) <= r.first <= r.last < node.first || node.first <= r.first <= r.last <= node.last
  {
    var n := |nodes| - 1;
    PartsOfNode(lines, Cursor(nodes[..n]), nodes[n], r);
  }

  /** No range crosses the edge of a definition: it lies inside it or outside. */
  lemma RangesRespectDefinitions(lines: seq<string>, nodes: seq<Definition>, r: Range, d: Definition)
    requires AllWithin(lines, nodes) && Descending(nodes) && d in nodes && r in AstRanges(lines, nodes)
    ensures InsideOrOutside(r, d)
  {
    var k :| 0 <= k < |nodes| && nodes[k] == d;
    if r in DefinitionRanges(lines, nodes) {
      PartsRespectDefinitions(lines, nodes, r, k);
    } else {
      EarlierEnds(lines, nodes, k);
      assert r.first >= Cursor(nodes);
    }
  }

  /** A definition of at most 200 lines is never cut: it is a chunk of its own. */
  lemma DefinitionStaysWhole(lines: seq<string>, nodes: seq<Definition>, d: Definition)
    requires AllWithin(lines, nodes) && d in nodes
    requires d.last - d.first + 1 <= MAX_DEFINITION_LINES && TextOf(lines, d) != ""
    ensures Chunk(d.first, d.last, TextOf(lines, d)) in ChunksOf(Reader(lines), AstRanges(lines, nodes))
  {
    var k :| 0 <= k < |nodes| && nodes[k] == d;
    DefinitionIsARange(lines, nodes, k);
    InOneOf(d, DefinitionRanges(lines, nodes), [], TailRanges(lines, Cursor(nodes)));
    assert DefinitionRanges(lines, nodes) + [] == DefinitionRanges(lines, nodes);
    MemberBecomesChunk(Reader(lines), AstRanges(lines, nodes), d);
  }
}
