/** Incremental re-indexing of a repository: whatever happened before, the index is the one a first
    index of the last snapshot would build. */
module CodeIndex {
  import opened Wrappers
  import Chunker

  const EMBED_BATCH := 64

  type Path = string
  type Content = string
  type Digest = string
  type Vector = seq<real>

  datatype Source = Source(path: Path, content: Content)

  /** The indexable files of one clone, in walk order; a path occurs once. */
  type Snapshot = seq<Source>

  type Chunk = Chunker.Chunk

  datatype Row = Row(path: Path, chunk: Chunk, embedding: Vector)

  datatype Edge = Edge(source: Path, target: Path, kind: string)

  datatype Index = Index(chunks: seq<Row>, fingerprints: map<Path, Digest>, edges: seq<Edge>)

  const EMPTY := Index([], map[], [])

  /** The deterministic tools the indexer calls: the digest of a file's bytes, the chunker (the language
      follows from the path), the embedding of one text, and the import graph of a tree. */
  datatype Tools = Tools(digest: Content -> Digest, chunk: (Path, Content) -> seq<Chunk>,
                         embed: string -> Vector, edges: Snapshot -> seq<Edge>)

  predicate DistinctPaths(sources: Snapshot) {
    forall i, j :: 0 <= i < j < |sources| ==> sources[i].path != sources[j].path
  }

  ghost predicate Injective(digest: Content -> Digest) {
    forall a, b :: digest(a) == digest(b) ==> a == b
  }

  // ---- One index run ----------------------------------------------------------------------------

  function Hashes(tools: Tools, sources: Snapshot): (hashes: map<Path, Digest>)
    ensures forall i :: 0 <= i < |sources| ==> sources[i].path in hashes
    ensures forall p :: p in hashes ==> exists i :: 0 <= i < |sources| && sources[i].path == p
  {
    if sources == [] then map[]
    else
      var last := sources[|sources| - 1];
      Hashes(tools, sources[..|sources| - 1])[last.path := tools.digest(last.content)]
  }

  /** New or modified files. */
  function Changed(hashes: map<Path, Digest>, previous: map<Path, Digest>): set<Path> {
    set p | p in hashes && (p !in previous || previous[p] != hashes[p])
  }

  function Deleted(hashes: map<Path, Digest>, previous: map<Path, Digest>): set<Path> {
    previous.Keys - hashes.Keys
  }

  function FileRows(tools: Tools, path: Path, chunks: seq<Chunk>): (rows: seq<Row>)
    ensures |rows| == |chunks|
    ensures forall i :: 0 <= i < |rows| ==> rows[i] == Row(path, chunks[i], tools.embed(chunks[i].content))
  {
    seq(|chunks|, i requires 0 <= i < |chunks| => Row(path, chunks[i], tools.embed(chunks[i].content)))
  }

  function OwnRows(tools: Tools, source: Source, changed: set<Path>): (rows: seq<Row>)
    ensures forall i :: 0 <= i < |rows| ==> rows[i].path == source.path
  {
    if source.path in changed then FileRows(tools, source.path, tools.chunk(source.path, source.content)) else []
  }

  /** The rows of the changed files, in walk order. */
  function NewRows(tools: Tools, sources: Snapshot, changed: set<Path>): seq<Row> {
    if sources == [] then []
    else
      NewRows(tools, sources[..|sources| - 1], changed) + OwnRows(tools, sources[|sources| - 1], changed)
  }

  /** The rows a delete by path leaves. */
  function Without(rows: seq<Row>, stale: set<Path>): seq<Row> {
    if rows == [] then []
    else if rows[0].path in stale then Without(rows[1..], stale)
    else [rows[0]] + Without(rows[1..], stale)
  }

  function Reindexed(tools: Tools, index: Index, sources: Snapshot): Index {
    var hashes := Hashes(tools, sources);
    var changed, deleted := Changed(hashes, index.fingerprints), Deleted(hashes, index.fingerprints);
    Index(Without(index.chunks, changed + deleted) + NewRows(tools, sources, changed),
          (index.fingerprints - (changed + deleted)) + (map p | p in changed :: hashes[p]),
          tools.edges(sources))
  }

  // ---- The rows of one path ---------------------------------------------------------------------

  function RowsAt(rows: seq<Row>, path: Path): seq<Row> {
    if rows == [] then []
    else if rows[0].path == path then [rows[0]] + RowsAt(rows[1..], path)
    else RowsAt(rows[1..], path)
  }

  lemma {:induction false} RowsAtBoth(a: seq<Row>, b: seq<Row>, path: Path)
    ensures RowsAt(a + b, path) == RowsAt(a, path) + RowsAt(b, path)
  {
    if a == [] {
      assert a + b == b;
    } else {
      assert (a + b)[1..] == a[1..] + b;
      RowsAtBoth(a[1..], b, path);
    }
  }

  lemma {:induction false} RowsAtWithout(rows: seq<Row>, stale: set<Path>, path: Path)
    ensures RowsAt(Without(rows, stale), path) == if path in stale then [] else RowsAt(rows, path)
  {
    if rows != [] {
      RowsAtWithout(rows[1..], stale, path);
      if rows[0].path !in stale {
        var kept := Without(rows[1..], stale);
        assert ([rows[0]] + kept)[1..] == kept;
      }
    }
  }

  lemma {:induction false} RowsAtOwnPath(rows: seq<Row>, own: Path, path: Path)
    requires forall i :: 0 <= i < |rows| ==> rows[i].path == own
    ensures RowsAt(rows, path) == if path == own then rows else []
  {
    if rows != [] { RowsAtOwnPath(rows[1..], own, path); }
  }

  function ContentAt(sources: Snapshot, path: Path): Option<Content> {
    if sources == [] then None
    else
      var last := sources[|sources| - 1];
      if last.path == path then Some(last.content) else ContentAt(sources[..|sources| - 1], path)
  }

  lemma {:induction false} HashesAt(tools: Tools, sources: Snapshot, path: Path)
    ensures path in Hashes(tools, sources) <==> ContentAt(sources, path).Some?
    ensures path in Hashes(tools, sources) ==> Hashes(tools, sources)[path] == tools.digest(ContentAt(sources, path).value)
  {
    if sources != [] { HashesAt(tools, sources[..|sources| - 1], path); }
  }

  lemma {:induction false} NowhereMeansNone(sources: Snapshot, path: Path)
    requires forall i :: 0 <= i < |sources| ==> sources[i].path != path
    ensures ContentAt(sources, path) == None
  {
    if sources != [] { NowhereMeansNone(sources[..|sources| - 1], path); }
  }

  /** The rows a file of this content is stored as; none for a path that is not there. */
  function RowsFor(tools: Tools, path: Path, content: Option<Content>): seq<Row> {
    if content.None? then [] else FileRows(tools, path, tools.chunk(path, content.value))
  }

  lemma {:induction false} RowsAtNew(tools: Tools, sources: Snapshot, changed: set<Path>, path: Path)
    requires DistinctPaths(sources)
    ensures RowsAt(NewRows(tools, sources, changed), path) ==
            if path in changed then RowsFor(tools, path, ContentAt(sources, path)) else []
  {
    if sources != [] {
      var n := |sources| - 1;
      var last := sources[n];
      var before := NewRows(tools, sources[..n], changed);
      var own := OwnRows(tools, last, changed);
      RowsAtNew(tools, sources[..n], changed, path);
      RowsAtBoth(before, own, path);
      RowsAtOwnPath(own, last.path, path);
      if last.path == path {
        NowhereMeansNone(sources[..n], path);
        assert RowsAt(before, path) == [];
      } else {
        assert RowsAt(own, path) == [];
      }
    }
  }

  // ---- Incremental equals full --------------------------------------------------------------------

  /** The index holds, path by path and in order, the rows of exactly this snapshot. */
  ghost predicate Mirrors(tools: Tools, index: Index, sources: Snapshot) {
    && index.fingerprints == Hashes(tools, sources)
    && index.edges == tools.edges(sources)
    && forall p :: RowsAt(index.chunks, p) == RowsFor(tools, p, ContentAt(sources, p))
  }

  /** No file changed in a way its digest does not show but its rows would. */
  ghost predicate NoHiddenChange(tools: Tools, before: Snapshot, sources: Snapshot) {
    forall p :: ContentAt(before, p).Some? && ContentAt(sources, p).Some?
                && tools.digest(ContentAt(before, p).value) == tools.digest(ContentAt(sources, p).value)
                ==> RowsFor(tools, p, ContentAt(before, p)) == RowsFor(tools, p, ContentAt(sources, p))
  }

  /** Which files count as changed or deleted, in terms of what the snapshots hold. */
  lemma FateOf(tools: Tools, before: Snapshot, sources: Snapshot, p: Path)
    ensures var was, now := ContentAt(before, p), ContentAt(sources, p);
            && (p in Changed(Hashes(tools, sources), Hashes(tools, before)) <==>
                now.Some? && !(was.Some? && tools.digest(was.value) == tools.digest(now.value)))
            && (p in Deleted(Hashes(tools, sources), Hashes(tools, before)) <==> was.Some? && now.None?)
  {
    HashesAt(tools, before, p);
    HashesAt(tools, sources, p);
  }

  /** The rows of one path after a delete and an insert. */
  lemma RowsAfter(tools: Tools, rows: seq<Row>, stale: set<Path>, sources: Snapshot, changed: set<Path>, p: Path)
    requires DistinctPaths(sources) && changed <= stale
    ensures RowsAt(Without(rows, stale) + NewRows(tools, sources, changed), p) ==
            if p in changed then RowsFor(tools, p, ContentAt(sources, p)) else if p in stale then [] else RowsAt(rows, p)
  {
    RowsAtBoth(Without(rows, stale), NewRows(tools, sources, changed), p);
    RowsAtWithout(rows, stale, p);
    RowsAtNew(tools, sources, changed, p);
  }

  lemma ReindexedAt(tools: Tools, index: Index, before: Snapshot, sources: Snapshot, p: Path)
    requires DistinctPaths(sources) && Mirrors(tools, index, before)
    ensures var was, now := ContentAt(before, p), ContentAt(sources, p);
            RowsAt(Reindexed(tools, index, sources).chunks, p) ==
            if was.Some? && now.Some? && tools.digest(was.value) == tools.digest(now.value)
            then RowsFor(tools, p, was) else RowsFor(tools, p, now)
  {
    var hashes := Hashes(tools, sources);
    var changed, deleted := Changed(hashes, index.fingerprints), Deleted(hashes, index.fingerprints);
    FateOf(tools, before, sources, p);
    RowsAfter(tools, index.chunks, changed + deleted, sources, changed, p);
  }

  lemma FingerprintsAreCurrent(tools: Tools, index: Index, sources: Snapshot)
    ensures Reindexed(tools, index, sources).fingerprints == Hashes(tools, sources)
  {
  }

  /** One incremental index run ends with the index of the new snapshot exactly when no change is hidden
      from the digest. */
  lemma ReindexMirrorsIff(tools: Tools, index: Index, before: Snapshot, sources: Snapshot)
    requires DistinctPaths(sources) && Mirrors(tools, index, before)
    ensures Mirrors(tools, Reindexed(tools, index, sources), sources) <==> NoHiddenChange(tools, before, sources)
  {
    FingerprintsAreCurrent(tools, index, sources);
    forall p
      ensures RowsAt(Reindexed(tools, index, sources).chunks, p) == RowsFor(tools, p, ContentAt(sources, p)) <==>
              (ContentAt(before, p).Some? && ContentAt(sources, p).Some?
               && tools.digest(ContentAt(before, p).value) == tools.digest(ContentAt(sources, p).value)
               ==> RowsFor(tools, p, ContentAt(before, p)) == RowsFor(tools, p, ContentAt(sources, p)))
    {
      ReindexedAt(tools, index, before, sources, p);
    }
  }

  /** The index after a history of snapshots, each indexed in turn. */
  function After(tools: Tools, history: seq<Snapshot>): Index {
    if history == [] then EMPTY
    else Reindexed(tools, After(tools, history[..|history| - 1]), history[|history| - 1])
  }

  lemma {:induction false} HistoryMirrorsTheLast(tools: Tools, history: seq<Snapshot>)
    requires Injective(tools.digest) && forall k :: 0 <= k < |history| ==> DistinctPaths(history[k])
    ensures history != [] ==> Mirrors(tools, After(tools, history), history[|history| - 1])
  {
    if history != [] {
      var n := |history| - 1;
      HistoryMirrorsTheLast(tools, history[..n]);
      var before := if n == 0 then [] else history[n - 1];
      var index := After(tools, history[..n]).(edges := tools.edges(before));
      assert Mirrors(tools, index, before);
      ReindexMirrorsIff(tools, index, before, history[n]);
    }
  }

  lemma {:induction false} RowsAtCounts(rows: seq<Row>, r: Row)
    ensures multiset(RowsAt(rows, r.path))[r] == multiset(rows)[r]
  {
    if rows != [] {
      assert rows == [rows[0]] + rows[1..];
      RowsAtCounts(rows[1..], r);
    }
  }

  lemma SamePathsSameRows(a: seq<Row>, b: seq<Row>)
    requires forall p :: RowsAt(a, p) == RowsAt(b, p)
    ensures multiset(a) == multiset(b)
  {
    forall r
      ensures multiset(a)[r] == multiset(b)[r]
    {
      RowsAtCounts(a, r);
      RowsAtCounts(b, r);
    }
  }

  /** After any history of snapshots the stored chunks, fingerprints and edges are those a first index of
      the last snapshot stores: the same rows, the same number of times, each file's in the same order. */
  lemma IncrementalEqualsFull(tools: Tools, history: seq<Snapshot>)
    requires Injective(tools.digest) && history != []
    requires forall k :: 0 <= k < |history| ==> DistinctPaths(history[k])
    ensures var incremental, full := After(tools, history), After(tools, [history[|history| - 1]]);
            && incremental.fingerprints == full.fingerprints && incremental.edges == full.edges
            && multiset(incremental.chunks) == multiset(full.chunks)
            && forall p :: RowsAt(incremental.chunks, p) == RowsAt(full.chunks, p)
  {
    HistoryMirrorsTheLast(tools, history);
    HistoryMirrorsTheLast(tools, [history[|history| - 1]]);
    SamePathsSameRows(After(tools, history).chunks, After(tools, [history[|history| - 1]]).chunks);
  }

  lemma {:induction false} ContentOf(sources: Snapshot, i: nat)
    requires DistinctPaths(sources) && i < |sources|
    ensures ContentAt(sources, sources[i].path) == Some(sources[i].content)
  {
    if i < |sources| - 1 { ContentOf(sources[..|sources| - 1], i); }
  }

  /** What the index of any history holds for a file of the last snapshot: its digest, and one row for each
      of its chunks, in order, with the chunk's embedding. */
  lemma IndexHoldsTheFiles(tools: Tools, history: seq<Snapshot>, i: nat)
    requires Injective(tools.digest) && forall k :: 0 <= k < |history| ==> DistinctPaths(history[k])
    requires history != [] && i < |history[|history| - 1]|
    ensures var index, file := After(tools, history), history[|history| - 1][i];
            var rows, own := RowsAt(index.chunks, file.path), tools.chunk(file.path, file.content);
            && file.path in index.fingerprints && index.fingerprints[file.path] == tools.digest(file.content)
            && |rows| == |own| && forall k :: 0 <= k < |own| ==> rows[k] == Row(file.path, own[k], tools.embed(own[k].content))
  {
    var last := history[|history| - 1];
    HistoryMirrorsTheLast(tools, history);
    ContentOf(last, i);
    HashesAt(tools, last, last[i].path);
  }

  /** And nothing for a path that is not there; its edges are those of the last snapshot. */
  lemma IndexHoldsNothingElse(tools: Tools, history: seq<Snapshot>, path: Path)
    requires Injective(tools.digest) && forall k :: 0 <= k < |history| ==> DistinctPaths(history[k])
    requires history != []
    requires var last := history[|history| - 1]; forall i :: 0 <= i < |last| ==> last[i].path != path
    ensures var index := After(tools, history);
            && path !in index.fingerprints && RowsAt(index.chunks, path) == []
            && index.edges == tools.edges(history[|history| - 1])
  {
    var last := history[|history| - 1];
    HistoryMirrorsTheLast(tools, history);
    NowhereMeansNone(last, path);
    HashesAt(tools, last, path);
  }

  /** Which files count as changed and deleted, and that every file counts once. */
  lemma CountsMean(tools: Tools, sources: Snapshot, previous: map<Path, Digest>, p: Path)
    requires DistinctPaths(sources)
    ensures p in Changed(Hashes(tools, sources), previous) <==>
            exists i :: 0 <= i < |sources| && sources[i].path == p
                        && !(p in previous && previous[p] == tools.digest(sources[i].content))
    ensures p in Deleted(Hashes(tools, sources), previous) <==>
            p in previous && forall i :: 0 <= i < |sources| ==> sources[i].path != p
    ensures |Hashes(tools, sources)| == |sources|
  {
    HashesAt(tools, sources, p);
    OnePerFile(tools, sources);
    forall i | 0 <= i < |sources| && sources[i].path == p
      ensures p in Hashes(tools, sources) && Hashes(tools, sources)[p] == tools.digest(sources[i].content)
    {
      ContentOf(sources, i);
    }
  }

  lemma {:induction false} OnePerFile(tools: Tools, sources: Snapshot)
    requires DistinctPaths(sources)
    ensures |Hashes(tools, sources)| == |sources|
  {
    if sources != [] {
      var n := |sources| - 1;
      var before := Hashes(tools, sources[..n]);
      OnePerFile(tools, sources[..n]);
      assert sources[n].path !in before;
      assert Hashes(tools, sources).Keys == before.Keys + {sources[n].path} && |before| == |before.Keys|;
      assert |Hashes(tools, sources)| == |Hashes(tools, sources).Keys|;
    }
  }

  /** Indexing the same snapshot again writes nothing and changes nothing. */
  lemma SameSnapshotIsFree(tools: Tools, index: Index, sources: Snapshot)
    requires Mirrors(tools, index, sources)
    ensures Reindexed(tools, index, sources) == index
    ensures NewRows(tools, sources, Changed(Hashes(tools, sources), index.fingerprints)) == []
  {
    var changed := Changed(Hashes(tools, sources), index.fingerprints);
    assert changed == {};
    assert changed + Deleted(Hashes(tools, sources), index.fingerprints) == {};
    WithoutNothing(index.chunks);
    NothingNew(tools, sources);
    assert index.chunks + [] == index.chunks;
    FingerprintsAreCurrent(tools, index, sources);
  }

  lemma {:induction false} WithoutNothing(rows: seq<Row>)
    ensures Without(rows, {}) == rows
  {
    if rows != [] { WithoutNothing(rows[1..]); }
  }

  lemma {:induction false} NothingNew(tools: Tools, sources: Snapshot)
    ensures NewRows(tools, sources, {}) == []
  {
    if sources != [] { NothingNew(tools, sources[..|sources| - 1]); }
  }

  // ---- The stored index -------------------------------------------------------------------------------

  datatype IndexResult = IndexResult(files: nat, changed: nat, deleted: nat, chunksWritten: nat)

  /** A new chunk on its way to being embedded, with the path it belongs to. */
  datatype Pending = Pending(path: Path, chunk: Chunk)

  class IndexStore {
    var chunks: seq<Row>
    var fingerprints: map<Path, Digest>
    var edges: seq<Edge>

    function Contents(): Index
      reads this
    {
      Index(chunks, fingerprints, edges)
    }

    constructor ()
      ensures Contents() == EMPTY
    {
      chunks, fingerprints, edges := [], map[], [];
    }

    method BuildIndex(tools: Tools, sources: Snapshot) returns (result: IndexResult)
      requires DistinctPaths(sources)
      modifies this
      ensures Contents() == Reindexed(tools, old(Contents()), sources)
      ensures var hashes := Hashes(tools, sources);
              && result.files == |hashes|
              && result.changed == |Changed(hashes, old(fingerprints))|
              && result.deleted == |Deleted(hashes, old(fingerprints))|
              && result.chunksWritten == |NewRows(tools, sources, Changed(hashes, old(fingerprints)))|
    {
      var hashes := Hashes(tools, sources);
      var previous := fingerprints;
      var changed := Changed(hashes, previous);
      var deleted := previous.Keys - hashes.Keys;
      var pending := ChunkFiles(tools, sources, changed);
      var newEdges := tools.edges(sources);
      var rows := EmbedChunks(tools, sources, changed, pending);
      var stale := changed + deleted;
      chunks := Without(chunks, stale) + rows;
      edges := newEdges;
      fingerprints := (previous - stale) + (map p | p in changed :: hashes[p]);
      return IndexResult(|hashes|, |changed|, |deleted|, |pending|);
    }

    /** Pairs every new chunk with its embedding. */
    static method EmbedChunks(tools: Tools, ghost sources: Snapshot, ghost changed: set<Path>, pending: seq<Pending>)
      returns (rows: seq<Row>)
      requires |pending| == |NewRows(tools, sources, changed)|
      requires forall i :: 0 <= i < |pending| ==>
                 NewRows(tools, sources, changed)[i] ==
                 Row(pending[i].path, pending[i].chunk, tools.embed(pending[i].chunk.content))
      ensures rows == NewRows(tools, sources, changed) && |rows| == |pending|
    {
      var vectors := Embed(tools, seq(|pending|, i requires 0 <= i < |pending| => pending[i].chunk.content));
      rows := seq(|pending|, i requires 0 <= i < |pending| => Row(pending[i].path, pending[i].chunk, vectors[i]));
    }

    /** The chunks of the changed files, in walk order, as they will be stored. */
    static method ChunkFiles(tools: Tools, sources: Snapshot, changed: set<Path>) returns (pending: seq<Pending>)
      ensures |pending| == |NewRows(tools, sources, changed)|
      ensures forall i :: 0 <= i < |pending| ==>
                NewRows(tools, sources, changed)[i] ==
                Row(pending[i].path, pending[i].chunk, tools.embed(pending[i].chunk.content))
    {
      pending := [];
      var k := 0;
      while k < |sources|
        invariant k <= |sources| && |pending| == |NewRows(tools, sources[..k], changed)|
        invariant forall i :: 0 <= i < |pending| ==>
                    NewRows(tools, sources[..k], changed)[i] ==
                    Row(pending[i].path, pending[i].chunk, tools.embed(pending[i].chunk.content))
      {
        var source := sources[k];
        assert sources[..k + 1][..k] == sources[..k];
        if source.path in changed {
          var own := tools.chunk(source.path, source.content);
          pending := pending + seq(|own|, i requires 0 <= i < |own| => Pending(source.path, own[i]));
        }
        k := k + 1;
      }
      assert sources[..k] == sources;
    }

    /** Embeds texts in batches; cutting into batches loses, repeats and reorders nothing. */
    static method Embed(tools: Tools, contents: seq<string>) returns (vectors: seq<Vector>)
      ensures |vectors| == |contents|
      ensures forall i :: 0 <= i < |contents| ==> vectors[i] == tools.embed(contents[i])
    {
      vectors := [];
      var offset := 0;
      while offset < |contents|
        invariant |vectors| == if offset <= |contents| then offset else |contents|
        invariant forall i :: 0 <= i < |vectors| ==> vectors[i] == tools.embed(contents[i])
      {
        var end := if offset + EMBED_BATCH <= |contents| then offset + EMBED_BATCH else |contents|;
        var batch := contents[offset..end];
        vectors := vectors + seq(|batch|, i requires 0 <= i < |batch| => tools.embed(batch[i]));
        offset := offset + EMBED_BATCH;
      }
    }
  }
}
