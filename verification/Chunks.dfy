/** The chunks of a source file: lossless, within the token limit, with chained line ranges. */
module Chunks {
  import opened Entities
  import opened Utf8
  import opened Tokens
  import opened Symbols
  import opened TreeSitter
  import opened Pieces

  datatype Chunk = Chunk(content: Text, index: nat, meta: Meta, startLine: nat, endLine: nat)

  // ----- lines

  /** One plus the number of newline bytes before the offset. */
  function LineAt(source: Bytes, offset: int): (line: nat) {
    Newlines(source[..if offset < 0 then 0 else if offset > |source| then |source| else offset]) + 1
  }

  lemma LineStep(source: Bytes, offset: nat)
    requires offset < |source|
    ensures LineAt(source, offset + 1) == LineAt(source, offset) + if source[offset] == 10 then 1 else 0
  {
    assert source[..offset + 1][..offset] == source[..offset];
  }

  lemma {:induction false} LinesGrow(source: Bytes, a: nat, b: nat)
    requires a <= b <= |source|
    ensures LineAt(source, a) <= LineAt(source, b)
  {
    if a < b {
      LinesGrow(source, a, b - 1);
      LineStep(source, b - 1);
    }
  }

  // ----- pieces and chunks

  function LastByte(piece: Region): int {
    if piece.end - 1 > piece.start then piece.end - 1 else piece.start
  }

  ghost function ChunkOf(content: Text, piece: Region, index: nat): Chunk {
    var source := Encode(content);
    Chunk(TextIn(content, piece.start, piece.end), index, piece.meta,
          LineAt(source, piece.start), LineAt(source, LastByte(piece)))
  }

  ghost function ChunksOf(content: Text, pieces: seq<Region>): seq<Chunk> {
    seq(|pieces|, k requires 0 <= k < |pieces| => ChunkOf(content, pieces[k], k))
  }

  /** The parser's view of a source file: nodes nested in order, on character boundaries. */
  ghost predicate SourceTree(content: Text, root: Node) {
    WellNested(root) && 0 <= root.start && root.end <= |Encode(content)| && NodeEnds(root, Boundaries(content))
  }

  function RegionsOf(content: Text, root: Node): seq<Region> {
    Partitioned(0, |Encode(content)|, MODULE_META, Collected(root, None, false))
  }

  lemma WholeText(content: Text)
    ensures Offset(content, 0) == 0 && Offset(content, |content|) == |Encode(content)|
    ensures Boundary(content, 0) && Boundary(content, |Encode(content)|)
  {
    assert content[..0] == [] && content[..|content|] == content;
  }

  ghost function Splitter(content: Text, limit: nat): Region -> seq<Region>
    requires limit > 0
  {
    (region: Region) => PiecesOf(content, region, limit)
  }

  ghost function PiecesOfTree(content: Text, root: Node, limit: nat): seq<Region>
    requires limit > 0
  {
    AllPieces(Splitter(content, limit), RegionsOf(content, root), |RegionsOf(content, root)|)
  }

  /** Regions lie on character boundaries. */
  ghost predicate OnBoundaries(content: Text, regions: seq<Region>) {
    forall i {:trigger Bounded(content, regions[i])} | 0 <= i < |regions| :: Bounded(content, regions[i])
  }

  lemma RegionsOnBoundaries(content: Text, root: Node)
    requires SourceTree(content, root)
    ensures Tiles(RegionsOf(content, root), 0, |Encode(content)|) && RegionsOf(content, root) != []
    ensures OnBoundaries(content, RegionsOf(content, root))
  {
    var length, regions := |Encode(content)|, RegionsOf(content, root);
    WholeText(content);
    RegionsOfTree(root, length, 0);
    CollectedEnds(root, |root.named|, None, false, Boundaries(content));
    PartitionEnds(0, length, MODULE_META, Collected(root, None, false), Boundaries(content));
    forall i | 0 <= i < |regions| ensures Bounded(content, regions[i]) {
      TilesAt(regions, 0, length, i);
    }
  }

  ghost predicate PieceOk(content: Text, piece: Region, limit: nat) {
    Bounded(content, piece) && |Words(TextIn(content, piece.start, piece.end))| <= limit
  }

  ghost predicate PiecesOk(content: Text, pieces: seq<Region>, limit: nat) {
    forall k {:trigger PieceOk(content, pieces[k], limit)} | 0 <= k < |pieces| :: PieceOk(content, pieces[k], limit)
  }

  lemma SplitIsOk(content: Text, region: Region, limit: nat)
    requires limit > 0 && Bounded(content, region)
    ensures PiecesOk(content, PiecesOf(content, region, limit), limit)
    ensures forall j | 0 <= j < |PiecesOf(content, region, limit)| :: PiecesOf(content, region, limit)[j].meta == region.meta
  {
    var pieces := PiecesOf(content, region, limit);
    forall k | 0 <= k < |pieces| ensures PieceOk(content, pieces[k], limit) && pieces[k].meta == region.meta {
      if Splits(content, region, limit) { PieceIs(content, region, limit, k); }
    }
  }

  /** The token splitter tiles each region and keeps its metadata. */
  lemma SplitterIsGood(content: Text, regions: seq<Region>, limit: nat)
    requires limit > 0 && OnBoundaries(content, regions)
    ensures AllGood(Splitter(content, limit), regions)
  {
    forall i | 0 <= i < |regions| ensures Good(Splitter(content, limit), regions[i]) {
      assert Bounded(content, regions[i]);
      PiecesTile(content, regions[i], limit);
      SplitIsOk(content, regions[i], limit);
    }
  }

  /** The pieces of a file tile it, on character boundaries, each within the limit. */
  lemma TreePieces(content: Text, root: Node, limit: nat)
    requires SourceTree(content, root) && limit > 0
    ensures Tiles(PiecesOfTree(content, root, limit), 0, |Encode(content)|) && PiecesOfTree(content, root, limit) != []
    ensures PiecesOk(content, PiecesOfTree(content, root, limit), limit)
  {
    var regions, end := RegionsOf(content, root), |Encode(content)|;
    RegionsOnBoundaries(content, root);
    AllPiecesTileFile(content, regions, limit, end);
    AllPiecesOk(content, regions, limit);
  }

  lemma AllPiecesTileFile(content: Text, regions: seq<Region>, limit: nat, end: int)
    requires limit > 0 && OnBoundaries(content, regions) && regions != [] && Tiles(regions, 0, end)
    ensures
      var pieces := AllPieces(Splitter(content, limit), regions, |regions|);
      Tiles(pieces, 0, end) && pieces != []
  {
    SplitterIsGood(content, regions, limit);
    AllPiecesTile(Splitter(content, limit), regions, |regions|, 0, end);
    TilesAt(regions, 0, end, |regions| - 1);
  }

  lemma AllPiecesOk(content: Text, regions: seq<Region>, limit: nat)
    requires limit > 0 && OnBoundaries(content, regions)
    ensures PiecesOk(content, AllPieces(Splitter(content, limit), regions, |regions|), limit)
  {
    var split := Splitter(content, limit);
    var pieces := AllPieces(split, regions, |regions|);
    forall k | 0 <= k < |pieces| ensures PieceOk(content, pieces[k], limit) {
      var i, j := Origin(split, regions, |regions|, k);
      assert Bounded(content, regions[i]);
      SplitIsOk(content, regions[i], limit);
      assert PieceOk(content, PiecesOf(content, regions[i], limit)[j], limit);
    }
  }

  lemma ChunksSnoc(content: Text, pieces: seq<Region>, piece: Region)
    ensures ChunksOf(content, pieces + [piece]) == ChunksOf(content, pieces) + [ChunkOf(content, piece, |pieces|)]
  {}

  method SemanticChunks(content: Text, root: Node, limit: nat) returns (chunks: seq<Chunk>)
    requires SourceTree(content, root) && limit > 0
    ensures chunks == ChunksOf(content, PiecesOfTree(content, root, limit))
  {
    RegionsOnBoundaries(content, root);
    var source := Encode(content);
    var symbols := CollectSymbols(root, None, false);
    var regions := Partition(0, |source|, MODULE_META, symbols);
    chunks := ChunkRegions(source, regions, limit, content);
  }

  /** The outer loop of `SemanticChunks`. */
  method ChunkRegions(source: Bytes, regions: seq<Region>, limit: nat, ghost content: Text) returns (chunks: seq<Chunk>)
    requires source == Encode(content) && limit > 0 && OnBoundaries(content, regions)
    ensures chunks == ChunksOf(content, AllPieces(Splitter(content, limit), regions, |regions|))
  {
    chunks := [];
    for i := 0 to |regions|
      invariant chunks == ChunksOf(content, AllPieces(Splitter(content, limit), regions, i))
    {
      chunks := ChunkRegion(source, regions, i, limit, chunks, content);
    }
  }

  /** One round: split the region, and append its chunks. */
  method ChunkRegion(source: Bytes, regions: seq<Region>, i: nat, limit: nat, before: seq<Chunk>, ghost content: Text)
    returns (chunks: seq<Chunk>)
    requires source == Encode(content) && limit > 0 && OnBoundaries(content, regions) && i < |regions|
    requires before == ChunksOf(content, AllPieces(Splitter(content, limit), regions, i))
    ensures chunks == ChunksOf(content, AllPieces(Splitter(content, limit), regions, i + 1))
  {
    assert Bounded(content, regions[i]);
    var pieces := SplitByTokenLimit(source, regions[i], limit, content);
    SplitIsOk(content, regions[i], limit);
    NextPieces(content, regions, limit, i, pieces);
    chunks := AppendChunks(source, pieces, limit, before, content, AllPieces(Splitter(content, limit), regions, i));
  }

  lemma NextPieces(content: Text, regions: seq<Region>, limit: nat, i: nat, pieces: seq<Region>)
    requires limit > 0 && OnBoundaries(content, regions) && i < |regions| && pieces == PiecesOf(content, regions[i], limit)
    ensures
      AllPieces(Splitter(content, limit), regions, i + 1) == AllPieces(Splitter(content, limit), regions, i) + pieces
  {
    assert Bounded(content, regions[i]);
  }

  /** The inner loop. */
  method AppendChunks(source: Bytes, pieces: seq<Region>, ghost limit: nat, before: seq<Chunk>, ghost content: Text, ghost done: seq<Region>)
    returns (chunks: seq<Chunk>)
    requires source == Encode(content) && PiecesOk(content, pieces, limit) && before == ChunksOf(content, done)
    ensures chunks == ChunksOf(content, done + pieces)
  {
    chunks := before;
    assert done + [] == done;
    for j := 0 to |pieces|
      invariant chunks == ChunksOf(content, done + pieces[..j])
    {
      assert PieceOk(content, pieces[j], limit);
      var text := DecodePiece(source, pieces[j], content);
      ChunksSnoc(content, done + pieces[..j], pieces[j]);
      assert done + pieces[..j] + [pieces[j]] == done + pieces[..j + 1];
      var piece := pieces[j];
      chunks := chunks + [Chunk(text, |chunks|, piece.meta, LineAt(source, piece.start), LineAt(source, LastByte(piece)))];
    }
    assert pieces[..|pieces|] == pieces;
  }

  /** `source[start:end].decode()` succeeds on boundaries and gives the characters between them. */
  method DecodePiece(source: Bytes, piece: Region, ghost content: Text) returns (text: Text)
    requires source == Encode(content) && Bounded(content, piece)
    ensures text == TextIn(content, piece.start, piece.end)
  {
    ghost var a, b := Positions(content, piece.start, piece.end);
    RoundTrip(content[a..b]);
    text := Decode(source[piece.start..piece.end]).value;
  }

  // ----- theorems

  function Join(chunks: seq<Chunk>): Text {
    if chunks == [] then [] else Join(chunks[..|chunks| - 1]) + chunks[|chunks| - 1].content
  }

  /** Chunk `i` holds the characters from `ps[i]` to `ps[i + 1]`. */
  ghost predicate IsSlice(content: Text, chunks: seq<Chunk>, ps: seq<nat>, i: nat) {
    && i < |chunks| && i + 1 < |ps| && ps[i] <= ps[i + 1] <= |content|
    && chunks[i].content == content[ps[i]..ps[i + 1]]
  }

  /** Consecutive slices of a text concatenate to a prefix of it. */
  lemma {:induction false} JoinSlices(content: Text, chunks: seq<Chunk>, ps: seq<nat>, k: nat)
    requires |ps| == |chunks| + 1 && k <= |chunks| && ps[0] == 0
    requires forall i | 0 <= i < |chunks| :: IsSlice(content, chunks, ps, i)
    ensures ps[k] <= |content| && Join(chunks[..k]) == content[..ps[k]]
  {
    if k > 0 {
      JoinSlices(content, chunks, ps, k - 1);
      assert IsSlice(content, chunks, ps, k - 1);
      assert chunks[..k][..k - 1] == chunks[..k - 1];
      SlicesMeet(content, ps[k - 1], ps[k]);
    }
  }

  lemma SlicesMeet(content: Text, a: nat, b: nat)
    requires a <= b <= |content|
    ensures content[..a] + content[a..b] == content[..b]
  {}

  /** The character position at which piece `k` begins; after the last, the end of the text. */
  ghost function PieceStart(content: Text, pieces: seq<Region>, k: nat): nat
    requires k <= |pieces|
  {
    if k < |pieces| && Boundary(content, pieces[k].start) then At(content, pieces[k].start) else |content|
  }

  lemma PieceText(content: Text, pieces: seq<Region>, limit: nat, k: nat)
    requires PiecesOk(content, pieces, limit) && Tiles(pieces, 0, |Encode(content)|) && k < |pieces|
    ensures
      var a, b := PieceStart(content, pieces, k), PieceStart(content, pieces, k + 1);
      a <= b <= |content| && TextIn(content, pieces[k].start, pieces[k].end) == content[a..b]
  {
    assert PieceOk(content, pieces[k], limit);
    TilesAt(pieces, 0, |Encode(content)|, k);
    if k + 1 < |pieces| {
      assert PieceOk(content, pieces[k + 1], limit);
      TilesAt(pieces, 0, |Encode(content)|, k + 1);
    } else {
      WholeText(content);
      Monotone(content, At(content, pieces[k].end), |content|);
    }
    Monotone(content, At(content, pieces[k].start), At(content, pieces[k].end));
  }

  lemma JoinAll(content: Text, pieces: seq<Region>, limit: nat)
    requires PiecesOk(content, pieces, limit) && Tiles(pieces, 0, |Encode(content)|) && pieces != []
    ensures Join(ChunksOf(content, pieces)) == content
  {
    var chunks := ChunksOf(content, pieces);
    var ps := seq(|pieces| + 1, k requires 0 <= k <= |pieces| => PieceStart(content, pieces, k));
    forall i | 0 <= i < |chunks| ensures IsSlice(content, chunks, ps, i) {
      PieceText(content, pieces, limit, i);
    }
    FirstPieceStart(content, pieces, limit);
    JoinSlices(content, chunks, ps, |chunks|);
    assert chunks[..|chunks|] == chunks && content[..|content|] == content;
  }

  lemma FirstPieceStart(content: Text, pieces: seq<Region>, limit: nat)
    requires PiecesOk(content, pieces, limit) && Tiles(pieces, 0, |Encode(content)|) && pieces != []
    ensures PieceStart(content, pieces, 0) == 0
  {
    assert PieceOk(content, pieces[0], limit);
    WholeText(content);
    Monotone(content, At(content, pieces[0].start), 0);
  }

  /** Every character of the file is in exactly one chunk, in order. */
  lemma ChunkingIsLossless(content: Text, root: Node, limit: nat)
    requires SourceTree(content, root) && limit > 0
    ensures
      var chunks := ChunksOf(content, PiecesOfTree(content, root, limit));
      chunks != [] && Join(chunks) == content
  {
    TreePieces(content, root, limit);
    JoinAll(content, PiecesOfTree(content, root, limit), limit);
  }

  /** No chunk has more than `limit` tokens. */
  lemma ChunksFitLimit(content: Text, root: Node, limit: nat, k: nat)
    requires SourceTree(content, root) && limit > 0 && k < |PiecesOfTree(content, root, limit)|
    ensures |Words(ChunksOf(content, PiecesOfTree(content, root, limit))[k].content)| <= limit
  {
    TreePieces(content, root, limit);
    assert PieceOk(content, PiecesOfTree(content, root, limit)[k], limit);
  }

  // ----- line ranges

  lemma LastByteOf(s: Text)
    requires s != []
    ensures Encode(s) != [] && (Encode(s)[|Encode(s)| - 1] == 10 <==> s[|s| - 1] == NEWLINE)
  {
    var n := |s| - 1;
    EncodeConcat(s[..n], [s[n]]);
    assert s[..n] + [s[n]] == s && Encode([s[n]]) == EncodeOne(s[n]);
    LastByteIsNewline(s[n]);
  }

  predicate EndsLine(text: Text) {
    text != [] && text[|text| - 1] == NEWLINE
  }

  lemma LastOfSlice(source: Bytes, start: int, end: int)
    requires 0 <= start < end <= |source|
    ensures source[end - 1] == source[start..end][|source[start..end]| - 1]
  {}

  /** The last byte of `[start, end)` is a newline exactly when its last character is. */
  lemma LastByteIs(content: Text, start: int, end: int)
    requires start < end && Boundary(content, start) && Boundary(content, end)
    ensures 0 <= start && end <= |Encode(content)|
    ensures Encode(content)[end - 1] == 10 <==> EndsLine(TextIn(content, start, end))
  {
    var i, j := Positions(content, start, end);
    Monotone(content, i, j);
    LastOfSlice(Encode(content), start, end);
    LastByteOf(content[i..j]);
  }

  lemma EmptyPiece(content: Text, b: int)
    requires Boundary(content, b)
    ensures TextIn(content, b, b) == []
  {}

  lemma LineAfter(content: Text, piece: Region)
    requires Bounded(content, piece)
    ensures LineAt(Encode(content), piece.start) <= LineAt(Encode(content), LastByte(piece))
    ensures LineAt(Encode(content), piece.end)
         == LineAt(Encode(content), LastByte(piece))
            + if EndsLine(TextIn(content, piece.start, piece.end)) then 1 else 0
  {
    if piece.start < piece.end {
      LastByteIs(content, piece.start, piece.end);
      LinesGrow(Encode(content), piece.start, piece.end - 1);
      LineStep(Encode(content), piece.end - 1);
    } else {
      EmptyPiece(content, piece.start);
    }
  }

  /** Line ranges chain: the first chunk starts at line 1, and each later chunk starts on the line
      where the one before it ends, or on the next line if that one ends with a newline. */
  lemma LinesChain(content: Text, root: Node, limit: nat, k: nat)
    requires SourceTree(content, root) && limit > 0 && k < |PiecesOfTree(content, root, limit)|
    ensures
      var chunks := ChunksOf(content, PiecesOfTree(content, root, limit));
      && 1 <= chunks[k].startLine <= chunks[k].endLine
      && chunks[k].startLine ==
         if k == 0 then 1 else chunks[k - 1].endLine + if EndsLine(chunks[k - 1].content) then 1 else 0
  {
    TreePieces(content, root, limit);
    ChunkLines(content, PiecesOfTree(content, root, limit), limit, k);
  }

  lemma ChunkLines(content: Text, pieces: seq<Region>, limit: nat, k: nat)
    requires PiecesOk(content, pieces, limit) && Tiles(pieces, 0, |Encode(content)|) && k < |pieces|
    ensures
      var chunks := ChunksOf(content, pieces);
      && 1 <= chunks[k].startLine <= chunks[k].endLine
      && chunks[k].startLine ==
         if k == 0 then 1 else chunks[k - 1].endLine + if EndsLine(chunks[k - 1].content) then 1 else 0
  {
    ChunkAt(content, pieces, k);
    if k > 0 { ChunkAt(content, pieces, k - 1); }
    PieceLines(content, pieces, limit, k);
  }

  lemma ChunkAt(content: Text, pieces: seq<Region>, k: nat)
    requires k < |pieces|
    ensures ChunksOf(content, pieces)[k] == ChunkOf(content, pieces[k], k)
  {}

  lemma PieceLines(content: Text, pieces: seq<Region>, limit: nat, k: nat)
    requires PiecesOk(content, pieces, limit) && Tiles(pieces, 0, |Encode(content)|) && k < |pieces|
    ensures
      var chunk := ChunkOf(content, pieces[k], k);
      chunk.startLine <= chunk.endLine && (k == 0 ==> chunk.startLine == 1)
    ensures k > 0 ==>
              var last := ChunkOf(content, pieces[k - 1], k - 1);
              ChunkOf(content, pieces[k], k).startLine == last.endLine + if EndsLine(last.content) then 1 else 0
  {
    assert PieceOk(content, pieces[k], limit);
    TilesAt(pieces, 0, |Encode(content)|, k);
    LineAfter(content, pieces[k]);
    if k > 0 {
      assert PieceOk(content, pieces[k - 1], limit);
      TilesAt(pieces, 0, |Encode(content)|, k - 1);
      NextLine(content, pieces[k - 1], pieces[k], k);
    }
  }

  lemma NextLine(content: Text, before: Region, piece: Region, k: nat)
    requires k > 0 && Bounded(content, before) && before.end == piece.start
    ensures
      var last := ChunkOf(content, before, k - 1);
      ChunkOf(content, piece, k).startLine == last.endLine + if EndsLine(last.content) then 1 else 0
  {
    LineAfter(content, before);
  }

  // ----- labels

  /** Every chunk is labelled with the innermost symbol node around each of its bytes. */
  lemma ChunkLabels(content: Text, root: Node, limit: nat, k: nat, b: int)
    requires SourceTree(content, root) && limit > 0 && k < |PiecesOfTree(content, root, limit)|
    requires
      var piece := PiecesOfTree(content, root, limit)[k];
      Contains(piece.start, piece.end, b)
    ensures ChunksOf(content, PiecesOfTree(content, root, limit))[k].meta
         == Innermost(root, |root.named|, b, None, false, MODULE_META)
  {
    var regions, pieces, end := RegionsOf(content, root), PiecesOfTree(content, root, limit), |Encode(content)|;
    RegionsOnBoundaries(content, root);
    SplitterIsGood(content, regions, limit);
    TreePieces(content, root, limit);
    TilesAt(pieces, 0, end, k);
    TilesMetaAt(pieces, 0, end, k, b);
    SplittingKeepsMeta(Splitter(content, limit), regions, |regions|, b);
    assert regions[..|regions|] == regions;
    RegionsOfTree(root, end, b);
  }
}
