/** A region of the source split by token count, over its UTF-8 bytes. */
module TreeSitter {
  import opened Entities
  import opened Utf8
  import opened Tokens
  import opened Symbols

  ghost function Boundaries(content: Text): iset<int> {
    iset b | Boundary(content, b)
  }

  // ----- text between byte boundaries

  lemma Monotone(content: Text, i: nat, j: nat)
    requires i <= |content| && j <= |content|
    ensures Offset(content, i) < Offset(content, j) <==> i < j
    ensures Offset(content, i) == Offset(content, j) <==> i == j
  {
    if i <= j {
      OffsetIsStrict(content, i, j);
      SliceAtOffsets(content, i, j);
    } else {
      OffsetIsStrict(content, j, i);
      SliceAtOffsets(content, j, i);
    }
  }

  /** The character position of a boundary. */
  ghost function At(content: Text, b: int): (k: nat)
    requires Boundary(content, b)
    ensures k <= |content| && b == Offset(content, k)
  {
    var k: nat :| k <= |content| && b == Offset(content, k);
    k
  }

  /** The characters whose bytes are `[start, end)`. */
  ghost function TextIn(content: Text, start: int, end: int): Text {
    if start <= end && Boundary(content, start) && Boundary(content, end) then
      Monotone(content, At(content, start), At(content, end));
      content[At(content, start)..At(content, end)]
    else []
  }

  lemma TextInIs(content: Text, i: nat, j: nat)
    requires i <= j <= |content|
    ensures
      var start, end := Offset(content, i), Offset(content, j);
      && start <= end <= |Encode(content)| && Boundary(content, start) && Boundary(content, end)
      && TextIn(content, start, end) == content[i..j]
      && Encode(content)[start..end] == Encode(content[i..j])
  {
    SliceAtOffsets(content, i, j);
    var start, end := Offset(content, i), Offset(content, j);
    assert Boundary(content, start) && Boundary(content, end);
    Monotone(content, At(content, start), i);
    Monotone(content, At(content, end), j);
  }

  /** The character positions of a byte interval on boundaries. */
  lemma Positions(content: Text, start: int, end: int) returns (i: nat, j: nat)
    requires start <= end && Boundary(content, start) && Boundary(content, end)
    ensures i <= j <= |content| && start == Offset(content, i) && end == Offset(content, j)
    ensures 0 <= start && end <= |Encode(content)|
    ensures TextIn(content, start, end) == content[i..j]
    ensures Encode(content)[start..end] == Encode(content[i..j])
  {
    i, j := At(content, start), At(content, end);
    Monotone(content, i, j);
    TextInIs(content, i, j);
  }

  // ----- splitting a region

  ghost predicate Bounded(content: Text, region: Region) {
    region.start <= region.end && Boundary(content, region.start) && Boundary(content, region.end)
  }

  /** The first `c` characters, or all of them. */
  function Prefix(text: Text, c: nat): Text {
    if c <= |text| then text[..c] else text
  }

  /** The byte cut for a character cut of a text that begins at byte `start`. */
  function ByteCut(start: int, text: Text, cut: nat): int {
    start + |Encode(Prefix(text, cut))|
  }

  function ByteCuts(start: int, text: Text, cuts: seq<nat>): seq<int> {
    seq(|cuts|, k requires 0 <= k < |cuts| => ByteCut(start, text, cuts[k]))
  }

  function Pairwise(cuts: seq<int>, meta: Meta): seq<Region> {
    if |cuts| < 2 then [] else Pairwise(cuts[..|cuts| - 1], meta) + [Region(cuts[|cuts| - 2], cuts[|cuts| - 1], meta)]
  }

  ghost function PiecesOf(content: Text, region: Region, limit: nat): seq<Region>
    requires limit > 0
  {
    var text := TextIn(content, region.start, region.end);
    if |Words(text)| <= limit then [region] else Pairwise(ByteCuts(region.start, text, CutsOf(text, limit)), region.meta)
  }

  method SplitByTokenLimit(source: Bytes, region: Region, limit: nat, ghost content: Text) returns (pieces: seq<Region>)
    requires source == Encode(content) && limit > 0 && Bounded(content, region)
    ensures pieces == PiecesOf(content, region, limit)
  {
    ghost var i, j := Positions(content, region.start, region.end);
    RoundTrip(content[i..j]);
    var text := Decode(source[region.start..region.end]).value;
    if |Words(text)| <= limit {
      return [region];
    }
    var charCuts := CharCuts(text, limit);
    var byteCuts := EncodeCuts(region.start, text, charCuts);
    pieces := PairCuts(byteCuts, region.meta);
  }

  method EncodeCuts(start: int, text: Text, charCuts: seq<nat>) returns (byteCuts: seq<int>)
    ensures byteCuts == ByteCuts(start, text, charCuts)
  {
    byteCuts := [];
    for k := 0 to |charCuts|
      invariant byteCuts == ByteCuts(start, text, charCuts)[..k]
    {
      byteCuts := byteCuts + [ByteCut(start, text, charCuts[k])];
    }
  }

  method PairCuts(byteCuts: seq<int>, meta: Meta) returns (pieces: seq<Region>)
    requires byteCuts != []
    ensures pieces == Pairwise(byteCuts, meta)
  {
    pieces := [];
    for k := 1 to |byteCuts|
      invariant pieces == Pairwise(byteCuts[..k], meta)
    {
      pieces := pieces + [Region(byteCuts[k - 1], byteCuts[k], meta)];
      assert byteCuts[..k + 1][..k] == byteCuts[..k];
    }
    assert byteCuts[..|byteCuts|] == byteCuts;
  }

  lemma {:induction false} PairwiseAt(cuts: seq<int>, meta: Meta, k: nat)
    requires k + 1 < |cuts|
    ensures |Pairwise(cuts, meta)| == |cuts| - 1
    ensures Pairwise(cuts, meta)[k] == Region(cuts[k], cuts[k + 1], meta)
  {
    if |cuts| > 2 {
      PairwiseAt(cuts[..|cuts| - 1], meta, if k + 2 < |cuts| then k else 0);
    }
  }

  /** Byte cuts of a text inside the source are offsets in the source. */
  lemma OffsetShift(content: Text, i: nat, text: Text, c: nat)
    requires i + |text| <= |content| && text == content[i..i + |text|] && c <= |text|
    ensures ByteCut(Offset(content, i), text, c) == Offset(content, i + c)
  {
    assert text[..c] == content[i..i + c];
    SliceAtOffsets(content, i, i + c);
  }

  ghost predicate Splits(content: Text, region: Region, limit: nat) {
    limit > 0 && Bounded(content, region) && |Words(TextIn(content, region.start, region.end))| > limit
  }

  /** The span between cuts `k` and `k + 1` of the text that begins at character `i`. */
  lemma SpanOfCuts(content: Text, i: nat, text: Text, cuts: seq<nat>, a: nat, b: nat, pieces: seq<Region>, meta: Meta, k: nat)
    requires i + |text| <= |content| && text == content[i..i + |text|]
    requires k + 1 < |cuts| && a == cuts[k] && b == cuts[k + 1] && a <= |text| && b <= |text|
    requires pieces == Pairwise(ByteCuts(Offset(content, i), text, cuts), meta)
    ensures |pieces| == |cuts| - 1 && pieces[k].meta == meta
    ensures pieces[k].start == Offset(content, i + a) && pieces[k].end == Offset(content, i + b)
  {
    PairwiseAt(ByteCuts(Offset(content, i), text, cuts), meta, k);
    OffsetShift(content, i, text, a);
    OffsetShift(content, i, text, b);
  }

  lemma PiecesAre(content: Text, region: Region, limit: nat, i: nat, j: nat)
    requires Splits(content, region, limit) && i <= j <= |content|
    requires region.start == Offset(content, i) && region.end == Offset(content, j)
    ensures TextIn(content, region.start, region.end) == content[i..j]
    ensures PiecesOf(content, region, limit) ==
            Pairwise(ByteCuts(Offset(content, i), content[i..j], CutsOf(content[i..j], limit)), region.meta)
  {
    TextInIs(content, i, j);
  }

  /** A nonempty piece on character boundaries whose tokens are run number `k` of `words`. */
  ghost predicate HoldsPortion(content: Text, piece: Region, words: seq<Text>, limit: nat, k: nat) {
    && Bounded(content, piece) && piece.start < piece.end
    && Words(TextIn(content, piece.start, piece.end)) == Portion(words, limit, k) != []
  }

  /** A region with more than `limit` tokens splits into `ceil(n / limit)` pieces, which hold the
      successive runs of its tokens. */
  lemma PieceIs(content: Text, region: Region, limit: nat, k: nat)
    requires Splits(content, region, limit) && k < |PiecesOf(content, region, limit)|
    ensures
      var pieces := PiecesOf(content, region, limit);
      var words := Words(TextIn(content, region.start, region.end));
      && |pieces| == CeilDiv(|words|, limit) && pieces[k].meta == region.meta
      && HoldsPortion(content, pieces[k], words, limit, k)
  {
    var i, j := Positions(content, region.start, region.end);
    PiecesAre(content, region, limit, i, j);
    PieceBetweenCuts(content, i, content[i..j], region.meta, limit, PiecesOf(content, region, limit), k);
  }

  lemma PieceBetweenCuts(content: Text, i: nat, text: Text, meta: Meta, limit: nat, pieces: seq<Region>, k: nat)
    requires i + |text| <= |content| && text == content[i..i + |text|] && limit > 0 && |Words(text)| > limit
    requires pieces == Pairwise(ByteCuts(Offset(content, i), text, CutsOf(text, limit)), meta)
    requires k < |pieces|
    ensures |pieces| == CeilDiv(|Words(text)|, limit) && pieces[k].meta == meta
    ensures HoldsPortion(content, pieces[k], Words(text), limit, k)
  {
    PieceCount(content, i, text, meta, limit);
    PieceWords(text, limit, k);
    SpanWords(content, i, text, limit, CutsOf(text, limit), pieces, meta, k);
  }

  lemma PieceCount(content: Text, i: nat, text: Text, meta: Meta, limit: nat)
    requires i <= |content| && limit > 0 && |Words(text)| > limit
    ensures
      var pieces := Pairwise(ByteCuts(Offset(content, i), text, CutsOf(text, limit)), meta);
      |pieces| == CeilDiv(|Words(text)|, limit) == |CutsOf(text, limit)| - 1
  {
    CutAt(text, limit, 0);
    PairwiseAt(ByteCuts(Offset(content, i), text, CutsOf(text, limit)), meta, 0);
  }

  lemma SliceOfSlice(s: Text, i: nat, j: nat, a: nat, b: nat)
    requires i <= j <= |s| && a <= b <= j - i
    ensures s[i..j][a..b] == s[i + a..i + b]
  {
    var l, r := s[i..j][a..b], s[i + a..i + b];
    assert |l| == |r|;
    forall k | 0 <= k < |l| ensures l[k] == r[k] {
      assert l[k] == s[i..j][a + k] == s[i + a + k];
    }
  }

  lemma SpanWords(content: Text, i: nat, text: Text, limit: nat, cuts: seq<nat>, pieces: seq<Region>, meta: Meta, k: nat)
    requires i + |text| <= |content| && text == content[i..i + |text|] && CutsPortion(text, limit, cuts, k)
    requires pieces == Pairwise(ByteCuts(Offset(content, i), text, cuts), meta)
    ensures k < |pieces| && pieces[k].meta == meta && HoldsPortion(content, pieces[k], Words(text), limit, k)
  {
    var a, b := cuts[k], cuts[k + 1];
    SpanOfCuts(content, i, text, cuts, a, b, pieces, meta, k);
    SpanText(content, i, text, a, b, text[a..b], pieces[k]);
    HoldsText(content, text[a..b], pieces[k], Words(text), limit, k);
  }

  /** The span between two characters of a text inside the source holds the characters between them. */
  lemma SpanText(content: Text, i: nat, text: Text, a: nat, b: nat, part: Text, piece: Region)
    requires i + |text| <= |content| && text == content[i..i + |text|] && a < b <= |text| && part == text[a..b]
    requires piece.start == Offset(content, i + a) && piece.end == Offset(content, i + b)
    ensures Bounded(content, piece) && piece.start < piece.end && TextIn(content, piece.start, piece.end) == part
  {
    SliceOfSlice(content, i, i + |text|, a, b);
    TextOfOffsets(content, i + a, i + b, content[i + a..i + b], piece);
  }

  lemma HoldsText(content: Text, part: Text, piece: Region, words: seq<Text>, limit: nat, k: nat)
    requires Bounded(content, piece) && piece.start < piece.end && TextIn(content, piece.start, piece.end) == part
    requires Words(part) == Portion(words, limit, k) != []
    ensures HoldsPortion(content, piece, words, limit, k)
  {}

  lemma TextOfOffsets(content: Text, a: nat, b: nat, part: Text, piece: Region)
    requires a < b <= |content| && part == content[a..b]
    requires piece.start == Offset(content, a) && piece.end == Offset(content, b)
    ensures Bounded(content, piece) && piece.start < piece.end && TextIn(content, piece.start, piece.end) == part
  {
    TextInIs(content, a, b);
    Monotone(content, a, b);
  }

  lemma ByteCutsTile(content: Text, i: nat, j: nat, meta: Meta, limit: nat)
    requires i <= j <= |content| && limit > 0 && |Words(content[i..j])| > limit
    ensures
      var pieces := Pairwise(ByteCuts(Offset(content, i), content[i..j], CutsOf(content[i..j], limit)), meta);
      pieces != [] && Tiles(pieces, Offset(content, i), Offset(content, j))
  {
    var text := content[i..j];
    var cuts := CutsOf(text, limit);
    forall k | 0 <= k < |cuts| - 1 ensures cuts[k] <= cuts[k + 1] {
      CutAt(text, limit, k);
    }
    IncreasingTile(content, i, j, meta, cuts);
  }

  lemma IncreasingTile(content: Text, i: nat, j: nat, meta: Meta, cuts: seq<nat>)
    requires i <= j <= |content| && |cuts| >= 2 && cuts[0] == 0 && cuts[|cuts| - 1] == j - i
    requires forall k | 0 <= k < |cuts| - 1 :: cuts[k] <= cuts[k + 1]
    ensures
      var pieces := Pairwise(ByteCuts(Offset(content, i), content[i..j], cuts), meta);
      pieces != [] && Tiles(pieces, Offset(content, i), Offset(content, j))
  {
    var text := content[i..j];
    var bytes := ByteCuts(Offset(content, i), text, cuts);
    forall k | 0 <= k < |bytes| - 1 ensures bytes[k] <= bytes[k + 1] {
      PrefixGrows(text, cuts[k], cuts[k + 1]);
    }
    PairwiseTiles(bytes, meta);
    assert Prefix(text, 0) == [] && Prefix(text, |text|) == text;
    SliceAtOffsets(content, i, j);
  }

  lemma PrefixGrows(text: Text, a: nat, b: nat)
    requires a <= b
    ensures |Encode(Prefix(text, a))| <= |Encode(Prefix(text, b))|
  {
    var a', b' := if a <= |text| then a else |text|, if b <= |text| then b else |text|;
    assert text[..|text|] == text;
    SliceAtOffsets(text, a', b');
  }

  /** The pieces of a region tile it. */
  lemma PiecesTile(content: Text, region: Region, limit: nat)
    requires limit > 0 && Bounded(content, region)
    ensures Tiles(PiecesOf(content, region, limit), region.start, region.end)
    ensures PiecesOf(content, region, limit) != []
  {
    if Splits(content, region, limit) {
      var i, j := Positions(content, region.start, region.end);
      ByteCutsTile(content, i, j, region.meta, limit);
    }
  }

  lemma {:induction false} PairwiseTiles(cuts: seq<int>, meta: Meta)
    requires |cuts| >= 2 && forall k | 0 <= k < |cuts| - 1 :: cuts[k] <= cuts[k + 1]
    ensures Tiles(Pairwise(cuts, meta), cuts[0], cuts[|cuts| - 1]) && Pairwise(cuts, meta) != []
  {
    var n := |cuts|;
    assert Tiles([Region(cuts[n - 2], cuts[n - 1], meta)], cuts[n - 2], cuts[n - 1]);
    if n > 2 {
      PairwiseTiles(cuts[..n - 1], meta);
      TilesJoin(Pairwise(cuts[..n - 1], meta), [Region(cuts[n - 2], cuts[n - 1], meta)], cuts[0], cuts[n - 2], cuts[n - 1]);
    }
  }
}
