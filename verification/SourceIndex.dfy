/** From a source file to the index and back: the chunks of the file, as entries of the index. */
module SourceIndex {
  import opened Entities
  import opened Utf8
  import opened Symbols
  import opened TreeSitter
  import opened Chunks
  import P = Provenance

  /** The chunk that the parser hands on; an absent symbol name is the empty string. */
  ghost function Parsed(content: Text, path: Text, language: Text, chunk: Chunk): P.ParsedChunk {
    P.ParsedChunk(chunk.content, chunk.index, MetadataOf(content, path, language, chunk))
  }

  ghost function SymbolName(content: Text, meta: Meta): Text {
    if meta.name.None? then [] else TextIn(content, meta.name.value.start, meta.name.value.end)
  }

  ghost function MetadataOf(content: Text, path: Text, language: Text, chunk: Chunk): P.Metadata {
    P.Metadata(Some(path), Some(language), Some(SymbolName(content, chunk.meta)),
               Some(P.Integer(chunk.startLine)), Some(P.Integer(chunk.endLine)))
  }

  ghost function ParsedFrom(content: Text, path: Text, language: Text, chunks: seq<Chunk>): (parsed: P.ParsedDocument)
    ensures |parsed.chunks| == |chunks|
  {
    P.ParsedDocument(content, seq(|chunks|, k requires 0 <= k < |chunks| => Parsed(content, path, language, chunks[k])), true)
  }

  ghost function ParsedFile(content: Text, path: Text, language: Text, root: Node, limit: nat): P.ParsedDocument
    requires SourceTree(content, root) && limit > 0
  {
    ParsedFrom(content, path, language, ChunksOf(content, PiecesOfTree(content, root, limit)))
  }

  /** The texts at positions 0 to n - 1 of a revision, one after the other. */
  function ReadBack(index: map<string, P.Entry>, document: Uuid, r: nat, n: nat): Text {
    if n == 0 then []
    else
      var id := P.ChunkId(document, r, n - 1);
      ReadBack(index, document, r, n - 1) + if id in index then index[id].content else []
  }

  lemma {:induction false} ReadBackJoins(index: map<string, P.Entry>, document: Uuid, r: nat, chunks: seq<Chunk>)
    requires forall k | 0 <= k < |chunks| ::
               P.ChunkId(document, r, k) in index && index[P.ChunkId(document, r, k)].content == chunks[k].content
    ensures ReadBack(index, document, r, |chunks|) == Join(chunks)
  {
    if chunks != [] {
      ReadBackJoins(index, document, r, chunks[..|chunks| - 1]);
    }
  }

  lemma IndexHoldsChunks(index: map<string, P.Entry>, document: P.Source, r: nat,
                         content: Text, path: Text, language: Text, chunks: seq<Chunk>)
    requires chunks != [] && forall k | 0 <= k < |chunks| :: chunks[k].index == k
    ensures
      var parsed := ParsedFrom(content, path, language, chunks);
      && P.InOrder(parsed)
      && ReadBack(P.Run(index, P.InsertCalls(document, parsed, Some(r))), document.id, r, |chunks|) == Join(chunks)
  {
    var parsed := ParsedFrom(content, path, language, chunks);
    var after := P.Run(index, P.InsertCalls(document, parsed, Some(r)));
    forall k | 0 <= k < |chunks|
      ensures P.ChunkId(document.id, r, k) in after && after[P.ChunkId(document.id, r, k)].content == chunks[k].content
    {
      P.IndexHoldsChunks(index, document, parsed, r, k);
    }
    ReadBackJoins(after, document.id, r, chunks);
  }

  /** Indexing a file with any well-nested tree: the entries of the revision, read by position,
      are the file. */
  lemma IndexHoldsFile(index: map<string, P.Entry>, document: P.Source, r: nat,
                       content: Text, path: Text, language: Text, root: Node, limit: nat)
    requires SourceTree(content, root) && limit > 0
    ensures
      var parsed := ParsedFile(content, path, language, root, limit);
      && P.InOrder(parsed) && parsed.chunks != []
      && ReadBack(P.Run(index, P.InsertCalls(document, parsed, Some(r))), document.id, r, |parsed.chunks|) == content
  {
    var chunks := ChunksOf(content, PiecesOfTree(content, root, limit));
    ChunkingIsLossless(content, root, limit);
    IndexHoldsChunks(index, document, r, content, path, language, chunks);
  }

  lemma ParsedIsScalar(content: Text, path: Text, language: Text, chunk: Chunk)
    requires P.Scalars(content) && P.Scalars(path) && P.Scalars(language)
    ensures P.ScalarMetadata(Parsed(content, path, language, chunk).metadata)
  {
    if chunk.meta.name.Some? { SliceIsScalar(content, chunk.meta.name.value.start, chunk.meta.name.value.end); }
  }

  lemma SliceIsScalar(content: Text, start: int, end: int)
    requires P.Scalars(content)
    ensures P.Scalars(TextIn(content, start, end))
  {
    if start <= end && Boundary(content, start) && Boundary(content, end) {
      Monotone(content, At(content, start), At(content, end));
      assert TextIn(content, start, end) == content[At(content, start)..At(content, end)];
    } else {
      assert TextIn(content, start, end) == [];
    }
  }

  /** A file decoded as strict UTF-8 has scalar values only, and so has every symbol name in it:
      each entry's citation then reads back as the payload of its chunk. */
  lemma ScalarFileCitations(index: map<string, P.Entry>, document: P.Source, r: nat,
                            content: Text, path: Text, language: Text, chunks: seq<Chunk>, k: nat)
    requires k < |chunks| && forall i | 0 <= i < |chunks| :: chunks[i].index == i
    requires P.Scalars(content) && P.Scalars(document.filename) && P.Scalars(path) && P.Scalars(language)
    ensures
      var parsed := ParsedFrom(content, path, language, chunks);
      var after := P.Run(index, P.InsertCalls(document, parsed, Some(r)));
      && P.ChunkId(document.id, r, k) in after
      && P.Decode(after[P.ChunkId(document.id, r, k)].citation) == Some(P.Payload(document, r, parsed.chunks[k]))
  {
    var parsed := ParsedFrom(content, path, language, chunks);
    P.IndexHoldsChunks(index, document, parsed, r, k);
    ParsedIsScalar(content, path, language, chunks[k]);
    P.ScalarCitationsRoundTrip(document, r, parsed.chunks[k]);
  }

  /** The citation stored at position `k` names the document, the revision and the lines of chunk `k`. */
  lemma StoredCitationSays(index: map<string, P.Entry>, document: P.Source, r: nat,
                           content: Text, path: Text, language: Text, chunks: seq<Chunk>, k: nat)
    requires k < |chunks| && forall i | 0 <= i < |chunks| :: chunks[i].index == i
    ensures
      var after := P.Run(index, P.InsertCalls(document, ParsedFrom(content, path, language, chunks), Some(r)));
      && P.ChunkId(document.id, r, k) in after
      && var m := MetadataOf(content, path, language, chunks[k]);
         && P.Cites(after[P.ChunkId(document.id, r, k)].citation, document, r, m)
         && m.startLine == Some(P.Integer(chunks[k].startLine)) && m.endLine == Some(P.Integer(chunks[k].endLine))
         && m.path == Some(path) && m.language == Some(language)
         && m.symbol == Some(SymbolName(content, chunks[k].meta))
  {
    var parsed := ParsedFrom(content, path, language, chunks);
    P.IndexHoldsChunks(index, document, parsed, r, k);
    P.CitationSays(document, r, parsed.chunks[k]);
  }

  /** Deleting the file with that active revision removes every entry again. */
  lemma DeletionForgetsFile(index: map<string, P.Entry>, document: P.Source, r: nat,
                            content: Text, path: Text, language: Text, chunks: seq<Chunk>, k: nat)
    requires k < |chunks| && document.active == Some(r) && forall i | 0 <= i < |chunks| :: chunks[i].index == i
    ensures
      var parsed := ParsedFrom(content, path, language, chunks);
      P.ChunkId(document.id, r, k) !in P.Run(index, P.InsertCalls(document, parsed, Some(r)) + P.DeleteCalls(document, parsed))
  {
    var parsed := ParsedFrom(content, path, language, chunks);
    P.DeleteUndoesInsert(index, document, parsed, r);
    assert P.ChunkDocuments(document, parsed, Some(r)).value.ids[k] == P.ChunkId(document.id, r, k);
  }
}
