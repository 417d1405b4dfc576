/** Citations for code chunks, and the index calls that insert and delete them. */
module Provenance {
  import opened Entities
  import opened Utf8
  import opened Json
  import Base64
  import T = Text

  /** What `int(...)` makes of a metadata string. */
  datatype LineText = Integer(n: int) | NotAnInteger

  datatype Metadata = Metadata(
    path: Option<Text>, language: Option<Text>, symbol: Option<Text>,
    startLine: Option<LineText>, endLine: Option<LineText>)

  datatype ParsedChunk = ParsedChunk(content: Text, index: nat, metadata: Metadata)

  datatype ParsedDocument = ParsedDocument(content: Text, chunks: seq<ParsedChunk>, hasLanguage: bool)

  datatype Source = Source(id: Uuid, filename: Text, active: Option<nat>)

  // ----- citations

  function Codes(s: string): Text
    requires Ascii(s)
  {
    seq(|s|, i requires 0 <= i < |s| => s[i] as nat)
  }

  function PositiveInt(line: Option<LineText>): Value {
    if line.Some? && line.value.Integer? && line.value.n > 0 then Number(line.value.n) else Null
  }

  function Optional(s: Option<Text>): Value {
    match s case Some(text) => Str(text) case None => Null
  }

  /** `or`: an empty string counts as absent. */
  function NonEmpty(s: Option<Text>): Option<Text> {
    if s == Some([]) then None else s
  }

  function PathOf(document: Source, chunk: ParsedChunk): Text {
    match NonEmpty(chunk.metadata.path) case Some(path) => path case None => document.filename
  }

  lemma {:induction false} UuidIsAscii(u: Uuid)
    ensures Ascii(T.UuidText(u))
  {
    HexIsAscii(u, 32);
  }

  function IdText(document: Source): Text {
    UuidIsAscii(document.id);
    Codes(T.UuidText(document.id))
  }

  const KEYS := ["document_id", "end_line", "language", "path", "revision", "start_line", "symbol"]

  const DOCUMENT_ID: Text := Codes(KEYS[0])

  /** The payload, keys sorted. */
  function Payload(document: Source, revision: nat, chunk: ParsedChunk): seq<Member> {
    [Member(DOCUMENT_ID, Str(IdText(document))),
     Member(Codes(KEYS[1]), PositiveInt(chunk.metadata.endLine)),
     Member(Codes(KEYS[2]), Optional(chunk.metadata.language)),
     Member(Codes(KEYS[3]), Str(PathOf(document, chunk))),
     Member(Codes(KEYS[4]), Number(revision)),
     Member(Codes(KEYS[5]), PositiveInt(chunk.metadata.startLine)),
     Member(Codes(KEYS[6]), Optional(NonEmpty(chunk.metadata.symbol)))]
  }

  const PREFIX := "graph-blizz-source:"

  function ToBytes(s: string): Bytes
    requires Ascii(s)
  {
    seq(|s|, i requires 0 <= i < |s| => s[i] as nat)
  }

  function FromBytes(b: Bytes): Option<string> {
    if forall i | 0 <= i < |b| :: b[i] < 128 then Some(seq(|b|, i requires 0 <= i < |b| => b[i] as char)) else None
  }

  lemma BytesRoundTrip(s: string)
    requires Ascii(s)
    ensures FromBytes(ToBytes(s)) == Some(s)
  {
    var b := ToBytes(s);
    assert forall i | 0 <= i < |b| :: b[i] == s[i] as nat && b[i] as char == s[i];
    assert FromBytes(b).value == s;
  }

  lemma ObjectIsAscii(ms: seq<Member>)
    ensures Ascii(PrintObject(ms))
  {
    if ms != [] { MembersAreAscii(ms); }
  }

  function Encode(document: Source, revision: nat, chunk: ParsedChunk): string {
    var json := PrintObject(Payload(document, revision, chunk));
    ObjectIsAscii(Payload(document, revision, chunk));
    PREFIX + Base64.Strip(Base64.Padded(ToBytes(json)))
  }

  /** The last member with the key, as a dictionary keeps it. */
  function Lookup(ms: seq<Member>, key: Text): Option<Value> {
    if ms == [] then None
    else if ms[|ms| - 1].key == key then Some(ms[|ms| - 1].value)
    else Lookup(ms[..|ms| - 1], key)
  }

  predicate IsHexDigit(c: CodePoint) { c < 128 && HexDigit(c as char).Some? }

  const HYPHENS: set<nat> := {8, 13, 18, 23}

  /** The canonical layout, with digits of either case. */
  predicate IsUuid(s: Text) {
    |s| == 36 && forall i | 0 <= i < 36 :: if i in HYPHENS then s[i] == 45 else IsHexDigit(s[i])
  }

  function Decode(value: string): Option<seq<Member>> {
    if !(PREFIX <= value) then None
    else
      match Base64.Decode(Base64.Repad(value[|PREFIX|..]))
      case None => None
      case Some(raw) =>
        match FromBytes(raw)
        case None => None
        case Some(json) =>
          match ParseObject(json)
          case None => None
          case Some(payload) =>
            match Lookup(payload, DOCUMENT_ID)
            case Some(Str(id)) => if IsUuid(id) then Some(payload) else None
            case _ => None
  }

  // ----- citations round trip

  lemma {:induction false} HexDigitsOf(n: nat, width: nat, i: nat)
    requires i < width
    ensures T.Hex(n, width)[i] as nat < 128 && HexDigit(T.Hex(n, width)[i]).Some?
  {
    if i < width - 1 { HexDigitsOf(n / 16, width - 1, i); } else { HexDigitOf(n % 16); }
  }

  lemma UuidTextIsUuid(document: Source)
    ensures IsUuid(IdText(document))
  {
    UuidIsAscii(document.id);
    var s, h := T.UuidText(document.id), T.Hex(document.id, 32);
    forall i: nat | i < 36
      ensures if i in HYPHENS then IdText(document)[i] == 45 else IsHexDigit(IdText(document)[i])
    {
      if i !in HYPHENS {
        var j: nat := if i < 8 then i else if i < 13 then i - 1 else if i < 18 then i - 2 else if i < 23 then i - 3 else i - 4;
        assert s[i] == h[j];
        HexDigitsOf(document.id, 32, j);
      }
    }
  }

  lemma AsciiHasNoPair(s: string)
    requires Ascii(s)
    ensures Merge(Codes(s)) == Codes(s)
  {
    MergeIsIdentity(Codes(s));
  }

  /** What decoding gives back: the payload with its strings as JSON re-reads them. */
  function Reread(document: Source, revision: nat, chunk: ParsedChunk): seq<Member> {
    MergedMembers(Payload(document, revision, chunk))
  }

  lemma RereadIs(document: Source, revision: nat, chunk: ParsedChunk)
    ensures
      var p, r := Payload(document, revision, chunk), Reread(document, revision, chunk);
      && |r| == 7 && r[0] == p[0]
      && forall i | 0 <= i < 7 :: r[i] == Member(p[i].key, Merged(p[i].value))
  {
    MergedAt(Payload(document, revision, chunk));
    UuidIsAscii(document.id);
    AsciiHasNoPair(T.UuidText(document.id));
    KeysMerge();
  }

  lemma KeysMerge()
    ensures forall key | key in KEYS :: Ascii(key) && Merge(Codes(key)) == Codes(key)
  {
    assert forall key | key in KEYS :: Ascii(key);
    forall key | key in KEYS ensures Merge(Codes(key)) == Codes(key) { AsciiHasNoPair(key); }
  }

  lemma {:induction false} MergedAt(ms: seq<Member>)
    ensures |MergedMembers(ms)| == |ms|
    ensures forall i | 0 <= i < |ms| :: MergedMembers(ms)[i] == Member(Merge(ms[i].key), Merged(ms[i].value))
  {
    if ms != [] { MergedAt(ms[1..]); }
  }

  /** Decoding a citation gives back its payload, each string as JSON re-reads it. */
  lemma DecodeOfEncoded(document: Source, revision: nat, chunk: ParsedChunk)
    ensures Decode(Encode(document, revision, chunk)) == Some(Reread(document, revision, chunk))
  {
    var payload := Payload(document, revision, chunk);
    var json := PrintObject(payload);
    ObjectIsAscii(payload);
    var raw := ToBytes(json);
    Base64.RoundTrip(raw);
    BytesRoundTrip(json);
    ParseObjectOf(payload);
    var value := Encode(document, revision, chunk);
    assert value[|PREFIX|..] == Base64.Strip(Base64.Padded(raw));
    DocumentIdIsRead(document, revision, chunk);
  }

  lemma DocumentIdIsRead(document: Source, revision: nat, chunk: ParsedChunk)
    ensures Lookup(Reread(document, revision, chunk), DOCUMENT_ID) == Some(Str(IdText(document)))
    ensures IsUuid(IdText(document))
  {
    RereadIs(document, revision, chunk);
    UuidTextIsUuid(document);
    var r := Reread(document, revision, chunk);
    LookupFirst(r, DOCUMENT_ID);
  }

  lemma {:induction false} LookupFirst(ms: seq<Member>, key: Text)
    requires ms != [] && ms[0].key == key && forall i | 0 < i < |ms| :: ms[i].key != key
    ensures Lookup(ms, key) == Some(ms[0].value)
  {
    if |ms| > 1 { LookupFirst(ms[..|ms| - 1], key); }
  }

  function KeyText(key: string): Text {
    seq(|key|, i requires 0 <= i < |key| => key[i] as nat)
  }

  /** What a reader finds under a key of the decoded citation. */
  function Found(citation: string, key: string): Option<Value> {
    match Decode(citation) case Some(payload) => Lookup(payload, KeyText(key)) case None => None
  }

  /** A positive line number, or null. */
  predicate IsLine(value: Option<Value>, line: Option<LineText>) {
    match line
    case Some(Integer(n)) => value == Some(if n > 0 then Number(n) else Null)
    case _ => value == Some(Null)
  }

  /** A text as JSON re-reads it, or null. */
  predicate IsText(value: Option<Value>, text: Option<Text>) {
    value == Some(if text.Some? then Str(Merge(text.value)) else Null)
  }

  /** What a citation says of a chunk's origin. */
  predicate Cites(citation: string, document: Source, revision: nat, m: Metadata) {
    && Found(citation, "document_id") == Some(Str(KeyText(T.UuidText(document.id))))
    && Found(citation, "revision") == Some(Number(revision))
    && IsLine(Found(citation, "start_line"), m.startLine) && IsLine(Found(citation, "end_line"), m.endLine)
    && IsText(Found(citation, "path"), if m.path.Some? && m.path.value != [] then m.path else Some(document.filename))
    && IsText(Found(citation, "language"), m.language)
    && IsText(Found(citation, "symbol"), if m.symbol == Some([]) then None else m.symbol)
  }

  /** A citation says which document, revision and lines its chunk is from: under each key a reader
      finds the chunk's own datum. */
  lemma CitationSays(document: Source, revision: nat, chunk: ParsedChunk)
    ensures Cites(Encode(document, revision, chunk), document, revision, chunk.metadata)
  {
    NumbersFound(document, revision, chunk);
    TextsFound(document, revision, chunk);
  }

  lemma NumbersFound(document: Source, revision: nat, chunk: ParsedChunk)
    ensures
      var citation, m := Encode(document, revision, chunk), chunk.metadata;
      && Found(citation, "revision") == Some(Number(revision))
      && IsLine(Found(citation, "start_line"), m.startLine) && IsLine(Found(citation, "end_line"), m.endLine)
  {
    KeysByName();
    RereadIs(document, revision, chunk);
    KeyIsFound(document, revision, chunk, 1);
    KeyIsFound(document, revision, chunk, 4);
    KeyIsFound(document, revision, chunk, 5);
  }

  lemma TextsFound(document: Source, revision: nat, chunk: ParsedChunk)
    ensures
      var citation, m := Encode(document, revision, chunk), chunk.metadata;
      && Found(citation, "document_id") == Some(Str(KeyText(T.UuidText(document.id))))
      && IsText(Found(citation, "path"), if m.path.Some? && m.path.value != [] then m.path else Some(document.filename))
      && IsText(Found(citation, "language"), m.language)
      && IsText(Found(citation, "symbol"), if m.symbol == Some([]) then None else m.symbol)
  {
    KeysByName();
    RereadIs(document, revision, chunk);
    KeyIsFound(document, revision, chunk, 0);
    KeyIsFound(document, revision, chunk, 2);
    KeyIsFound(document, revision, chunk, 3);
    KeyIsFound(document, revision, chunk, 6);
    UuidIsAscii(document.id);
    assert Codes(T.UuidText(document.id)) == KeyText(T.UuidText(document.id));
  }

  lemma KeysByName()
    ensures KEYS[0] == "document_id" && KEYS[1] == "end_line" && KEYS[2] == "language" && KEYS[3] == "path"
    ensures KEYS[4] == "revision" && KEYS[5] == "start_line" && KEYS[6] == "symbol"
  {}

  lemma KeyIsFound(document: Source, revision: nat, chunk: ParsedChunk, i: nat)
    requires i < 7
    ensures |Reread(document, revision, chunk)| == 7
    ensures Found(Encode(document, revision, chunk), KEYS[i]) == Some(Reread(document, revision, chunk)[i].value)
  {
    DecodeOfEncoded(document, revision, chunk);
    KeyAt(document, revision, chunk);
    KeysDiffer();
    LookupAt(Reread(document, revision, chunk), i);
  }

  lemma KeyAt(document: Source, revision: nat, chunk: ParsedChunk)
    ensures |Reread(document, revision, chunk)| == 7
    ensures forall j | 0 <= j < 7 :: Reread(document, revision, chunk)[j].key == KeyText(KEYS[j])
  {
    RereadIs(document, revision, chunk);
    forall j | 0 <= j < 7 ensures Reread(document, revision, chunk)[j].key == KeyText(KEYS[j]) {
      assert j == 0 || j == 1 || j == 2 || j == 3 || j == 4 || j == 5 || j == 6;
    }
  }

  lemma KeysDiffer()
    ensures forall i, j | 0 <= i < j < 7 :: KeyText(KEYS[i]) != KeyText(KEYS[j])
  {
    forall i, j | 0 <= i < j < 7 ensures KeyText(KEYS[i]) != KeyText(KEYS[j]) {
      KeysByName();
      if |KEYS[i]| == |KEYS[j]| {
        assert KeyText(KEYS[i])[0] != KeyText(KEYS[j])[0];
      } else {
        assert |KeyText(KEYS[i])| != |KeyText(KEYS[j])|;
      }
    }
  }

  /** With distinct keys each member is found under its own. */
  lemma {:induction false} LookupAt(ms: seq<Member>, i: nat)
    requires i < |ms| && forall j, k | 0 <= j < k < |ms| :: ms[j].key != ms[k].key
    ensures Lookup(ms, ms[i].key) == Some(ms[i].value)
  {
    if i < |ms| - 1 { LookupAt(ms[..|ms| - 1], i); }
  }

  predicate ReadBackExactly(s: Option<Text>) { s.Some? ==> NoPair(s.value) }

  /** A citation round-trips exactly when none of its path, language and symbol has a high surrogate
      directly followed by a low one. */
  lemma CitationRoundTrip(document: Source, revision: nat, chunk: ParsedChunk)
    ensures Decode(Encode(document, revision, chunk)) == Some(Payload(document, revision, chunk))
       <==> && NoPair(PathOf(document, chunk)) && ReadBackExactly(chunk.metadata.language)
            && ReadBackExactly(NonEmpty(chunk.metadata.symbol))
  {
    DecodeOfEncoded(document, revision, chunk);
    RereadIs(document, revision, chunk);
    var p, r := Payload(document, revision, chunk), Reread(document, revision, chunk);
    MergeIsIdentity(PathOf(document, chunk));
    if chunk.metadata.language.Some? { MergeIsIdentity(chunk.metadata.language.value); }
    var symbol := NonEmpty(chunk.metadata.symbol);
    if symbol.Some? { MergeIsIdentity(symbol.value); }
    SameMembers(p, r);
  }

  lemma SameMembers(p: seq<Member>, r: seq<Member>)
    requires |p| == |r| == 7 && r[0] == p[0] && r[1] == p[1] && r[4] == p[4] && r[5] == p[5]
    ensures r == p <==> r[2] == p[2] && r[3] == p[3] && r[6] == p[6]
  {}

  /** Of a chunk without metadata only the file name is re-read with its pairs merged. */
  lemma FilenameIsMerged(document: Source, revision: nat, chunk: ParsedChunk)
    requires chunk.metadata == Metadata(None, None, None, None, None)
    ensures Decode(Encode(document, revision, chunk)) ==
            Some(Payload(document.(filename := Merge(document.filename)), revision, chunk))
  {
    DecodeOfEncoded(document, revision, chunk);
    RereadIs(document, revision, chunk);
    MergedPayload(document, revision, chunk);
    var r, p := Reread(document, revision, chunk), Payload(document.(filename := Merge(document.filename)), revision, chunk);
    SameSeven(r, p);
  }

  lemma SameSeven(a: seq<Member>, b: seq<Member>)
    requires |a| == |b| == 7 && a[0] == b[0]
    requires forall i | 1 <= i < 7 :: a[i] == b[i]
    ensures a == b
  {}

  lemma MergedPayload(document: Source, revision: nat, chunk: ParsedChunk)
    requires chunk.metadata == Metadata(None, None, None, None, None)
    ensures
      var p, p' := Payload(document, revision, chunk), Payload(document.(filename := Merge(document.filename)), revision, chunk);
      && |p| == |p'| == 7 && p'[0] == p[0]
      && forall i | 1 <= i < 7 :: p'[i] == Member(p[i].key, Merged(p[i].value))
  {
    var p, p' := Payload(document, revision, chunk), Payload(document.(filename := Merge(document.filename)), revision, chunk);
    forall i | 1 <= i < 7 ensures p'[i] == Member(p[i].key, Merged(p[i].value)) {
      assert i == 1 || i == 2 || i == 3 || i == 4 || i == 5 || i == 6;
    }
  }

  /** A citation that does not round-trip: the reader gets U+10000 for a pair of surrogates. */
  lemma PairedFilenameIsMerged(document: Source, chunk: ParsedChunk)
    requires document == Source(0, [0xD800, 0xDC00], Some(1))
    requires chunk == ParsedChunk([], 0, Metadata(None, None, None, None, None))
    ensures Decode(Encode(document, 1, chunk)) == Some(Payload(document.(filename := [0x10000]), 1, chunk))
    ensures Decode(Encode(document, 1, chunk)) != Some(Payload(document, 1, chunk))
  {
    FilenameIsMerged(document, 1, chunk);
    assert Merge(document.filename) == [0x10000] by { assert document.filename[2..] == []; }
    assert Payload(document, 1, chunk)[3].value == Str(document.filename);
    assert Payload(document.(filename := [0x10000]), 1, chunk)[3].value == Str([0x10000]);
  }

  /** Strings of Unicode scalar values have no surrogates. */
  predicate Scalars(s: Text) {
    forall i | 0 <= i < |s| :: !HighSurrogate(s[i]) && !LowSurrogate(s[i])
  }

  predicate ScalarMetadata(m: Metadata) {
    && (m.path.Some? ==> Scalars(m.path.value)) && (m.language.Some? ==> Scalars(m.language.value))
    && (m.symbol.Some? ==> Scalars(m.symbol.value))
  }

  lemma ScalarCitationsRoundTrip(document: Source, revision: nat, chunk: ParsedChunk)
    requires Scalars(document.filename) && ScalarMetadata(chunk.metadata)
    ensures Decode(Encode(document, revision, chunk)) == Some(Payload(document, revision, chunk))
  {
    CitationRoundTrip(document, revision, chunk);
  }

  /** Anything without the prefix, or not ASCII, is not a citation. */
  lemma ForeignValuesAreRejected(value: string)
    requires !(PREFIX <= value) || !Ascii(value)
    ensures Decode(value) == None
  {
    if PREFIX <= value {
      var encoded := value[|PREFIX|..];
      assert value == PREFIX + encoded;
      AsciiJoin(PREFIX, encoded);
      NotAsciiFails(encoded);
    }
  }

  lemma NotAsciiFails(encoded: string)
    requires !Ascii(encoded)
    ensures Base64.Decode(Base64.Repad(encoded)) == None
  {
    AsciiJoin(encoded, Base64.Equals((4 - |encoded| % 4) % 4));
  }

  lemma AsciiJoin(a: string, b: string)
    ensures Ascii(a + b) <==> Ascii(a) && Ascii(b)
  {
    if Ascii(a + b) {
      forall i | 0 <= i < |a| ensures a[i] as nat < 128 { assert (a + b)[i] == a[i]; }
      forall i | 0 <= i < |b| ensures b[i] as nat < 128 { assert (a + b)[|a| + i] == b[i]; }
    }
  }

  // ----- chunk identities

  function ChunkId(document: Uuid, revision: nat, index: nat): string {
    "source-" + T.UuidText(document) + "-r" + T.Decimal(revision) + "-c" + T.Decimal(index)
  }

  lemma ChunkIdParts(document: Uuid, revision: nat, index: nat)
    ensures
      var id, r := ChunkId(document, revision, index), T.Decimal(revision);
      && |id| > 45 && id[7..43] == T.UuidText(document)
      && id[45..] == r + ("-c" + T.Decimal(index))
      && DigitRun(id[45..]) == |r|
  {
    var id, u, r := ChunkId(document, revision, index), T.UuidText(document), T.Decimal(revision);
    var tail := "-c" + T.Decimal(index);
    assert id == ("source-" + u + "-r") + (r + tail);
    assert |"source-" + u + "-r"| == 45;
    DigitRunOf(r, tail);
  }

  /** Different documents, revisions or positions give different identities. */
  lemma ChunkIdIsInjective(document: Uuid, revision: nat, index: nat, document': Uuid, revision': nat, index': nat)
    requires ChunkId(document, revision, index) == ChunkId(document', revision', index')
    ensures document == document' && revision == revision' && index == index'
  {
    ChunkIdParts(document, revision, index);
    ChunkIdParts(document', revision', index');
    T.UuidTextIsInjective(document, document');
    var tail := ChunkId(document, revision, index)[45..];
    var n := DigitRun(tail);
    var r, r', c, c' := T.Decimal(revision), T.Decimal(revision'), T.Decimal(index), T.Decimal(index');
    assert r == tail[..n] == r';
    T.DecimalRoundTrip(revision);
    T.DecimalRoundTrip(revision');
    assert c == tail[n..][2..] == c';
    T.DecimalRoundTrip(index);
    T.DecimalRoundTrip(index');
  }

  // ----- inserting and deleting

  datatype Entry = Entry(content: Text, citation: string)

  /** The calls made on the index. */
  datatype Call =
    | InsertWhole(content: Text)
    | InsertChunks(contents: seq<Text>, ids: seq<string>, citations: seq<string>)
    | DeleteWhole(content: Text)
    | DeleteId(id: string)

  datatype CodeDocuments = CodeDocuments(contents: seq<Text>, ids: seq<string>, citations: seq<string>)

  /** The constructor's check of a parsed document: positions count up from zero. */
  predicate InOrder(parsed: ParsedDocument) {
    forall k | 0 <= k < |parsed.chunks| :: parsed.chunks[k].index == k
  }

  function Chosen(document: Source, revision: Option<nat>): Option<nat> {
    if revision.None? then document.active else revision
  }

  /** Code chunks have an entry each; any other document is one entry of its own. */
  predicate IsChunked(document: Source, parsed: ParsedDocument, revision: Option<nat>) {
    parsed.chunks != [] && parsed.hasLanguage && Chosen(document, revision).Some?
  }

  /** Documents, identities and citations for code chunks; nothing for other documents. */
  function ChunkDocuments(document: Source, parsed: ParsedDocument, revision: Option<nat>): (r: Option<CodeDocuments>)
    ensures r.Some? ==> |r.value.ids| == |r.value.contents| == |r.value.citations| == |parsed.chunks|
  {
    var chosen := Chosen(document, revision);
    if !IsChunked(document, parsed, revision) then None
    else
      var n := |parsed.chunks|;
      Some(CodeDocuments(
             seq(n, i requires 0 <= i < n => parsed.chunks[i].content),
             seq(n, i requires 0 <= i < n => ChunkId(document.id, chosen.value, parsed.chunks[i].index)),
             seq(n, i requires 0 <= i < n => Encode(document, chosen.value, parsed.chunks[i]))))
  }

  /** When a document is indexed by chunks: it has some, it is source code, and a revision is given or
      active. Otherwise it is indexed whole, in both directions. */
  lemma ChunkedExactly(document: Source, parsed: ParsedDocument, revision: Option<nat>)
    ensures
      var byChunks := parsed.chunks != [] && parsed.hasLanguage && (revision.Some? || document.active.Some?);
      && (InsertCalls(document, parsed, revision) == [InsertWhole(parsed.content)] <==> !byChunks)
      && (!byChunks && revision == None ==> DeleteCalls(document, parsed) == [DeleteWhole(parsed.content)])
      && (byChunks && revision == None ==>
            && |DeleteCalls(document, parsed)| == |parsed.chunks|
            && forall k | 0 <= k < |parsed.chunks| ::
                 DeleteCalls(document, parsed)[k] == DeleteId(ChunkId(document.id, document.active.value, parsed.chunks[k].index)))
  {}

  class Rag {
    var calls: seq<Call>

    constructor ()
      ensures calls == []
    {
      calls := [];
    }
  }

  function InsertCalls(document: Source, parsed: ParsedDocument, revision: Option<nat>): seq<Call> {
    match ChunkDocuments(document, parsed, revision)
    case None => [InsertWhole(parsed.content)]
    case Some(d) => [InsertChunks(d.contents, d.ids, d.citations)]
  }

  function Deletions(ids: seq<string>): seq<Call> {
    seq(|ids|, i requires 0 <= i < |ids| => DeleteId(ids[i]))
  }

  function DeleteCalls(document: Source, parsed: ParsedDocument): seq<Call> {
    match ChunkDocuments(document, parsed, None)
    case None => [DeleteWhole(parsed.content)]
    case Some(d) => Deletions(d.ids)
  }

  /** What one call of the insertion hands to the index: the whole text, or for each chunk its own
      text, its own identity, and a citation that reads back as the chunk's payload. */
  ghost predicate Hands(call: Call, document: Source, parsed: ParsedDocument, revision: Option<nat>) {
    if !IsChunked(document, parsed, revision) then call == InsertWhole(parsed.content)
    else
      && call.InsertChunks? && |call.contents| == |call.ids| == |call.citations| == |parsed.chunks|
      && forall k | 0 <= k < |parsed.chunks| ::
           var r := Chosen(document, revision).value;
           && call.contents[k] == parsed.chunks[k].content
           && call.ids[k] == ChunkId(document.id, r, parsed.chunks[k].index)
           && Decode(call.citations[k]) == Some(Reread(document, r, parsed.chunks[k]))
  }

  method InsertParsedDocument(rag: Rag, document: Source, parsed: ParsedDocument, revision: Option<nat>)
    modifies rag
    ensures rag.calls == old(rag.calls) + InsertCalls(document, parsed, revision)
    ensures |rag.calls| == |old(rag.calls)| + 1 && Hands(rag.calls[|old(rag.calls)|], document, parsed, revision)
    ensures rag.calls[|old(rag.calls)|] == InsertWhole(parsed.content) <==>
            parsed.chunks == [] || !parsed.hasLanguage || (revision == None && document.active == None)
  {
    var documents := ChunkDocuments(document, parsed, revision);
    if documents.None? {
      rag.calls := rag.calls + [InsertWhole(parsed.content)];
      return;
    }
    var d := documents.value;
    rag.calls := rag.calls + [InsertChunks(d.contents, d.ids, d.citations)];
    forall k | 0 <= k < |parsed.chunks|
      ensures Decode(d.citations[k]) == Some(Reread(document, Chosen(document, revision).value, parsed.chunks[k]))
    {
      DecodeOfEncoded(document, Chosen(document, revision).value, parsed.chunks[k]);
    }
  }

  method DeleteIndexedDocument(rag: Rag, document: Source, parsed: ParsedDocument)
    modifies rag
    ensures rag.calls == old(rag.calls) + DeleteCalls(document, parsed)
  {
    var documents := ChunkDocuments(document, parsed, None);
    if documents.None? {
      rag.calls := rag.calls + [DeleteWhole(parsed.content)];
      return;
    }
    var ids := documents.value.ids;
    for i := 0 to |ids|
      invariant rag.calls == old(rag.calls) + Deletions(ids)[..i]
    {
      rag.calls := rag.calls + [DeleteId(ids[i])];
    }
  }

  /** The chunk entries of the index after a call; whole documents are not among them. */
  function After(index: map<string, Entry>, call: Call): map<string, Entry> {
    match call
    case InsertChunks(contents, ids, citations) =>
      if |contents| == |ids| == |citations| then Inserted(index, contents, ids, citations) else index
    case DeleteId(id) => index - {id}
    case _ => index
  }

  function Inserted(index: map<string, Entry>, contents: seq<Text>, ids: seq<string>, citations: seq<string>): map<string, Entry>
    requires |contents| == |ids| == |citations|
  {
    if ids == [] then index
    else
      var n := |ids| - 1;
      Inserted(index, contents[..n], ids[..n], citations[..n])[ids[n] := Entry(contents[n], citations[n])]
  }

  function Run(index: map<string, Entry>, calls: seq<Call>): map<string, Entry> {
    if calls == [] then index else After(Run(index, calls[..|calls| - 1]), calls[|calls| - 1])
  }

  lemma {:induction false} InsertedKeys(index: map<string, Entry>, contents: seq<Text>, ids: seq<string>, citations: seq<string>)
    requires |contents| == |ids| == |citations|
    ensures
      var after := Inserted(index, contents, ids, citations);
      && after.Keys == index.Keys + (set id | id in ids)
      && forall id | id in index && id !in ids :: after[id] == index[id]
  {
    if ids != [] {
      var n := |ids| - 1;
      InsertedKeys(index, contents[..n], ids[..n], citations[..n]);
      assert ids == ids[..n] + [ids[n]];
    }
  }

  /** With distinct identities every inserted chunk has an entry with its own text and citation. */
  lemma {:induction false} InsertedEntry(index: map<string, Entry>, contents: seq<Text>, ids: seq<string>, citations: seq<string>, k: nat)
    requires |contents| == |ids| == |citations| && k < |ids|
    requires forall i, j | 0 <= i < j < |ids| :: ids[i] != ids[j]
    ensures ids[k] in Inserted(index, contents, ids, citations)
    ensures Inserted(index, contents, ids, citations)[ids[k]] == Entry(contents[k], citations[k])
  {
    var n := |ids| - 1;
    if k < n { InsertedEntry(index, contents[..n], ids[..n], citations[..n], k); }
  }

  /** After an insertion the index has, under the identity of each position, exactly that chunk. */
  lemma IndexHoldsChunks(index: map<string, Entry>, document: Source, parsed: ParsedDocument, r: nat, k: nat)
    requires InOrder(parsed) && IsChunked(document, parsed, Some(r)) && k < |parsed.chunks|
    ensures
      var after := Run(index, InsertCalls(document, parsed, Some(r)));
      && ChunkId(document.id, r, k) in after
      && after[ChunkId(document.id, r, k)] == Entry(parsed.chunks[k].content, Encode(document, r, parsed.chunks[k]))
  {
    var d := ChunkDocuments(document, parsed, Some(r)).value;
    forall i, j | 0 <= i < j < |d.ids| ensures d.ids[i] != d.ids[j] {
      if d.ids[i] == d.ids[j] { ChunkIdIsInjective(document.id, r, i, document.id, r, j); }
    }
    RunOne(index, InsertChunks(d.contents, d.ids, d.citations));
    InsertedEntry(index, d.contents, d.ids, d.citations, k);
  }

  lemma {:induction false} DeletedKeys(index: map<string, Entry>, ids: seq<string>)
    ensures Run(index, Deletions(ids)) == index - (set id | id in ids)
  {
    if ids == [] {
      assert index - {} == index;
    } else {
      var n := |ids| - 1;
      DeletedKeys(index, ids[..n]);
      assert Deletions(ids)[..n] == Deletions(ids[..n]);
      assert ids == ids[..n] + [ids[n]];
      assert (set id | id in ids) == (set id | id in ids[..n]) + {ids[n]};
    }
  }

  lemma {:induction false} RunConcat(index: map<string, Entry>, a: seq<Call>, b: seq<Call>)
    ensures Run(index, a + b) == Run(Run(index, a), b)
  {
    if b == [] {
      assert a + b == a;
    } else {
      RunConcat(index, a, b[..|b| - 1]);
      assert (a + b)[..|a + b| - 1] == a + b[..|b| - 1];
    }
  }

  /** Deleting with active revision `r` undoes inserting with revision `r`: the entries left are
      those of the index before, without the document's chunks of that revision. */
  lemma DeleteUndoesInsert(index: map<string, Entry>, document: Source, parsed: ParsedDocument, r: nat)
    requires document.active == Some(r) && parsed.chunks != [] && parsed.hasLanguage
    ensures
      var ids := ChunkDocuments(document, parsed, Some(r)).value.ids;
      Run(index, InsertCalls(document, parsed, Some(r)) + DeleteCalls(document, parsed)) == index - (set id | id in ids)
  {
    var d := ChunkDocuments(document, parsed, Some(r)).value;
    assert ChunkDocuments(document, parsed, None) == Some(d);
    var inserts := InsertCalls(document, parsed, Some(r));
    RunConcat(index, inserts, DeleteCalls(document, parsed));
    assert Run(index, inserts) == Inserted(index, d.contents, d.ids, d.citations) by {
      assert inserts[..0] == [];
    }
    InsertedKeys(index, d.contents, d.ids, d.citations);
    DeletedKeys(Inserted(index, d.contents, d.ids, d.citations), d.ids);
  }

  lemma OtherIdsDiffer(document: Source, parsed: ParsedDocument, r: nat, other: Uuid, r': nat, k: nat)
    requires document.active == Some(r) && (other != document.id || r' != r)
    requires ChunkDocuments(document, parsed, Some(r)).Some?
    ensures ChunkId(other, r', k) !in ChunkDocuments(document, parsed, Some(r)).value.ids
  {
    var ids := ChunkDocuments(document, parsed, Some(r)).value.ids;
    forall i | 0 <= i < |ids| ensures ids[i] != ChunkId(other, r', k) {
      if ids[i] == ChunkId(other, r', k) { ChunkIdIsInjective(document.id, r, parsed.chunks[i].index, other, r', k); }
    }
  }

  lemma RunOne(index: map<string, Entry>, call: Call)
    ensures Run(index, [call]) == After(index, call)
  {
    assert [call][..0] == [];
  }

  /** Neither call touches the chunks of another document or another revision. */
  lemma OtherChunksAreUntouched(index: map<string, Entry>, document: Source, parsed: ParsedDocument, r: nat,
                                other: Uuid, r': nat, k: nat)
    requires document.active == Some(r) && (other != document.id || r' != r)
    ensures
      var id := ChunkId(other, r', k);
      var inserted := Run(index, InsertCalls(document, parsed, Some(r)));
      var deleted := Run(index, DeleteCalls(document, parsed));
      && (id in inserted <==> id in index) && (id in index ==> inserted[id] == index[id])
      && (id in deleted <==> id in index) && (id in index ==> deleted[id] == index[id])
  {
    match ChunkDocuments(document, parsed, Some(r))
    case None =>
      RunOne(index, InsertWhole(parsed.content));
      RunOne(index, DeleteWhole(parsed.content));
    case Some(d) =>
      OtherIdsDiffer(document, parsed, r, other, r', k);
      RunOne(index, InsertChunks(d.contents, d.ids, d.citations));
      InsertedKeys(index, d.contents, d.ids, d.citations);
      DeletedKeys(index, d.ids);
  }
}
