/** UTF-8 with surrogates passed through, over texts as sequences of code points. */
module Utf8 {
  import opened Entities

  type CodePoint = n: nat | n < 0x110000
  type Byte = n: nat | n < 256
  type Text = seq<CodePoint>
  type Bytes = seq<Byte>

  function EncodeOne(c: CodePoint): (b: Bytes)
    ensures 1 <= |b| <= 4
  {
    if c < 0x80 then [c]
    else if c < 0x800 then [0xC0 + c / 0x40, 0x80 + c % 0x40]
    else if c < 0x10000 then [0xE0 + c / 0x1000, 0x80 + c / 0x40 % 0x40, 0x80 + c % 0x40]
    else [0xF0 + c / 0x40000, 0x80 + c / 0x1000 % 0x40, 0x80 + c / 0x40 % 0x40, 0x80 + c % 0x40]
  }

  /** The byte layouts of UTF-8: the lead byte gives the length, continuation bytes are 80 to BF, and
      the payload bits are those of the number. */
  lemma EncodedShape(c: CodePoint)
    ensures |EncodeOne(c)| == if c < 0x80 then 1 else if c < 0x800 then 2 else if c < 0x10000 then 3 else 4
    ensures forall i | 0 < i < |EncodeOne(c)| :: 0x80 <= EncodeOne(c)[i] < 0xC0
    ensures Payload(EncodeOne(c)) == c
    ensures Lead(EncodeOne(c)[0], |EncodeOne(c)|)
  {
    Digits64(c);
  }

  predicate Lead(b: Byte, width: nat) {
    if width == 1 then b < 0x80
    else if width == 2 then 0xC2 <= b < 0xE0
    else if width == 3 then 0xE0 <= b < 0xF0
    else 0xF0 <= b < 0xF5
  }

  /** The number that the payload bits of one to four bytes spell. */
  function Payload(b: Bytes): int
    requires 1 <= |b| <= 4
  {
    if |b| == 1 then b[0] as int
    else if |b| == 2 then (b[0] as int - 0xC0) * 64 + (b[1] as int - 0x80)
    else if |b| == 3 then ((b[0] as int - 0xE0) * 64 + (b[1] as int - 0x80)) * 64 + (b[2] as int - 0x80)
    else (((b[0] as int - 0xF0) * 64 + (b[1] as int - 0x80)) * 64 + (b[2] as int - 0x80)) * 64 + (b[3] as int - 0x80)
  }

  function Encode(s: Text): Bytes {
    if s == [] then [] else EncodeOne(s[0]) + Encode(s[1..])
  }

  function Width(lead: Byte): nat {
    if lead < 0x80 then 1 else if lead < 0xE0 then 2 else if lead < 0xF0 then 3 else 4
  }

  /** The payload of a continuation byte. */
  function Low(b: Byte): int { b as int % 0x40 }

  function DecodeOne(b: Bytes): Option<CodePoint>
    requires b != [] && |b| >= Width(b[0])
  {
    var lead := b[0] as int;
    if lead < 0x80 then Some(lead)
    else if lead < 0xC0 then None
    else if lead < 0xE0 then Some((lead - 0xC0) * 0x40 + Low(b[1]))
    else if lead < 0xF0 then Some((lead - 0xE0) * 0x1000 + Low(b[1]) * 0x40 + Low(b[2]))
    else
      var n := (lead - 0xF0) * 0x40000 + Low(b[1]) * 0x1000 + Low(b[2]) * 0x40 + Low(b[3]);
      if n < 0x110000 then Some(n) else None
  }

  function Decode(b: Bytes): Option<Text> {
    if b == [] then Some([])
    else if |b| < Width(b[0]) then None
    else
      match (DecodeOne(b), Decode(b[Width(b[0])..]))
      case (Some(c), Some(rest)) => Some([c] + rest)
      case _ => None
  }

  lemma LowOf(n: nat)
    requires n < 0x40
    ensures Low(0x80 + n) == n
  {}

  lemma Digits64(c: nat)
    ensures c == c / 0x40 * 0x40 + c % 0x40
    ensures c == c / 0x1000 * 0x1000 + c / 0x40 % 0x40 * 0x40 + c % 0x40
    ensures c == c / 0x40000 * 0x40000 + c / 0x1000 % 0x40 * 0x1000 + c / 0x40 % 0x40 * 0x40 + c % 0x40
  {
    assert c / 0x1000 == c / 0x40 / 0x40;
    assert c / 0x40000 == c / 0x1000 / 0x40;
  }

  lemma DecodeOneOfEncoded(c: CodePoint, b: Bytes)
    requires EncodeOne(c) <= b
    ensures Width(b[0]) == |EncodeOne(c)| && DecodeOne(b) == Some(c)
  {
    var e := EncodeOne(c);
    assert forall i | 0 <= i < |e| :: b[i] == e[i];
    Digits64(c);
    LowOf(c % 0x40);
    LowOf(c / 0x40 % 0x40);
    LowOf(c / 0x1000 % 0x40);
  }

  lemma OneRoundTrip(c: CodePoint, rest: Bytes)
    ensures
      var b := EncodeOne(c) + rest;
      Width(b[0]) == |EncodeOne(c)| && DecodeOne(b) == Some(c) && b[Width(b[0])..] == rest
  {
    DecodeOneOfEncoded(c, EncodeOne(c) + rest);
  }

  lemma {:induction false} RoundTrip(s: Text)
    ensures Decode(Encode(s)) == Some(s)
  {
    if s != [] {
      OneRoundTrip(s[0], Encode(s[1..]));
      RoundTrip(s[1..]);
      assert [s[0]] + s[1..] == s;
    }
  }

  lemma {:induction false} EncodeConcat(a: Text, b: Text)
    ensures Encode(a + b) == Encode(a) + Encode(b)
  {
    if a == [] {
      assert a + b == b;
    } else {
      EncodeConcat(a[1..], b);
      assert (a + b)[1..] == a[1..] + b && (a + b)[0] == a[0];
      BytesAssociate(EncodeOne(a[0]), Encode(a[1..]), Encode(b));
    }
  }

  lemma BytesAssociate(a: Bytes, b: Bytes, c: Bytes)
    ensures a + (b + c) == a + b + c
  {}

  /** The byte offset of character `k`. */
  function Offset(s: Text, k: nat): nat
    requires k <= |s|
  {
    |Encode(s[..k])|
  }

  /** Byte offsets of characters are the character boundaries, and cut the encoding there. */
  lemma SliceAtOffsets(s: Text, i: nat, j: nat)
    requires i <= j <= |s|
    ensures Offset(s, i) <= Offset(s, j) <= |Encode(s)|
    ensures Encode(s)[Offset(s, i)..Offset(s, j)] == Encode(s[i..j])
    ensures Offset(s, j) == Offset(s, i) + |Encode(s[i..j])|
  {
    EncodeConcat(s[..i], s[i..j]);
    EncodeConcat(s[..j], s[j..]);
    assert s[..i] + s[i..j] == s[..j];
    assert s[..j] + s[j..] == s;
  }

  lemma {:induction false} EncodeNonEmpty(s: Text)
    ensures |Encode(s)| >= |s|
  {
    if s != [] { EncodeNonEmpty(s[1..]); }
  }

  /** Distinct characters have distinct offsets. */
  lemma OffsetIsStrict(s: Text, i: nat, j: nat)
    requires i <= j <= |s|
    ensures Offset(s, i) == Offset(s, j) <==> i == j
  {
    SliceAtOffsets(s, i, j);
    EncodeNonEmpty(s[i..j]);
  }

  ghost predicate Boundary(s: Text, b: int) {
    exists k :: 0 <= k <= |s| && b == Offset(s, k)
  }

  // ----- newlines

  const NEWLINE: CodePoint := 10

  function Newlines(b: Bytes): nat {
    if b == [] then 0 else Newlines(b[..|b| - 1]) + if b[|b| - 1] == 10 then 1 else 0
  }

  /** Only the newline character contains the newline byte. */
  lemma LastByteIsNewline(c: CodePoint)
    ensures EncodeOne(c)[|EncodeOne(c)| - 1] == 10 <==> c == NEWLINE
  {}
}
