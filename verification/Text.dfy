/** Textual identities: decimal numbers, UUID text, object keys and chunk ids. */
module Text {
  import opened Entities

  function DigitChar(d: nat): char
    requires d < 16
  {
    "0123456789abcdef"[d]
  }

  function DigitValue(c: char): nat {
    if '0' <= c <= '9' then c as nat - '0' as nat
    else if 'a' <= c <= 'f' then c as nat - 'a' as nat + 10
    else 0
  }

  lemma DigitRoundTrip(d: nat)
    requires d < 16
    ensures DigitValue(DigitChar(d)) == d
  {}

  lemma DigitsAre(d: nat)
    requires d < 16
    ensures DigitChar(d) as nat == if d < 10 then 48 + d else 87 + d
  {}

  // ----- numbers

  function Decimal(n: nat): (s: string)
    ensures |s| > 0 && forall i | 0 <= i < |s| :: '0' <= s[i] <= '9'
  {
    if n < 10 then [DigitChar(n)] else Decimal(n / 10) + [DigitChar(n % 10)]
  }

  function DecimalValue(s: string): nat {
    if s == "" then 0 else DecimalValue(s[..|s| - 1]) * 10 + DigitValue(s[|s| - 1])
  }

  lemma {:induction false} DecimalRoundTrip(n: nat)
    ensures DecimalValue(Decimal(n)) == n
  {
    if n < 10 {
      assert Decimal(n)[..0] == "";
      DigitRoundTrip(n);
    } else {
      DecimalRoundTrip(n / 10);
      DigitRoundTrip(n % 10);
      assert Decimal(n)[..|Decimal(n)| - 1] == Decimal(n / 10);
    }
  }

  /** The lowest `width` hexadecimal digits of `n`. */
  function Hex(n: nat, width: nat): (s: string)
    ensures |s| == width
  {
    if width == 0 then "" else Hex(n / 16, width - 1) + [DigitChar(n % 16)]
  }

  function Power16(width: nat): nat {
    if width == 0 then 1 else 16 * Power16(width - 1)
  }

  function HexValue(s: string): nat {
    if s == "" then 0 else HexValue(s[..|s| - 1]) * 16 + DigitValue(s[|s| - 1])
  }

  lemma {:induction false} HexRoundTrip(n: nat, width: nat)
    requires n < Power16(width)
    ensures HexValue(Hex(n, width)) == n
  {
    if width > 0 {
      HexRoundTrip(n / 16, width - 1);
      DigitRoundTrip(n % 16);
      assert Hex(n, width)[..width - 1] == Hex(n / 16, width - 1);
    }
  }

  // ----- UUIDs

  /** The canonical 8-4-4-4-12 form. */
  function UuidText(u: Uuid): (s: string)
    ensures |s| == 36
  {
    var h := Hex(u, 32);
    h[..8] + "-" + h[8..12] + "-" + h[12..16] + "-" + h[16..20] + "-" + h[20..]
  }

  lemma UuidFitsIn32Digits()
    ensures Power16(32) == UUID_LIMIT
  {
    assert Power16(4) == 0x1_0000;
    assert Power16(8) == 0x1_0000_0000;
    assert Power16(12) == 0x1_0000_0000_0000;
    assert Power16(16) == 0x1_0000_0000_0000_0000;
    assert Power16(20) == 0x1_0000_0000_0000_0000_0000;
    assert Power16(24) == 0x1_0000_0000_0000_0000_0000_0000;
    assert Power16(28) == 0x1_0000_0000_0000_0000_0000_0000_0000;
  }

  /** A hyphen and a part at the end. */
  lemma LastPart(before: string, part: string)
    ensures
      var s := before + "-" + part;
      s[..|before|] == before && s[|before| + 1..] == part
  {}

  lemma WithinPrefix(s: string, n: nat, i: nat)
    requires i <= n <= |s|
    ensures s[..n][i..] == s[i..n]
  {}

  lemma DigitsOfUuidText(u: Uuid)
    ensures var s := UuidText(u); Hex(u, 32) == s[..8] + s[9..13] + s[14..18] + s[19..23] + s[24..]
  {
    var h := Hex(u, 32);
    PartsOf(h[..8], h[8..12], h[12..16], h[16..20], h[20..]);
    FiveSlices(h);
  }

  lemma PartsOf(a: string, b: string, c: string, d: string, e: string)
    requires |a| == 8 && |b| == |c| == |d| == 4
    ensures
      var s := a + "-" + b + "-" + c + "-" + d + "-" + e;
      s[..8] == a && s[9..13] == b && s[14..18] == c && s[19..23] == d && s[24..] == e
  {
    var two := a + "-" + b;
    var three := two + "-" + c;
    var four := three + "-" + d;
    var s := four + "-" + e;
    LastPart(four, e);
    LastPart(three, d);
    LastPart(two, c);
    LastPart(a, b);
    PrefixSlice(s, four, 19, 23);
    PrefixSlice(s, four, 14, 18);
    PrefixSlice(four, three, 14, 18);
    PrefixSlice(s, four, 9, 13);
    PrefixSlice(four, three, 9, 13);
    PrefixSlice(three, two, 9, 13);
    PrefixSlice(s, four, 0, 8);
    PrefixSlice(four, three, 0, 8);
    PrefixSlice(three, two, 0, 8);
    WithinPrefix(four, 23, 19);
    WithinPrefix(three, 18, 14);
    WithinPrefix(two, 13, 9);
  }

  lemma PrefixSlice(s: string, p: string, i: nat, j: nat)
    requires i <= j <= |p| <= |s| && s[..|p|] == p
    ensures s[i..j] == p[i..j]
  {
    assert s[..|p|][i..j] == s[i..j];
  }

  lemma FiveSlices(h: string)
    requires |h| == 32
    ensures h == h[..8] + h[8..12] + h[12..16] + h[16..20] + h[20..]
  {
    assert h[..8] + h[8..12] == h[..12];
    assert h[..12] + h[12..16] == h[..16];
    assert h[..16] + h[16..20] == h[..20];
    assert h[..20] + h[20..] == h;
  }

  lemma UuidTextIsInjective(a: Uuid, b: Uuid)
    requires UuidText(a) == UuidText(b)
    ensures a == b
  {
    DigitsOfUuidText(a);
    DigitsOfUuidText(b);
    UuidFitsIn32Digits();
    HexRoundTrip(a, 32);
    HexRoundTrip(b, 32);
  }

  // ----- object keys

  /** The immutable key of a numbered document revision. */
  function ObjectKey(ws: Uuid, document: Uuid, revision: nat): string {
    "workspace/" + UuidText(ws) + "/document/" + UuidText(document) + "/revision/" + Decimal(revision) + "/source"
  }

  lemma ObjectKeyParts(ws: Uuid, document: Uuid, revision: nat)
    ensures
      var k := ObjectKey(ws, document, revision);
      && |k| == 109 + |Decimal(revision)|
      && k[10..46] == UuidText(ws) && k[56..92] == UuidText(document) && k[102..|k| - 7] == Decimal(revision)
  {
    var k, w, d, r := ObjectKey(ws, document, revision), UuidText(ws), UuidText(document), Decimal(revision);
    var a := "workspace/" + w;
    var b := a + "/document/";
    var c := b + d + "/revision/";
    assert |a| == 46 && |b| == 56 && |c| == 102;
    assert k == c + r + "/source";
    assert k[102..|k| - 7] == r;
    assert c == k[..102] && b == k[..56] && a == k[..46];
    assert k[56..92] == c[56..92] == d;
    assert k[10..46] == a[10..46] == w;
  }

  lemma ObjectKeyIsInjective(ws: Uuid, document: Uuid, revision: nat, ws': Uuid, document': Uuid, revision': nat)
    requires ObjectKey(ws, document, revision) == ObjectKey(ws', document', revision')
    ensures ws == ws' && document == document' && revision == revision'
  {
    ObjectKeyParts(ws, document, revision);
    ObjectKeyParts(ws', document', revision');
    UuidTextIsInjective(ws, ws');
    UuidTextIsInjective(document, document');
    DecimalRoundTrip(revision);
    DecimalRoundTrip(revision');
  }
}
