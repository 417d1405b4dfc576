/** URL-safe Base64 with the padding stripped on output and restored on input. */
module Base64 {
  import opened Entities
  import Utf8

  type Byte = Utf8.Byte

  /** The URL-safe alphabet: A to Z, a to z, 0 to 9, hyphen, underscore. */
  function Symbol(v: nat): char
    requires v < 64
  {
    if v < 26 then (v + 65) as char
    else if v < 52 then (v + 71) as char
    else if v < 62 then (v - 4) as char
    else if v == 62 then '-'
    else '_'
  }

  /** The value of a character of either Base64 alphabet. */
  function Value(c: char): (v: Option<nat>)
    ensures v.Some? ==> v.value < 64
  {
    if 'A' <= c <= 'Z' then Some(c as nat - 'A' as nat)
    else if 'a' <= c <= 'z' then Some(c as nat - 'a' as nat + 26)
    else if '0' <= c <= '9' then Some(c as nat - '0' as nat + 52)
    else if c == '-' || c == '+' then Some(62)
    else if c == '_' || c == '/' then Some(63)
    else None
  }

  lemma SymbolRoundTrip(v: nat)
    requires v < 64
    ensures Value(Symbol(v)) == Some(v) && Symbol(v) != '=' && Symbol(v) as nat < 128
  {}

  /** The four six-bit groups of three bytes. */
  function First(x: Byte): nat { x / 4 }

  function Second(x: Byte, y: Byte): (v: nat)
    ensures v < 64
  {
    x % 4 * 16 + y / 16
  }

  function Third(y: Byte, z: Byte): (v: nat)
    ensures v < 64
  {
    y % 16 * 4 + z / 64
  }

  /** Padded encoding: four characters for every three bytes. */
  function Padded(b: seq<Byte>): string {
    if b == [] then ""
    else if |b| == 1 then [Symbol(First(b[0])), Symbol(Second(b[0], 0)), '=', '=']
    else if |b| == 2 then [Symbol(First(b[0])), Symbol(Second(b[0], b[1])), Symbol(Third(b[1], 0)), '=']
    else
      [Symbol(First(b[0])), Symbol(Second(b[0], b[1])), Symbol(Third(b[1], b[2])), Symbol(b[2] % 64)] + Padded(b[3..])
  }

  lemma AlphabetIs()
    ensures Symbol(0) == 'A' && Symbol(25) == 'Z' && Symbol(26) == 'a' && Symbol(51) == 'z'
    ensures Symbol(52) == '0' && Symbol(61) == '9' && Symbol(62) == '-' && Symbol(63) == '_'
  {}

  /** Test vectors of section 10 of RFC 4648, and one with the symbols of its URL-safe alphabet. */
  lemma Vectors()
    ensures Padded([102]) == "Zg==" && Padded([102, 111]) == "Zm8=" && Padded([251, 255]) == "-_8="
    ensures Padded([102, 111, 111]) == "Zm9v"
  {
    assert Padded([102, 111, 111]) == ['Z', 'm', '9', 'v'] + Padded([102, 111, 111][3..]);
  }

  /** `rstrip("=")` */
  function Strip(s: string): string {
    if s != "" && s[|s| - 1] == '=' then Strip(s[..|s| - 1]) else s
  }

  function Equals(n: nat): string {
    seq(n, i => '=')
  }

  /** `s + "=" * (-len(s) % 4)` */
  function Repad(s: string): string {
    s + Equals((4 - |s| % 4) % 4)
  }

  /** The lenient decoder: characters outside the alphabets are skipped, and enough padding ends the
      input. `quad` counts the characters of the current group, `left` holds its pending bits. */
  function Scan(s: string, quad: nat, left: nat, pads: nat): Option<seq<Byte>>
    requires quad < 4
    requires left < if quad == 1 then 64 else if quad == 2 then 16 else 4
  {
    if s == "" then (if quad == 0 then Some([]) else None)
    else if s[0] == '=' then
      if quad < 2 then Scan(s[1..], quad, left, pads)
      else if quad + pads + 1 >= 4 then Some([])
      else Scan(s[1..], quad, left, pads + 1)
    else
      match Value(s[0])
      case None => Scan(s[1..], quad, left, pads)
      case Some(v) =>
        if quad == 0 then Scan(s[1..], 1, v, 0)
        else if quad == 1 then Emit(left * 4 + v / 16, Scan(s[1..], 2, v % 16, 0))
        else if quad == 2 then Emit(left * 16 + v / 4, Scan(s[1..], 3, v % 4, 0))
        else Emit(left * 64 + v, Scan(s[1..], 0, 0, 0))
  }

  function Emit(b: Byte, rest: Option<seq<Byte>>): Option<seq<Byte>> {
    match rest case None => None case Some(r) => Some([b] + r)
  }

  function Decode(s: string): Option<seq<Byte>> {
    if forall i | 0 <= i < |s| :: s[i] as nat < 128 then Scan(s, 0, 0, 0) else None
  }

  // ----- round trip

  lemma ScanStep(v: nat, rest: string, quad: nat, left: nat)
    requires v < 64 && quad < 4
    requires left < if quad == 1 then 64 else if quad == 2 then 16 else 4
    ensures Scan([Symbol(v)] + rest, quad, left, 0)
         == if quad == 0 then Scan(rest, 1, v, 0)
            else if quad == 1 then Emit(left * 4 + v / 16, Scan(rest, 2, v % 16, 0))
            else if quad == 2 then Emit(left * 16 + v / 4, Scan(rest, 3, v % 4, 0))
            else Emit(left * 64 + v, Scan(rest, 0, 0, 0))
  {
    SymbolRoundTrip(v);
    assert ([Symbol(v)] + rest)[1..] == rest;
  }

  /** Two characters give one byte and leave four bits. */
  lemma ScanTwo(x: Byte, y: Byte, rest: string)
    ensures Scan([Symbol(First(x)), Symbol(Second(x, y))] + rest, 0, 0, 0) == Emit(x, Scan(rest, 2, y / 16, 0))
  {
    var tail := [Symbol(Second(x, y))] + rest;
    assert [Symbol(First(x)), Symbol(Second(x, y))] + rest == [Symbol(First(x))] + tail;
    ScanStep(First(x), tail, 0, 0);
    ScanStep(Second(x, y), rest, 1, First(x));
    assert Second(x, y) / 16 == x % 4 && Second(x, y) % 16 == y / 16;
  }

  lemma ScanThree(x: Byte, y: Byte, z: Byte, rest: string)
    ensures Scan([Symbol(First(x)), Symbol(Second(x, y)), Symbol(Third(y, z))] + rest, 0, 0, 0)
         == Emit(x, Emit(y, Scan(rest, 3, z / 64, 0)))
  {
    var tail := [Symbol(Third(y, z))] + rest;
    assert [Symbol(First(x)), Symbol(Second(x, y)), Symbol(Third(y, z))] + rest
        == [Symbol(First(x)), Symbol(Second(x, y))] + tail;
    ScanTwo(x, y, tail);
    ScanStep(Third(y, z), rest, 2, y / 16);
    assert Third(y, z) / 4 == y % 16 && Third(y, z) % 4 == z / 64;
  }

  lemma ScanFour(x: Byte, y: Byte, z: Byte, rest: string)
    ensures Scan([Symbol(First(x)), Symbol(Second(x, y)), Symbol(Third(y, z)), Symbol(z % 64)] + rest, 0, 0, 0)
         == Emit(x, Emit(y, Emit(z, Scan(rest, 0, 0, 0))))
  {
    var tail := [Symbol(z % 64)] + rest;
    assert [Symbol(First(x)), Symbol(Second(x, y)), Symbol(Third(y, z)), Symbol(z % 64)] + rest
        == [Symbol(First(x)), Symbol(Second(x, y)), Symbol(Third(y, z))] + tail;
    ScanThree(x, y, z, tail);
    ScanStep(z % 64, rest, 3, z / 64);
  }

  lemma ScanPads()
    ensures Scan("==", 2, 0, 0) == Some([]) && Scan("=", 3, 0, 0) == Some([])
  {
    assert "=="[1..] == "=";
  }

  lemma {:induction false} ScanPadded(b: seq<Byte>)
    ensures Scan(Padded(b), 0, 0, 0) == Some(b)
  {
    ScanPads();
    if |b| == 1 {
      ScanTwo(b[0], 0, "==");
      assert Padded(b) == [Symbol(First(b[0])), Symbol(Second(b[0], 0))] + "==";
      assert [b[0]] + [] == b;
    } else if |b| == 2 {
      ScanThree(b[0], b[1], 0, "=");
      assert Padded(b) == [Symbol(First(b[0])), Symbol(Second(b[0], b[1])), Symbol(Third(b[1], 0))] + "=";
      assert [b[0]] + ([b[1]] + []) == b;
    } else if |b| >= 3 {
      ScanFour(b[0], b[1], b[2], Padded(b[3..]));
      ScanPadded(b[3..]);
      assert [b[0]] + ([b[1]] + ([b[2]] + b[3..])) == b;
    }
  }

  // ----- padding

  function PadCount(n: nat): nat {
    if n % 3 == 0 then 0 else 3 - n % 3
  }

  lemma PadCountStep(n: nat)
    requires n >= 3
    ensures PadCount(n - 3) == PadCount(n)
  {
    assert (n - 3) % 3 == n % 3;
  }

  /** The encoding without its padding. */
  function Body(b: seq<Byte>): string {
    if b == [] then ""
    else if |b| == 1 then [Symbol(First(b[0])), Symbol(Second(b[0], 0))]
    else if |b| == 2 then [Symbol(First(b[0])), Symbol(Second(b[0], b[1])), Symbol(Third(b[1], 0))]
    else
      [Symbol(First(b[0])), Symbol(Second(b[0], b[1])), Symbol(Third(b[1], b[2])), Symbol(b[2] % 64)] + Body(b[3..])
  }

  lemma {:induction false} BodyLength(b: seq<Byte>)
    ensures |Body(b)| % 4 == (4 - PadCount(|b|)) % 4
  {
    if |b| >= 3 {
      var rest := b[3..];
      BodyLength(rest);
      PadCountStep(|b|);
      assert |Body(b)| == |Body(rest)| + 4;
      SameRemainder(|Body(rest)|, |Body(b)|);
    }
  }

  lemma SameRemainder(m: nat, n: nat)
    requires n == m + 4
    ensures n % 4 == m % 4
  {}

  lemma PadsNeeded(m: nat, pads: nat)
    requires pads <= 2 && m % 4 == (4 - pads) % 4
    ensures (4 - m % 4) % 4 == pads
  {}

  lemma {:induction false} PaddedIs(b: seq<Byte>)
    ensures Padded(b) == Body(b) + Equals(PadCount(|b|))
  {
    if |b| == 1 {
      assert Equals(2) == "==";
      assert Padded(b) == Body(b) + "==";
    } else if |b| == 2 {
      assert Equals(1) == "=";
      assert Padded(b) == Body(b) + "=";
    } else if |b| >= 3 {
      var rest := b[3..];
      PaddedIs(rest);
      PadCountStep(|b|);
    } else {
      assert Equals(0) == "";
    }
  }

  predicate Plain(s: string) { forall i | 0 <= i < |s| :: s[i] != '=' && s[i] as nat < 128 }

  lemma {:induction false} BodyIsPlain(b: seq<Byte>)
    ensures Plain(Body(b))
  {
    if |b| >= 3 { BodyIsPlain(b[3..]); }
  }

  lemma {:induction false} StripOf(s: string, n: nat)
    requires s == "" || s[|s| - 1] != '='
    ensures Strip(s + Equals(n)) == s
  {
    if n == 0 {
      assert s + Equals(0) == s;
    } else {
      StripOf(s, n - 1);
      assert (s + Equals(n))[..|s + Equals(n)| - 1] == s + Equals(n - 1);
    }
  }

  /** Stripping the padding and adding back `-len mod 4` signs restores exactly what was removed. */
  lemma RepadRestores(b: seq<Byte>)
    ensures Strip(Padded(b)) == Body(b) && Repad(Body(b)) == Padded(b)
  {
    PaddedIs(b);
    BodyLength(b);
    BodyIsPlain(b);
    PadsNeeded(|Body(b)|, PadCount(|b|));
    StripOf(Body(b), PadCount(|b|));
  }

  lemma RoundTrip(b: seq<Byte>)
    ensures Decode(Repad(Strip(Padded(b)))) == Some(b)
  {
    RepadRestores(b);
    PaddedIs(b);
    BodyIsPlain(b);
    ScanPadded(b);
  }
}
