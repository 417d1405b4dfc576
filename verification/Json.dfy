/** JSON as the citation codec uses it: flat objects, ASCII output, compact separators. */
module Json {
  import opened Entities
  import opened Utf8
  import T = Text

  datatype Value = Null | Number(n: nat) | Str(s: Text)

  datatype Member = Member(key: Text, value: Value)

  /** A value and the input after it. */
  datatype Parsed<A> = Done(value: A, rest: string) | Fail

  predicate HighSurrogate(c: nat) { 0xD800 <= c < 0xDC00 }

  predicate LowSurrogate(c: nat) { 0xDC00 <= c < 0xE000 }

  // ----- printing

  function Unicode(n: nat): string { "\\u" + T.Hex(n, 4) }

  /** One character of a string, escaped unless it is printable ASCII. */
  function Escape(c: CodePoint): (e: string)
    ensures e != ""
  {
    if c == 34 then "\\\""
    else if c == 92 then "\\\\"
    else if c == 10 then "\\n"
    else if c == 13 then "\\r"
    else if c == 9 then "\\t"
    else if c == 12 then "\\f"
    else if c == 8 then "\\b"
    else if 32 <= c <= 126 then [c as char]
    else if c < 0x10000 then Unicode(c)
    else Unicode(0xD800 + (c - 0x10000) / 0x400) + Unicode(0xDC00 + (c - 0x10000) % 0x400)
  }

  function Escaped(s: Text): string {
    if s == [] then "" else Escape(s[0]) + Escaped(s[1..])
  }

  function PrintString(s: Text): string { "\"" + Escaped(s) + "\"" }

  function PrintValue(v: Value): string {
    match v
    case Null => "null"
    case Number(n) => T.Decimal(n)
    case Str(s) => PrintString(s)
  }

  function PrintMember(m: Member): string {
    PrintString(m.key) + ":" + PrintValue(m.value)
  }

  function PrintMembers(ms: seq<Member>): string
    requires ms != []
  {
    if |ms| == 1 then PrintMember(ms[0]) else PrintMember(ms[0]) + "," + PrintMembers(ms[1..])
  }

  function PrintObject(ms: seq<Member>): string {
    if ms == [] then "{}" else "{" + PrintMembers(ms) + "}"
  }

  /** The escapes: the quote, the backslash and five control characters have short ones; any other
      character outside printable ASCII has four hexadecimal digits, or two such units. */
  lemma EscapesAre(c: CodePoint)
    ensures c == 34 || c == 92 ==> Escape(c) == ['\\', c as char]
    ensures Escape(8) == "\\b" && Escape(9) == "\\t" && Escape(10) == "\\n" && Escape(12) == "\\f" && Escape(13) == "\\r"
    ensures 32 <= c <= 126 && c != 34 && c != 92 ==> Escape(c) == [c as char]
    ensures (126 < c < 0x10000) || (c < 32 && c !in {8, 9, 10, 12, 13}) ==> Escape(c) == ['\\', 'u'] + Four(c)
    ensures c >= 0x10000 ==>
              var n := c - 0x10000;
              Escape(c) == (['\\', 'u'] + Four(0xD800 + n / 1024)) + (['\\', 'u'] + Four(0xDC00 + n % 1024))
  {
    if c < 0x10000 {
      HexOfFour(c, Four(c));
    } else {
      HexOfFour(0xD800 + (c - 0x10000) / 1024, Four(0xD800 + (c - 0x10000) / 1024));
      HexOfFour(0xDC00 + (c - 0x10000) % 1024, Four(0xDC00 + (c - 0x10000) % 1024));
    }
  }

  function Four(n: nat): string {
    [T.DigitChar(n / 4096 % 16), T.DigitChar(n / 256 % 16), T.DigitChar(n / 16 % 16), T.DigitChar(n % 16)]
  }

  lemma HexOfFour(n: nat, digits: string)
    requires digits == Four(n)
    ensures T.Hex(n, 4) == digits
  {
    assert T.Hex(n / 16 / 16 / 16, 1) == [T.DigitChar(n / 16 / 16 / 16 % 16)] by { assert T.Hex(n / 16 / 16 / 16 / 16, 0) == ""; }
    assert T.Hex(n / 16 / 16, 2) == T.Hex(n / 16 / 16 / 16, 1) + [T.DigitChar(n / 16 / 16 % 16)];
    assert T.Hex(n / 16, 3) == T.Hex(n / 16 / 16, 2) + [T.DigitChar(n / 16 % 16)];
    assert n / 256 == n / 16 / 16 && n / 4096 == n / 16 / 16 / 16;
  }

  // ----- parsing

  function HexDigit(c: char): Option<nat> {
    if '0' <= c <= '9' then Some(c as nat - '0' as nat)
    else if 'a' <= c <= 'f' then Some(c as nat - 'a' as nat + 10)
    else if 'A' <= c <= 'F' then Some(c as nat - 'A' as nat + 10)
    else None
  }

  /** The code unit of a leading `\uXXXX`. */
  function Unit(s: string): (u: Option<nat>)
    ensures u.Some? ==> |s| >= 6 && u.value < 0x10000
  {
    if |s| < 6 || s[0] != '\\' || s[1] != 'u' then None
    else
      match (HexDigit(s[2]), HexDigit(s[3]), HexDigit(s[4]), HexDigit(s[5]))
      case (Some(a), Some(b), Some(c), Some(d)) =>
        if a < 16 && b < 16 && c < 16 && d < 16 then Some(a * 4096 + b * 256 + c * 16 + d) else None
      case _ => None
  }

  function Simple(c: char): Option<CodePoint> {
    match c
    case '\"' => Some(34)
    case '\\' => Some(92)
    case '/' => Some(47)
    case 'b' => Some(8)
    case 'f' => Some(12)
    case 'n' => Some(10)
    case 'r' => Some(13)
    case 't' => Some(9)
    case _ => None
  }

  function Pair(high: nat, low: nat): CodePoint
    requires HighSurrogate(high) && LowSurrogate(low)
  {
    0x10000 + (high - 0xD800) * 0x400 + (low - 0xDC00)
  }

  /** The first character of a string body, and how much input it takes. */
  function Character(s: string): (r: Option<(CodePoint, nat)>)
    ensures r.Some? ==> 0 < r.value.1 <= |s|
  {
    if s == "" || s[0] as nat < 32 || s[0] as nat >= 128 then None
    else if s[0] != '\\' then Some((s[0] as nat, 1))
    else if Unit(s).Some? then
      var u := Unit(s).value;
      var low := Unit(s[6..]);
      if HighSurrogate(u) && low.Some? && LowSurrogate(low.value) then Some((Pair(u, low.value), 12)) else Some((u, 6))
    else if |s| >= 2 && Simple(s[1]).Some? then Some((Simple(s[1]).value, 2))
    else None
  }

  /** The rest of a string after its opening quote. */
  function ParseChars(s: string): (p: Parsed<Text>)
    ensures p.Done? ==> |p.rest| < |s|
  {
    if s == "" then Fail
    else if s[0] == '\"' then Done([], s[1..])
    else
      match Character(s)
      case None => Fail
      case Some((c, n)) =>
        match ParseChars(s[n..])
        case Fail => Fail
        case Done(text, rest) => Done([c] + text, rest)
  }

  function ParseString(s: string): (p: Parsed<Text>)
    ensures p.Done? ==> |p.rest| < |s|
  {
    if s != "" && s[0] == '\"' then ParseChars(s[1..]) else Fail
  }

  predicate IsDigit(c: char) { '0' <= c <= '9' }

  function DigitRun(s: string): (n: nat)
    ensures n <= |s|
  {
    if s == "" || !IsDigit(s[0]) then 0 else 1 + DigitRun(s[1..])
  }

  function ParseValue(s: string): (p: Parsed<Value>)
    ensures p.Done? ==> |p.rest| < |s|
  {
    if s == "" then Fail
    else if s[0] == '\"' then
      match ParseChars(s[1..])
      case Fail => Fail
      case Done(text, rest) => Done(Str(text), rest)
    else if "null" <= s then Done(Null, s[4..])
    else
      var n := if s[0] == '0' then 1 else DigitRun(s);
      if n == 0 then Fail else Done(Number(T.DecimalValue(s[..n])), s[n..])
  }

  function ParseMember(s: string): (p: Parsed<Member>)
    ensures p.Done? ==> |p.rest| < |s|
  {
    match ParseString(s)
    case Fail => Fail
    case Done(key, rest) =>
      if rest == "" || rest[0] != ':' then Fail
      else
        match ParseValue(rest[1..])
        case Fail => Fail
        case Done(value, rest') => Done(Member(key, value), rest')
  }

  /** One or more members and the closing brace. */
  function ParseMembers(s: string): Parsed<seq<Member>>
    decreases |s|
  {
    match ParseMember(s)
    case Fail => Fail
    case Done(m, rest) =>
      if rest == "" then Fail
      else if rest[0] == '}' then Done([m], rest[1..])
      else if rest[0] != ',' then Fail
      else
        match ParseMembers(rest[1..])
        case Fail => Fail
        case Done(ms, rest') => Done([m] + ms, rest')
  }

  function ParseObject(s: string): Option<seq<Member>> {
    if s == "{}" then Some([])
    else if s == "" || s[0] != '{' then None
    else
      match ParseMembers(s[1..])
      case Fail => None
      case Done(ms, rest) => if rest == "" then Some(ms) else None
  }

  // ----- strings

  /** What a string becomes: each high surrogate directly followed by a low one is read as the
      character they encode. */
  function Merge(s: Text): Text {
    if s == [] then []
    else if |s| > 1 && HighSurrogate(s[0]) && LowSurrogate(s[1]) then [Pair(s[0], s[1])] + Merge(s[2..])
    else [s[0]] + Merge(s[1..])
  }

  predicate NoPair(s: Text) {
    forall i | 0 < i < |s| :: !(HighSurrogate(s[i - 1]) && LowSurrogate(s[i]))
  }

  lemma {:induction false} MergeShortens(s: Text)
    ensures |Merge(s)| <= |s|
    ensures |Merge(s)| == |s| ==> NoPair(s)
    ensures NoPair(s) ==> Merge(s) == s
  {
    if s != [] {
      if |s| > 1 && HighSurrogate(s[0]) && LowSurrogate(s[1]) {
        MergeShortens(s[2..]);
        assert s[1 - 1] == s[0];
      } else {
        MergeShortens(s[1..]);
        if NoPair(s[1..]) {
          forall i | 0 < i < |s| ensures !(HighSurrogate(s[i - 1]) && LowSurrogate(s[i])) {
            if i > 1 { assert s[1..][i - 2] == s[i - 1] && s[1..][i - 1] == s[i]; }
          }
        }
        assert [s[0]] + s[1..] == s;
      }
    }
  }

  /** A string is read back unchanged exactly when no high surrogate directly precedes a low one. */
  lemma MergeIsIdentity(s: Text)
    ensures Merge(s) == s <==> NoPair(s)
  {
    MergeShortens(s);
  }

  lemma HexDigits(n: nat)
    ensures
      var m := n / 16;
      T.Hex(n, 4) == [T.DigitChar(m / 16 / 16 % 16), T.DigitChar(m / 16 % 16), T.DigitChar(m % 16), T.DigitChar(n % 16)]
  {
    var m := n / 16;
    HexStep(n, 3);
    HexStep(m, 2);
    HexStep(m / 16, 1);
    HexStep(m / 16 / 16, 0);
  }

  lemma HexStep(n: nat, width: nat)
    ensures T.Hex(n, width + 1) == T.Hex(n / 16, width) + [T.DigitChar(n % 16)]
  {}

  lemma HexDigitOf(d: nat)
    requires d < 16
    ensures HexDigit(T.DigitChar(d)) == Some(d)
  {}

  lemma UnitOfDigits(h: string, rest: string, a: nat, b: nat, c: nat, d: nat)
    requires |h| == 4 && a < 16 && b < 16 && c < 16 && d < 16
    requires HexDigit(h[0]) == Some(a) && HexDigit(h[1]) == Some(b) && HexDigit(h[2]) == Some(c) && HexDigit(h[3]) == Some(d)
    ensures Unit("\\u" + h + rest) == Some(a * 4096 + b * 256 + c * 16 + d)
    ensures ("\\u" + h + rest)[6..] == rest
  {
    var s := "\\u" + h + rest;
    assert s[0] == '\\' && s[1] == 'u' && s[2] == h[0] && s[3] == h[1] && s[4] == h[2] && s[5] == h[3];
  }

  lemma FourDigits(n: nat)
    requires n < 0x10000
    ensures
      var m := n / 16;
      m / 16 / 16 % 16 * 4096 + m / 16 % 16 * 256 + m % 16 * 16 + n % 16 == n
  {
    assert n / 16 / 16 / 16 < 16;
  }

  lemma UnitOf(n: nat, rest: string)
    requires n < 0x10000
    ensures Unit(Unicode(n) + rest) == Some(n) && (Unicode(n) + rest)[6..] == rest
  {
    var m := n / 16;
    var a, b, c, d := m / 16 / 16 % 16, m / 16 % 16, m % 16, n % 16;
    HexDigits(n);
    HexDigitOf(a);
    HexDigitOf(b);
    HexDigitOf(c);
    HexDigitOf(d);
    UnitOfDigits(T.Hex(n, 4), rest, a, b, c, d);
    FourDigits(n);
  }

  /** A character that `\u` escapes do not concern. */
  predicate Short(c: CodePoint) {
    c == 8 || c == 9 || c == 10 || c == 12 || c == 13 || 32 <= c <= 126
  }

  lemma CharacterOfShort(c: CodePoint, rest: string)
    requires Short(c)
    ensures
      var s := Escape(c) + rest;
      s[0] != '\"' && Character(s) == Some((c, |Escape(c)|)) && Unit(s).None?
  {}

  lemma EscapeOfLong(c: CodePoint)
    requires !Short(c) && c < 0x10000
    ensures Escape(c) == Unicode(c)
  {}

  lemma CharacterOfUnit(c: CodePoint, rest: string)
    requires c < 0x10000
    requires HighSurrogate(c) && Unit(rest).Some? ==> !LowSurrogate(Unit(rest).value)
    ensures
      var s := Unicode(c) + rest;
      s[0] != '\"' && Character(s) == Some((c, 6)) && |Unicode(c)| == 6
  {
    UnitOf(c, rest);
  }

  function HighOf(c: CodePoint): (h: nat)
    requires c >= 0x10000
    ensures HighSurrogate(h)
  {
    0xD800 + (c - 0x10000) / 0x400
  }

  function LowOf(c: CodePoint): (l: nat)
    requires c >= 0x10000
    ensures LowSurrogate(l) && Pair(HighOf(c), l) == c
  {
    0xDC00 + (c - 0x10000) % 0x400
  }

  /** An escaped character is read back, unless it is a high surrogate before an escaped low one. */
  lemma EscapeOfPair(c: CodePoint, high: string, low: string, rest: string)
    requires c >= 0x10000 && high == Unicode(HighOf(c)) && low == Unicode(LowOf(c))
    ensures Escape(c) + rest == high + (low + rest) && |Escape(c)| == 12
  {}

  lemma CharacterOf(c: CodePoint, rest: string)
    requires HighSurrogate(c) && Unit(rest).Some? ==> !LowSurrogate(Unit(rest).value)
    ensures
      var s := Escape(c) + rest;
      s[0] != '\"' && Character(s) == Some((c, |Escape(c)|))
  {
    if Short(c) {
      CharacterOfShort(c, rest);
    } else if c < 0x10000 {
      EscapeOfLong(c);
      CharacterOfUnit(c, rest);
    } else {
      PairOf(HighOf(c), LowOf(c), rest);
      EscapeOfPair(c, Unicode(HighOf(c)), Unicode(LowOf(c)), rest);
    }
  }

  lemma PairOf(high: nat, low: nat, rest: string)
    requires HighSurrogate(high) && LowSurrogate(low)
    ensures
      var s := Unicode(high) + (Unicode(low) + rest);
      s[0] != '\"' && Character(s) == Some((Pair(high, low), 12)) && s[12..] == rest
  {
    UnitOf(low, rest);
    UnitOf(high, Unicode(low) + rest);
    assert |Unicode(high)| == 6 && |Unicode(low)| == 6;
    var s := Unicode(high) + (Unicode(low) + rest);
    assert s[12..] == s[6..][6..];
  }

  /** Whether an escaped character begins with an escaped low surrogate. */
  lemma UnitOfEscape(c: CodePoint, tail: string)
    ensures
      var u := Unit(Escape(c) + tail);
      (u.Some? && LowSurrogate(u.value)) <==> LowSurrogate(c)
  {
    if Short(c) {
      CharacterOfShort(c, tail);
    } else if c < 0x10000 {
      EscapeOfLong(c);
      UnitOf(c, tail);
    } else {
      UnitOf(HighOf(c), Unicode(LowOf(c)) + tail);
      assert Escape(c) + tail == Unicode(HighOf(c)) + (Unicode(LowOf(c)) + tail);
    }
  }

  lemma UnitOfEscaped(t: Text, rest: string)
    ensures
      var u := Unit(Escaped(t) + "\"" + rest);
      (u.Some? && LowSurrogate(u.value)) <==> (t != [] && LowSurrogate(t[0]))
  {
    if t == [] {
      assert Escaped(t) + "\"" + rest == "\"" + rest;
    } else {
      var tail := Escaped(t[1..]) + "\"" + rest;
      assert Escaped(t) + "\"" + rest == Escape(t[0]) + tail;
      UnitOfEscape(t[0], tail);
    }
  }

  lemma ParseStep(e: string, c: CodePoint, tail: string, text: Text, rest: string)
    requires e != "" && (e + tail)[0] != '\"' && Character(e + tail) == Some((c, |e|))
    requires ParseChars(tail) == Done(text, rest)
    ensures ParseChars(e + tail) == Done([c] + text, rest)
  {
    assert (e + tail)[|e|..] == tail;
  }

  lemma {:induction false} ParseCharsOf(s: Text, rest: string)
    ensures ParseChars(Escaped(s) + "\"" + rest) == Done(Merge(s), rest)
  {
    if s == [] {
      assert (Escaped(s) + "\"" + rest)[1..] == rest;
    } else if |s| > 1 && HighSurrogate(s[0]) && LowSurrogate(s[1]) {
      ParseCharsOf(s[2..], rest);
      ParsePair(s, rest);
    } else {
      ParseCharsOf(s[1..], rest);
      ParseOne(s, rest);
    }
  }

  lemma EscapedTail(s: Text, rest: string)
    requires s != []
    ensures Escaped(s) + "\"" + rest == Escape(s[0]) + (Escaped(s[1..]) + "\"" + rest)
  {}

  lemma ParseOne(s: Text, rest: string)
    requires s != [] && !(|s| > 1 && HighSurrogate(s[0]) && LowSurrogate(s[1]))
    requires ParseChars(Escaped(s[1..]) + "\"" + rest) == Done(Merge(s[1..]), rest)
    ensures ParseChars(Escaped(s) + "\"" + rest) == Done(Merge(s), rest)
  {
    EscapedTail(s, rest);
    UnitOfEscaped(s[1..], rest);
    ParseEscaped(s[0], Escaped(s[1..]) + "\"" + rest, Merge(s[1..]), rest);
  }

  lemma ParseEscaped(c: CodePoint, tail: string, text: Text, rest: string)
    requires HighSurrogate(c) && Unit(tail).Some? ==> !LowSurrogate(Unit(tail).value)
    requires ParseChars(tail) == Done(text, rest)
    ensures ParseChars(Escape(c) + tail) == Done([c] + text, rest)
  {
    CharacterOf(c, tail);
    ParseStep(Escape(c), c, tail, text, rest);
  }

  lemma EscapedPair(s: Text, rest: string)
    requires |s| > 1 && HighSurrogate(s[0]) && LowSurrogate(s[1])
    ensures Escaped(s) + "\"" + rest == Unicode(s[0]) + (Unicode(s[1]) + (Escaped(s[2..]) + "\"" + rest))
  {
    EscapeOfLong(s[0]);
    EscapeOfLong(s[1]);
    EscapedTail(s, rest);
    EscapedTail(s[1..], rest);
    assert s[1..][1..] == s[2..];
  }

  lemma ParseEscapedPair(high: nat, low: nat, tail: string, text: Text, rest: string)
    requires HighSurrogate(high) && LowSurrogate(low) && ParseChars(tail) == Done(text, rest)
    ensures ParseChars(Unicode(high) + (Unicode(low) + tail)) == Done([Pair(high, low)] + text, rest)
  {
    PairOf(high, low, tail);
    var pair := Unicode(high) + Unicode(low);
    assert pair + tail == Unicode(high) + (Unicode(low) + tail);
    ParseStep(pair, Pair(high, low), tail, text, rest);
  }

  lemma ParsePair(s: Text, rest: string)
    requires |s| > 1 && HighSurrogate(s[0]) && LowSurrogate(s[1])
    requires ParseChars(Escaped(s[2..]) + "\"" + rest) == Done(Merge(s[2..]), rest)
    ensures ParseChars(Escaped(s) + "\"" + rest) == Done(Merge(s), rest)
  {
    EscapedPair(s, rest);
    ParseEscapedPair(s[0], s[1], Escaped(s[2..]) + "\"" + rest, Merge(s[2..]), rest);
  }

  // ----- numbers, members and objects

  lemma {:induction false} DigitRunOf(d: string, rest: string)
    requires (forall i | 0 <= i < |d| :: IsDigit(d[i])) && (rest == "" || !IsDigit(rest[0]))
    ensures DigitRun(d + rest) == |d|
  {
    if d == "" {
      assert d + rest == rest;
    } else {
      DigitRunOf(d[1..], rest);
      assert (d + rest)[1..] == d[1..] + rest;
    }
  }

  lemma {:induction false} NoLeadingZero(n: nat)
    ensures T.Decimal(n)[0] == '0' <==> n == 0
    ensures n == 0 ==> T.Decimal(n) == "0"
  {
    if n >= 10 { NoLeadingZero(n / 10); }
  }

  function Merged(v: Value): Value {
    if v.Str? then Str(Merge(v.s)) else v
  }

  /** A value ends at a comma or a brace. */
  predicate Ends(rest: string) { rest != "" && (rest[0] == ',' || rest[0] == '}') }

  lemma ParseNumberOf(n: nat, rest: string)
    requires Ends(rest)
    ensures ParseValue(T.Decimal(n) + rest) == Done(Number(n), rest)
  {
    var d := T.Decimal(n);
    var input := d + rest;
    DigitRunOf(d, rest);
    NoLeadingZero(n);
    T.DecimalRoundTrip(n);
    assert input[0] == d[0] && IsDigit(d[0]);
    assert input[..|d|] == d && input[|d|..] == rest;
  }

  lemma ParseQuoted(body: string, text: Text, rest: string)
    requires ParseChars(body) == Done(text, rest)
    ensures ParseString("\"" + body) == Done(text, rest) && ParseValue("\"" + body) == Done(Str(text), rest)
  {
    assert ("\"" + body)[1..] == body;
  }

  lemma PrintedString(s: Text, rest: string)
    ensures PrintString(s) + rest == "\"" + (Escaped(s) + "\"" + rest)
  {}

  lemma ParseStrOf(s: Text, rest: string)
    ensures ParseValue(PrintString(s) + rest) == Done(Str(Merge(s)), rest)
    ensures ParseString(PrintString(s) + rest) == Done(Merge(s), rest)
  {
    ParseCharsOf(s, rest);
    ParseQuoted(Escaped(s) + "\"" + rest, Merge(s), rest);
    PrintedString(s, rest);
  }

  lemma ParseNullOf(rest: string)
    ensures ParseValue("null" + rest) == Done(Null, rest)
  {
    assert "null" <= "null" + rest && ("null" + rest)[4..] == rest;
  }

  lemma ParseValueOf(v: Value, rest: string)
    requires Ends(rest)
    ensures ParseValue(PrintValue(v) + rest) == Done(Merged(v), rest)
  {
    match v
    case Null => ParseNullOf(rest);
    case Number(n) => ParseNumberOf(n, rest);
    case Str(s) => ParseStrOf(s, rest);
  }

  lemma ParseMemberOf(m: Member, rest: string)
    requires Ends(rest)
    ensures ParseMember(PrintMember(m) + rest) == Done(Member(Merge(m.key), Merged(m.value)), rest)
  {
    var value := PrintValue(m.value) + rest;
    var after := ":" + value;
    MemberText(PrintString(m.key), PrintValue(m.value), rest);
    ParseStrOf(m.key, after);
    ParseValueOf(m.value, rest);
    ParseParts(PrintMember(m) + rest, Merge(m.key), after, value, Merged(m.value), rest);
  }

  lemma MemberText(key: string, value: string, rest: string)
    ensures key + ":" + value + rest == key + (":" + (value + rest))
  {}

  lemma ParseParts(s: string, key: Text, after: string, value: string, v: Value, rest: string)
    requires ParseString(s) == Done(key, after) && after == ":" + value && ParseValue(value) == Done(v, rest)
    ensures ParseMember(s) == Done(Member(key, v), rest)
  {
    assert after[1..] == value;
  }

  function MergedMembers(ms: seq<Member>): seq<Member> {
    if ms == [] then [] else [Member(Merge(ms[0].key), Merged(ms[0].value))] + MergedMembers(ms[1..])
  }

  lemma ParseLast(m: Member)
    ensures ParseMembers(PrintMember(m) + "}") == Done([Member(Merge(m.key), Merged(m.value))], "")
  {
    ParseMemberOf(m, "}");
    assert "}"[1..] == "";
  }

  lemma ParseMore(m: Member, ms: seq<Member>)
    requires ms != [] && ParseMembers(PrintMembers(ms) + "}") == Done(MergedMembers(ms), "")
    ensures ParseMembers(PrintMember(m) + "," + PrintMembers(ms) + "}")
         == Done([Member(Merge(m.key), Merged(m.value))] + MergedMembers(ms), "")
  {
    var more := PrintMembers(ms) + "}";
    ParseComma(PrintMember(m), Member(Merge(m.key), Merged(m.value)), more, MergedMembers(ms)) by {
      ParseMemberOf(m, "," + more);
    }
    Commas(PrintMember(m), PrintMembers(ms));
  }

  lemma Commas(a: string, b: string)
    ensures a + "," + b + "}" == a + ("," + (b + "}"))
  {}

  lemma ParseComma(printed: string, m: Member, more: string, ms: seq<Member>)
    requires ParseMember(printed + ("," + more)) == Done(m, "," + more) && ParseMembers(more) == Done(ms, "")
    ensures ParseMembers(printed + ("," + more)) == Done([m] + ms, "")
  {
    assert ("," + more)[1..] == more;
  }

  lemma {:induction false} ParseMembersOf(ms: seq<Member>)
    requires ms != []
    ensures ParseMembers(PrintMembers(ms) + "}") == Done(MergedMembers(ms), "")
  {
    if |ms| == 1 {
      ParseLast(ms[0]);
      assert MergedMembers(ms[1..]) == [];
      assert MergedMembers(ms) == [Member(Merge(ms[0].key), Merged(ms[0].value))];
    } else {
      ParseMembersOf(ms[1..]);
      ParseMore(ms[0], ms[1..]);
    }
  }

  lemma ParseBraces(body: string, ms: seq<Member>)
    requires body != "" && ParseMembers(body + "}") == Done(ms, "")
    ensures ParseObject("{" + body + "}") == Some(ms)
  {
    assert ("{" + body + "}")[1..] == body + "}";
    assert |"{" + body + "}"| > 2;
  }

  lemma ParseObjectOf(ms: seq<Member>)
    ensures ParseObject(PrintObject(ms)) == Some(MergedMembers(ms))
  {
    if ms != [] {
      ParseMembersOf(ms);
      assert PrintMembers(ms) != "" by { assert PrintMember(ms[0])[0] == '\"'; }
      ParseBraces(PrintMembers(ms), MergedMembers(ms));
    }
  }

  // ----- printed objects are ASCII

  predicate Ascii(s: string) { forall i | 0 <= i < |s| :: s[i] as nat < 128 }

  lemma {:induction false} HexIsAscii(n: nat, width: nat)
    ensures Ascii(T.Hex(n, width))
  {
    if width > 0 { HexIsAscii(n / 16, width - 1); }
  }

  lemma EscapeIsAscii(c: CodePoint)
    ensures Ascii(Escape(c))
  {
    if c >= 0x10000 {
      PairIsAscii(0xD800 + (c - 0x10000) / 0x400, 0xDC00 + (c - 0x10000) % 0x400);
    } else if c > 126 {
      UnicodeIsAscii(c);
    } else {
      ShortEscapeIsAscii(c);
    }
  }

  lemma ShortEscapeIsAscii(c: CodePoint)
    requires c <= 126
    ensures Ascii(Escape(c))
  {
    if c < 32 { UnicodeIsAscii(c); }
  }

  lemma UnicodeIsAscii(n: nat)
    ensures Ascii(Unicode(n))
  {
    HexIsAscii(n, 4);
  }

  lemma PairIsAscii(high: nat, low: nat)
    ensures Ascii(Unicode(high) + Unicode(low))
  {
    UnicodeIsAscii(high);
    UnicodeIsAscii(low);
  }

  lemma {:induction false} EscapedIsAscii(s: Text)
    ensures Ascii(Escaped(s))
  {
    if s != [] {
      EscapeIsAscii(s[0]);
      EscapedIsAscii(s[1..]);
    }
  }

  lemma MemberIsAscii(m: Member)
    ensures Ascii(PrintMember(m))
  {
    EscapedIsAscii(m.key);
    if m.value.Str? { EscapedIsAscii(m.value.s); }
  }

  lemma {:induction false} MembersAreAscii(ms: seq<Member>)
    requires ms != []
    ensures Ascii(PrintMembers(ms))
  {
    MemberIsAscii(ms[0]);
    if |ms| > 1 { MembersAreAscii(ms[1..]); }
  }
}
