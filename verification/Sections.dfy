/** Files split into sections at heading lines, for any rules about fences and headings. */
module Sections {
  import opened Entities
  import opened Utf8

  const CARRIAGE_RETURN: CodePoint := 13

  // ----- lines

  /** The characters at which `str.splitlines` ends a line. */
  predicate IsBreak(c: CodePoint) {
    10 <= c <= 13 || 0x1C <= c <= 0x1E || c == 0x85 || c == 0x2028 || c == 0x2029
  }

  /** The length of the first line, with its line ending. */
  function FirstLine(s: Text): (n: nat)
    requires s != []
    ensures 1 <= n <= |s|
  {
    if IsBreak(s[0]) then
      if s[0] == CARRIAGE_RETURN && |s| > 1 && s[1] == NEWLINE then 2 else 1
    else if |s| == 1 then 1
    else 1 + FirstLine(s[1..])
  }

  lemma BreaksAre(c: CodePoint)
    ensures IsBreak(c) <==> c in {10, 11, 12, 13, 28, 29, 30, 133, 8232, 8233}
  {}

  /** The first line runs up to and with the first break; a carriage return takes a newline with it. */
  lemma {:induction false} FirstLineIs(s: Text)
    requires s != []
    ensures
      var n := FirstLine(s);
      var end := if n > 1 && s[n - 2] == CARRIAGE_RETURN && s[n - 1] == NEWLINE then n - 2 else n - 1;
      && (forall i | 0 <= i < end :: !IsBreak(s[i]))
      && (n == |s| || IsBreak(s[n - 1]))
      && (n < |s| && s[n - 1] == CARRIAGE_RETURN ==> s[n] != NEWLINE)
  {
    if !IsBreak(s[0]) && |s| > 1 {
      FirstLineIs(s[1..]);
      var rest, n := s[1..], FirstLine(s);
      assert forall i | 0 < i < |s| :: s[i] == rest[i - 1];
    }
  }

  function SplitLines(s: Text): seq<Text> {
    if s == [] then [] else [s[..FirstLine(s)]] + SplitLines(s[FirstLine(s)..])
  }

  function Join(lines: seq<Text>): Text {
    if lines == [] then [] else lines[0] + Join(lines[1..])
  }

  lemma {:induction false} SplitIsLossless(s: Text)
    ensures Join(SplitLines(s)) == s
  {
    if s != [] {
      SplitIsLossless(s[FirstLine(s)..]);
      assert SplitLines(s)[1..] == SplitLines(s[FirstLine(s)..]);
    }
  }

  lemma {:induction false} FirstLineOfPrefix(s: Text, t: Text)
    requires s != [] && FirstLine(s) <= |t| && t <= s
    ensures t != [] && FirstLine(t) == FirstLine(s)
  {
    if !IsBreak(s[0]) && |t| > 1 { FirstLineOfPrefix(s[1..], t[1..]); }
  }

  lemma {:induction false} JoinConcat(a: seq<Text>, b: seq<Text>)
    ensures Join(a + b) == Join(a) + Join(b)
  {
    if a == [] {
      assert a + b == b;
    } else {
      JoinConcat(a[1..], b);
      assert (a + b)[1..] == a[1..] + b && (a + b)[0] == a[0];
      ConcatAssociates(a[0], Join(a[1..]), Join(b));
    }
  }

  lemma ConcatAssociates(a: Text, b: Text, c: Text)
    ensures a + (b + c) == (a + b) + c
  {}

  /** The first lines of a text, joined, are a prefix of it. */
  lemma JoinIsPrefix(s: Text, j: nat)
    requires j <= |SplitLines(s)|
    ensures Join(SplitLines(s)[..j]) <= s
  {
    var lines := SplitLines(s);
    SplitIsLossless(s);
    JoinConcat(lines[..j], lines[j..]);
    assert lines[..j] + lines[j..] == lines;
  }

  lemma {:induction false} SplitOfPrefix(s: Text, j: nat)
    requires j <= |SplitLines(s)|
    ensures SplitLines(Join(SplitLines(s)[..j])) == SplitLines(s)[..j]
    decreases |s|
  {
    if j > 0 {
      var n := FirstLine(s);
      SplitOfPrefix(s[n..], j - 1);
      var part := SplitLines(s)[..j];
      var rest := SplitLines(s[n..])[..j - 1];
      assert part == [s[..n]] + rest;
      JoinIsPrefix(s, j);
      SplitFirst(s, Join(part), rest);
    }
  }

  lemma SplitFirst(s: Text, t: Text, rest: seq<Text>)
    requires s != [] && t <= s && t == s[..FirstLine(s)] + Join(rest) && SplitLines(Join(rest)) == rest
    ensures SplitLines(t) == [s[..FirstLine(s)]] + rest
  {
    FirstLineOfPrefix(s, t);
    assert t[FirstLine(t)..] == Join(rest);
  }

  /** Splitting a run of whole lines gives those lines again. */
  lemma {:induction false} SplitOfLines(s: Text, i: nat, j: nat)
    requires i <= j <= |SplitLines(s)|
    ensures SplitLines(Join(SplitLines(s)[i..j])) == SplitLines(s)[i..j]
    decreases |s|
  {
    if i == 0 {
      SplitOfPrefix(s, j);
    } else {
      var rest := s[FirstLine(s)..];
      SplitOfLines(rest, i - 1, j - 1);
      assert SplitLines(s)[i..j] == SplitLines(rest)[i - 1..j - 1];
    }
  }

  // ----- fences and headings over the lines of a file

  datatype Heading = Heading(text: Text, level: nat)

  /** How lines are read: the fence that is open after a line, and the heading on a line. */
  datatype Rules = Rules(next: (Option<Text>, Text) -> Option<Text>, heading: Text -> Option<Heading>)

  /** The fence open before line `k`, if any. */
  function FenceAt(r: Rules, lines: seq<Text>, k: nat): Option<Text>
    requires k <= |lines|
  {
    if k == 0 then None else r.next(FenceAt(r, lines, k - 1), lines[k - 1])
  }

  /** The heading on line `k`, if it is one and no fence is open. */
  function HeadingAt(r: Rules, lines: seq<Text>, k: nat): Option<Heading>
    requires k < |lines|
  {
    if FenceAt(r, lines, k).None? then r.heading(lines[k]) else None
  }

  datatype Head = Head(line: nat, heading: Heading)

  /** The headings among the first `k` lines. */
  function Heads(r: Rules, lines: seq<Text>, k: nat): (heads: seq<Head>)
    requires k <= |lines|
    ensures forall i | 0 <= i < |heads| :: heads[i].line < k
  {
    if k == 0 then []
    else
      match HeadingAt(r, lines, k - 1)
      case None => Heads(r, lines, k - 1)
      case Some(heading) => Heads(r, lines, k - 1) + [Head(k - 1, heading)]
  }

  /** They are in order, and each is the heading on its line. */
  lemma {:induction false} HeadsAre(r: Rules, lines: seq<Text>, k: nat, i: nat)
    requires k <= |lines| && i < |Heads(r, lines, k)|
    ensures HeadingAt(r, lines, Heads(r, lines, k)[i].line) == Some(Heads(r, lines, k)[i].heading)
    ensures i > 0 ==> Heads(r, lines, k)[i - 1].line < Heads(r, lines, k)[i].line
  {
    if i < |Heads(r, lines, k - 1)| { HeadsAre(r, lines, k - 1, i); }
  }

  /** No heading is missed. */
  lemma {:induction false} HeadsComplete(r: Rules, lines: seq<Text>, k: nat, h: nat) returns (i: nat)
    requires h < k <= |lines| && HeadingAt(r, lines, h).Some?
    ensures i < |Heads(r, lines, k)| && Heads(r, lines, k)[i].line == h
  {
    if h < k - 1 { i := HeadsComplete(r, lines, k - 1, h); } else { i := |Heads(r, lines, k - 1)|; }
  }

  // ----- offsets

  /** The offset of line `k`. */
  function Position(lines: seq<Text>, k: nat): nat
    requires k <= |lines|
  {
    |Join(lines[..k])|
  }

  lemma PositionStep(lines: seq<Text>, k: nat)
    requires k < |lines|
    ensures Position(lines, k + 1) == Position(lines, k) + |lines[k]|
  {
    assert lines[..k + 1] == lines[..k] + [lines[k]];
    JoinConcat(lines[..k], [lines[k]]);
    assert Join([lines[k]]) == lines[k] + Join([]);
  }

  /** Whole lines are slices of the file. */
  lemma LinesAreSlices(lines: seq<Text>, i: nat, j: nat)
    requires i <= j <= |lines|
    ensures Position(lines, i) <= Position(lines, j) <= |Join(lines)|
    ensures Join(lines)[Position(lines, i)..Position(lines, j)] == Join(lines[i..j])
  {
    assert lines[..i] + lines[i..j] == lines[..j];
    assert lines[..j] + lines[j..] == lines;
    JoinsMeet(lines[..i], lines[i..j], lines[j..]);
  }

  lemma JoinsMeet(before: seq<Text>, part: seq<Text>, after: seq<Text>)
    ensures |Join(before)| <= |Join(before + part)| <= |Join(before + part + after)|
    ensures Join(before + part + after)[|Join(before)|..|Join(before + part)|] == Join(part)
  {
    JoinConcat(before, part);
    JoinConcat(before + part, after);
  }

  lemma {:induction false} LinesAreNonEmpty(s: Text, k: nat)
    requires k < |SplitLines(s)|
    ensures SplitLines(s)[k] != []
  {
    if k > 0 { LinesAreNonEmpty(s[FirstLine(s)..], k - 1); }
  }

  // ----- sections

  datatype Start = Start(position: nat, heading: Heading)

  ghost predicate Ordered(heads: seq<Head>, n: nat) {
    && (forall i | 0 <= i < |heads| :: heads[i].line < n)
    && (forall i | 0 < i < |heads| :: heads[i - 1].line < heads[i].line)
  }

  lemma HeadsOrdered(r: Rules, lines: seq<Text>)
    ensures Ordered(Heads(r, lines, |lines|), |lines|)
  {
    var heads := Heads(r, lines, |lines|);
    forall i | 0 < i < |heads| ensures heads[i - 1].line < heads[i].line { HeadsAre(r, lines, |lines|, i); }
  }

  function StartsOf(lines: seq<Text>, heads: seq<Head>): seq<Start>
    requires forall i | 0 <= i < |heads| :: heads[i].line < |lines|
  {
    seq(|heads|, i requires 0 <= i < |heads| => Start(Position(lines, heads[i].line), heads[i].heading))
  }

  datatype Section = Preamble(content: Text) | Headed(content: Text, heading: Heading)

  /** The number of sections before the first heading. */
  function Preambles(heads: seq<Head>): nat {
    if heads == [] || heads[0].line > 0 then 1 else 0
  }

  /** The first of `n` lines in section `i`: line 0 for a preamble, and then every heading line. */
  function Bound(heads: seq<Head>, n: nat, i: nat): nat {
    if i < Preambles(heads) then 0
    else if i - Preambles(heads) < |heads| then heads[i - Preambles(heads)].line
    else n
  }

  lemma BoundsIncrease(heads: seq<Head>, n: nat, i: nat)
    requires Ordered(heads, n)
    ensures Bound(heads, n, i) <= Bound(heads, n, i + 1) <= n
    ensures Bound(heads, n, i) < n ==> Bound(heads, n, i) < Bound(heads, n, i + 1)
  {}

  ghost function SectionAt(lines: seq<Text>, heads: seq<Head>, i: nat): Section
    requires Ordered(heads, |lines|) && i < Preambles(heads) + |heads|
  {
    BoundsIncrease(heads, |lines|, i);
    var content := Join(lines[Bound(heads, |lines|, i)..Bound(heads, |lines|, i + 1)]);
    if i < Preambles(heads) then Preamble(content) else Headed(content, heads[i - Preambles(heads)].heading)
  }

  lemma SectionOfLines(lines: seq<Text>, heads: seq<Head>, i: nat, part: seq<Text>)
    requires Ordered(heads, |lines|) && i < Preambles(heads) + |heads|
    requires Bound(heads, |lines|, i) <= Bound(heads, |lines|, i + 1) <= |lines|
    requires part == lines[Bound(heads, |lines|, i)..Bound(heads, |lines|, i + 1)]
    ensures SectionAt(lines, heads, i) ==
            if i < Preambles(heads) then Preamble(Join(part)) else Headed(Join(part), heads[i - Preambles(heads)].heading)
  {}

  /** Sections are the groups of whole lines that begin at line 0 or at a heading. */
  ghost function SectionsIn(lines: seq<Text>, heads: seq<Head>): seq<Section>
    requires Ordered(heads, |lines|)
  {
    seq(Preambles(heads) + |heads|, i requires 0 <= i < Preambles(heads) + |heads| => SectionAt(lines, heads, i))
  }

  ghost function SectionsOf(r: Rules, content: Text): seq<Section> {
    var lines := SplitLines(content);
    HeadsOrdered(r, lines);
    SectionsIn(lines, Heads(r, lines, |lines|))
  }

  lemma StartsStep(r: Rules, lines: seq<Text>, k: nat)
    requires k < |lines|
    ensures StartsOf(lines, Heads(r, lines, k + 1))
         == StartsOf(lines, Heads(r, lines, k))
            + match HeadingAt(r, lines, k) case Some(heading) => [Start(Position(lines, k), heading)] case None => []
  {}

  /** What a left-to-right scan knows after `k` lines. */
  ghost predicate Scanned(r: Rules, lines: seq<Text>, k: nat, position: nat, fence: Option<Text>, starts: seq<Start>) {
    && k <= |lines| && position == Position(lines, k) && fence == FenceAt(r, lines, k)
    && starts == StartsOf(lines, Heads(r, lines, k))
  }

  function Recorded(position: nat, heading: Option<Heading>): seq<Start> {
    match heading case Some(h) => [Start(position, h)] case None => []
  }

  lemma ScanStep(r: Rules, lines: seq<Text>, k: nat, position: nat, fence: Option<Text>, starts: seq<Start>)
    requires k < |lines| && Scanned(r, lines, k, position, fence, starts)
    ensures
      var heading := if fence.None? then r.heading(lines[k]) else None;
      Scanned(r, lines, k + 1, position + |lines[k]|, r.next(fence, lines[k]), starts + Recorded(position, heading))
  {
    PositionStep(lines, k);
    StartsStep(r, lines, k);
  }

  /** Section `i` as a slice of the file. */
  lemma SectionSlice(lines: seq<Text>, heads: seq<Head>, i: nat)
    requires Ordered(heads, |lines|) && i < Preambles(heads) + |heads|
    ensures
      var a, b := Bound(heads, |lines|, i), Bound(heads, |lines|, i + 1);
      && a <= b <= |lines| && Position(lines, a) <= Position(lines, b) <= |Join(lines)|
      && SectionAt(lines, heads, i).content == Join(lines)[Position(lines, a)..Position(lines, b)]
  {
    BoundsIncrease(heads, |lines|, i);
    LinesAreSlices(lines, Bound(heads, |lines|, i), Bound(heads, |lines|, i + 1));
  }

  lemma EndPositions(lines: seq<Text>)
    ensures Position(lines, 0) == 0 && Position(lines, |lines|) == |Join(lines)|
  {
    assert lines[..|lines|] == lines;
  }

  ghost predicate NonEmptyLines(lines: seq<Text>) {
    forall k | 0 <= k < |lines| :: lines[k] != []
  }

  lemma SplitGivesNonEmpty(s: Text)
    ensures NonEmptyLines(SplitLines(s))
  {
    forall k | 0 <= k < |SplitLines(s)| ensures SplitLines(s)[k] != [] { LinesAreNonEmpty(s, k); }
  }

  lemma {:induction false} PositionsIncrease(lines: seq<Text>, i: nat, j: nat)
    requires NonEmptyLines(lines) && i <= j <= |lines|
    ensures i < j ==> Position(lines, i) < Position(lines, j)
  {
    if i < j {
      PositionsIncrease(lines, i, j - 1);
      PositionStep(lines, j - 1);
    }
  }

  method CutSections(content: Text, starts: seq<Start>, ghost lines: seq<Text>, ghost heads: seq<Head>)
    returns (sections: seq<Section>)
    requires Ordered(heads, |lines|) && NonEmptyLines(lines) && content == Join(lines)
    requires starts == StartsOf(lines, heads)
    ensures sections == SectionsIn(lines, heads)
  {
    EndPositions(lines);
    if heads != [] { PositionsIncrease(lines, 0, heads[0].line); }
    sections := [];
    if starts == [] || starts[0].position > 0 {
      var end := if starts != [] then starts[0].position else |content|;
      SectionSlice(lines, heads, 0);
      sections := [Preamble(content[..end])];
    }
    for index := 0 to |starts|
      invariant sections == SectionsIn(lines, heads)[..Preambles(heads) + index]
    {
      SectionSlice(lines, heads, Preambles(heads) + index);
      var start := starts[index].position;
      var end := if index + 1 < |starts| then starts[index + 1].position else |content|;
      sections := sections + [Headed(content[start..end], starts[index].heading)];
    }
  }

  // ----- theorems

  function JoinSections(sections: seq<Section>): Text {
    if sections == [] then [] else JoinSections(sections[..|sections| - 1]) + sections[|sections| - 1].content
  }

  lemma {:induction false} JoinPrefix(lines: seq<Text>, heads: seq<Head>, k: nat)
    requires Ordered(heads, |lines|) && k <= Preambles(heads) + |heads|
    ensures Bound(heads, |lines|, k) <= |lines|
    ensures JoinSections(SectionsIn(lines, heads)[..k]) == Join(lines[..Bound(heads, |lines|, k)])
  {
    var sections := SectionsIn(lines, heads);
    if k > 0 {
      var a, b := Bound(heads, |lines|, k - 1), Bound(heads, |lines|, k);
      BoundsIncrease(heads, |lines|, k - 1);
      JoinPrefix(lines, heads, k - 1);
      JoinOneMore(sections, k);
      SectionOfLines(lines, heads, k - 1, lines[a..b]);
      JoinMeets(lines, a, b);
    }
  }

  lemma JoinOneMore(sections: seq<Section>, k: nat)
    requires 0 < k <= |sections|
    ensures JoinSections(sections[..k]) == JoinSections(sections[..k - 1]) + sections[k - 1].content
  {
    assert sections[..k][..k - 1] == sections[..k - 1];
  }

  lemma JoinMeets(lines: seq<Text>, a: nat, b: nat)
    requires a <= b <= |lines|
    ensures Join(lines[..a]) + Join(lines[a..b]) == Join(lines[..b])
  {
    assert lines[..b] == lines[..a] + lines[a..b];
    JoinConcat(lines[..a], lines[a..b]);
  }

  /** Sections concatenate to the file, and only the empty file has an empty section. */
  lemma SectionsAreLossless(r: Rules, content: Text)
    ensures SectionsOf(r, content) != [] && JoinSections(SectionsOf(r, content)) == content
  {
    var lines := SplitLines(content);
    var heads := Heads(r, lines, |lines|);
    HeadsOrdered(r, lines);
    var n := |SectionsIn(lines, heads)|;
    JoinPrefix(lines, heads, n);
    SplitIsLossless(content);
    assert SectionsOf(r, content)[..n] == SectionsOf(r, content);
    assert lines[..|lines|] == lines;
  }

  /** The recorded starts increase strictly, and each is the offset of a heading line. */
  lemma StartsAreHeadings(r: Rules, content: Text, i: nat)
    requires i < |Heads(r, SplitLines(content), |SplitLines(content)|)|
    ensures
      var lines := SplitLines(content);
      var starts, k := StartsOf(lines, Heads(r, lines, |lines|)), Heads(r, lines, |lines|)[i].line;
      && (i > 0 ==> starts[i - 1].position < starts[i].position)
      && HeadingAt(r, lines, k) == Some(starts[i].heading) && starts[i].position == Position(lines, k)
  {
    var lines := SplitLines(content);
    var heads := Heads(r, lines, |lines|);
    HeadsAre(r, lines, |lines|, i);
    SplitGivesNonEmpty(content);
    if i > 0 { PositionsIncrease(lines, heads[i - 1].line, heads[i].line); }
  }

  /** Every heading line outside a fence is recorded. */
  lemma HeadingsAreStarts(r: Rules, content: Text, k: nat)
    requires k < |SplitLines(content)| && HeadingAt(r, SplitLines(content), k).Some?
    ensures
      var lines := SplitLines(content);
      Start(Position(lines, k), HeadingAt(r, lines, k).value) in StartsOf(lines, Heads(r, lines, |lines|))
  {
    var lines := SplitLines(content);
    var heads := Heads(r, lines, |lines|);
    var h := HeadsComplete(r, lines, |lines|, k);
    HeadsAre(r, lines, |lines|, h);
    assert StartsOf(lines, heads)[h] == Start(Position(lines, k), HeadingAt(r, lines, k).value);
  }

  // ----- a section is its own only section

  ghost predicate LinesFrom(part: seq<Text>, lines: seq<Text>, a: nat) {
    a + |part| <= |lines| && forall k | 0 <= k < |part| :: part[k] == lines[a + k]
  }

  lemma {:induction false} FenceShift(r: Rules, part: seq<Text>, lines: seq<Text>, a: nat, k: nat)
    requires LinesFrom(part, lines, a) && k <= |part| && FenceAt(r, lines, a).None?
    ensures FenceAt(r, part, k) == FenceAt(r, lines, a + k)
  {
    if k > 0 {
      FenceShift(r, part, lines, a, k - 1);
    }
  }

  lemma HeadingShift(r: Rules, part: seq<Text>, lines: seq<Text>, a: nat, k: nat)
    requires LinesFrom(part, lines, a) && k < |part| && FenceAt(r, lines, a).None?
    ensures HeadingAt(r, part, k) == HeadingAt(r, lines, a + k)
  {
    FenceShift(r, part, lines, a, k);
  }

  lemma {:induction false} OrderedPairs(heads: seq<Head>, n: nat, i: nat, j: nat)
    requires Ordered(heads, n) && i < j < |heads|
    ensures heads[i].line < heads[j].line
  {
    if i < j - 1 { OrderedPairs(heads, n, i, j - 1); }
  }

  /** Inside a section, only its first line can be a heading. */
  lemma NoHeadingInside(r: Rules, lines: seq<Text>, heads: seq<Head>, i: nat, k: nat)
    requires heads == Heads(r, lines, |lines|) && Ordered(heads, |lines|) && i < Preambles(heads) + |heads|
    requires Bound(heads, |lines|, i) <= k < Bound(heads, |lines|, i + 1) <= |lines|
    requires i < Preambles(heads) || Bound(heads, |lines|, i) < k
    ensures HeadingAt(r, lines, k).None?
  {
    if HeadingAt(r, lines, k).Some? {
      var h := HeadsComplete(r, lines, |lines|, k);
      NotAHead(heads, |lines|, i, k, h);
    }
  }

  /** No heading line lies strictly between the bounds of a section. */
  lemma NotAHead(heads: seq<Head>, n: nat, i: nat, k: nat, h: nat)
    requires Ordered(heads, n) && i < Preambles(heads) + |heads| && h < |heads|
    requires Bound(heads, n, i) <= k < Bound(heads, n, i + 1)
    requires i < Preambles(heads) || Bound(heads, n, i) < k
    ensures heads[h].line != k
  {
    var next := i + 1 - Preambles(heads);
    if next < h { OrderedPairs(heads, n, next, h); }
    if h < next - 1 { OrderedPairs(heads, n, h, next - 1); }
  }

  /** Lines whose only heading can be the first have just that heading. */
  lemma {:induction false} OnlyFirst(r: Rules, lines: seq<Text>, k: nat)
    requires 0 < k <= |lines| && forall j | 0 < j < k :: HeadingAt(r, lines, j).None?
    ensures Heads(r, lines, k) == match HeadingAt(r, lines, 0) case Some(heading) => [Head(0, heading)] case None => []
  {
    if k > 1 { OnlyFirst(r, lines, k - 1); }
  }

  lemma OneSection(lines: seq<Text>, heads: seq<Head>)
    requires Ordered(heads, |lines|) && (heads == [] || (|heads| == 1 && heads[0].line == 0))
    ensures SectionsIn(lines, heads) == [if heads == [] then Preamble(Join(lines)) else Headed(Join(lines), heads[0].heading)]
  {
    assert lines[..|lines|] == lines;
  }

  lemma FenceClosedAtBound(r: Rules, lines: seq<Text>, heads: seq<Head>, i: nat)
    requires heads == Heads(r, lines, |lines|) && Ordered(heads, |lines|) && i < Preambles(heads) + |heads|
    ensures Bound(heads, |lines|, i) <= |lines| && FenceAt(r, lines, Bound(heads, |lines|, i)).None?
    ensures i >= Preambles(heads) ==>
              HeadingAt(r, lines, Bound(heads, |lines|, i)) == Some(heads[i - Preambles(heads)].heading)
  {
    if i >= Preambles(heads) { HeadsAre(r, lines, |lines|, i - Preambles(heads)); }
  }

  /** Parsing the text of any section gives back that one section, with the same metadata. */
  lemma SectionsReparse(r: Rules, content: Text, i: nat)
    requires i < |SectionsOf(r, content)|
    ensures SectionsOf(r, SectionsOf(r, content)[i].content) == [SectionsOf(r, content)[i]]
  {
    var lines := SplitLines(content);
    HeadsOrdered(r, lines);
    SectionReparses(r, content, lines, Heads(r, lines, |lines|), i);
  }

  lemma SectionReparses(r: Rules, content: Text, lines: seq<Text>, heads: seq<Head>, i: nat)
    requires lines == SplitLines(content) && heads == Heads(r, lines, |lines|)
    requires Ordered(heads, |lines|) && i < Preambles(heads) + |heads|
    ensures SectionsOf(r, SectionAt(lines, heads, i).content) == [SectionAt(lines, heads, i)]
  {
    var a, b := Bound(heads, |lines|, i), Bound(heads, |lines|, i + 1);
    BoundsIncrease(heads, |lines|, i);
    var part := lines[a..b];
    SectionOfLines(lines, heads, i, part);
    SplitOfLines(content, a, b);
    HeadsOfSection(r, lines, heads, i, part);
    TextOfOneSection(r, part, Heads(r, part, |part|));
  }

  /** A text of these lines with at most the first one a heading. */
  lemma TextOfOneSection(r: Rules, lines: seq<Text>, heads: seq<Head>)
    requires SplitLines(Join(lines)) == lines && heads == Heads(r, lines, |lines|)
    requires heads == [] || (|heads| == 1 && heads[0].line == 0)
    ensures SectionsOf(r, Join(lines)) ==
            [if heads == [] then Preamble(Join(lines)) else Headed(Join(lines), heads[0].heading)]
  {
    HeadsOrdered(r, lines);
    OneSection(lines, heads);
  }

  lemma HeadsOfSection(r: Rules, lines: seq<Text>, heads: seq<Head>, i: nat, part: seq<Text>)
    requires heads == Heads(r, lines, |lines|) && Ordered(heads, |lines|) && i < Preambles(heads) + |heads|
    requires LinesFrom(part, lines, Bound(heads, |lines|, i))
    requires Bound(heads, |lines|, i + 1) == Bound(heads, |lines|, i) + |part|
    ensures Heads(r, part, |part|) == if i < Preambles(heads) then [] else [Head(0, heads[i - Preambles(heads)].heading)]
  {
    if part != [] {
      forall k | 0 <= k < |part| && (k > 0 || i < Preambles(heads)) ensures HeadingAt(r, part, k).None? {
        NoInnerHeading(r, lines, heads, i, part, k);
      }
      FirstHeading(r, lines, heads, i, part);
      OnlyFirst(r, part, |part|);
    } else {
      BoundsIncrease(heads, |lines|, i);
    }
  }

  lemma NoInnerHeading(r: Rules, lines: seq<Text>, heads: seq<Head>, i: nat, part: seq<Text>, k: nat)
    requires heads == Heads(r, lines, |lines|) && Ordered(heads, |lines|) && i < Preambles(heads) + |heads|
    requires LinesFrom(part, lines, Bound(heads, |lines|, i))
    requires Bound(heads, |lines|, i + 1) == Bound(heads, |lines|, i) + |part|
    requires k < |part| && (k > 0 || i < Preambles(heads))
    ensures HeadingAt(r, part, k).None?
  {
    var a := Bound(heads, |lines|, i);
    FenceClosedAtBound(r, lines, heads, i);
    HeadingShift(r, part, lines, a, k);
    NoHeadingInside(r, lines, heads, i, a + k);
  }

  lemma FirstHeading(r: Rules, lines: seq<Text>, heads: seq<Head>, i: nat, part: seq<Text>)
    requires heads == Heads(r, lines, |lines|) && Ordered(heads, |lines|) && i < Preambles(heads) + |heads|
    requires LinesFrom(part, lines, Bound(heads, |lines|, i)) && part != []
    ensures i >= Preambles(heads) ==> HeadingAt(r, part, 0) == Some(heads[i - Preambles(heads)].heading)
  {
    FenceClosedAtBound(r, lines, heads, i);
    HeadingShift(r, part, lines, Bound(heads, |lines|, i), 0);
  }
}
