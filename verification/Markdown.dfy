/** The Markdown parser: ATX headings outside fenced code begin sections. */
module Markdown {
  import opened Entities
  import opened Utf8
  import opened Sections

  const TAB: CodePoint := 9
  const SPACE: CodePoint := 32
  const HASH: CodePoint := 35
  const BACKTICK: CodePoint := 96
  const TILDE: CodePoint := 126

  /** The line without a final newline, and then without a final carriage return. */
  function Body(line: Text): Text {
    var l := if line != [] && line[|line| - 1] == NEWLINE then line[..|line| - 1] else line;
    if l != [] && l[|l| - 1] == CARRIAGE_RETURN then l[..|l| - 1] else l
  }

  // ----- patterns

  predicate IsBlank(c: CodePoint) { c == SPACE || c == TAB }

  predicate Blank(s: Text) { forall i | 0 <= i < |s| :: IsBlank(s[i]) }

  predicate AllAre(s: Text, c: CodePoint) { forall i | 0 <= i < |s| :: s[i] == c }

  /** How many times `s` begins with `c`. */
  function Run(s: Text, c: CodePoint): (n: nat)
    ensures n <= |s|
  {
    if s == [] || s[0] != c then 0 else 1 + Run(s[1..], c)
  }

  lemma {:induction false} RunIs(s: Text, c: CodePoint)
    ensures AllAre(s[..Run(s, c)], c) && (Run(s, c) < |s| ==> s[Run(s, c)] != c)
  {
    if s != [] && s[0] == c { RunIs(s[1..], c); }
  }

  function BlankRun(s: Text): (n: nat)
    ensures n <= |s|
  {
    if s == [] || !IsBlank(s[0]) then 0 else 1 + BlankRun(s[1..])
  }

  lemma {:induction false} BlankRunIs(s: Text)
    ensures Blank(s[..BlankRun(s)]) && (BlankRun(s) < |s| ==> !IsBlank(s[BlankRun(s)]))
  {
    if s != [] && IsBlank(s[0]) { BlankRunIs(s[1..]); }
  }

  function StripRight(s: Text): Text {
    if s == [] || !IsBlank(s[|s| - 1]) then s else StripRight(s[..|s| - 1])
  }

  function StripHashes(s: Text): Text {
    if s == [] || s[|s| - 1] != HASH then s else StripHashes(s[..|s| - 1])
  }

  /** The run of marks that opens a fence: at most three spaces, then three or more marks. */
  function FenceOpen(body: Text): (fence: Option<Text>)
    ensures fence.Some? ==> fence.value != []
  {
    var spaces := Run(body, SPACE);
    var rest := body[spaces..];
    var n := if rest == [] then 0 else Run(rest, rest[0]);
    if spaces <= 3 && n >= 3 && (rest[0] == BACKTICK || rest[0] == TILDE) then Some(rest[..n]) else None
  }

  /** At most three spaces, at least as many marks as opened the fence, then blanks only. */
  predicate FenceClose(fence: Text, body: Text)
    requires fence != []
  {
    var spaces := Run(body, SPACE);
    var rest := body[spaces..];
    var n := Run(rest, fence[0]);
    spaces <= 3 && n >= |fence| && Blank(rest[n..])
  }

  /** A heading's text: no closing run of hashes set off by blanks, and no trailing blanks. */
  function Title(rest: Text): Text {
    var t := StripRight(rest);
    var u := StripHashes(t);
    if u != t && u != [] && IsBlank(u[|u| - 1]) then StripRight(u) else t
  }

  function HeadingOf(body: Text): Option<Heading> {
    var level := Run(body, HASH);
    var rest := body[level..];
    var blanks := BlankRun(rest);
    if 1 <= level <= 6 && blanks >= 1 then Some(Heading(Title(rest[blanks..]), level)) else None
  }

  // ----- the patterns say what the regular expressions say

  lemma {:induction false} RunOf(marks: Text, c: CodePoint, rest: Text)
    requires AllAre(marks, c) && (rest == [] || rest[0] != c)
    ensures Run(marks + rest, c) == |marks|
  {
    if marks == [] {
      assert marks + rest == rest;
    } else {
      RunOf(marks[1..], c, rest);
      assert (marks + rest)[1..] == marks[1..] + rest;
    }
  }

  lemma {:induction false} BlankRunOf(blanks: Text, rest: Text)
    requires Blank(blanks) && (rest == [] || !IsBlank(rest[0]))
    ensures BlankRun(blanks + rest) == |blanks|
  {
    if blanks == [] {
      assert blanks + rest == rest;
    } else {
      BlankRunOf(blanks[1..], rest);
      assert (blanks + rest)[1..] == blanks[1..] + rest;
    }
  }

  /** A fence opens exactly on lines of this shape, and the fence is the whole run of marks. */
  lemma FenceOpenShape(indent: Text, marks: Text, rest: Text)
    requires AllAre(indent, SPACE) && |indent| <= 3
    requires |marks| >= 3 && marks[0] in {BACKTICK, TILDE} && AllAre(marks, marks[0])
    requires rest == [] || rest[0] != marks[0]
    ensures FenceOpen(indent + marks + rest) == Some(marks)
  {
    RunOf(indent, SPACE, marks + rest);
    assert indent + marks + rest == indent + (marks + rest);
    RunOf(marks, marks[0], rest);
  }

  lemma FenceOpenOnly(body: Text) returns (indent: Text, marks: Text, rest: Text)
    requires FenceOpen(body).Some?
    ensures body == indent + marks + rest && AllAre(indent, SPACE) && |indent| <= 3
    ensures |marks| >= 3 && marks[0] in {BACKTICK, TILDE} && AllAre(marks, marks[0])
    ensures rest == [] || rest[0] != marks[0]
    ensures FenceOpen(body) == Some(marks)
  {
    var spaces := Run(body, SPACE);
    var tail := body[spaces..];
    var n := Run(tail, tail[0]);
    RunIs(body, SPACE);
    RunIs(tail, tail[0]);
    indent, marks, rest := body[..spaces], tail[..n], tail[n..];
  }

  lemma FenceCloseShape(fence: Text, indent: Text, marks: Text, blanks: Text)
    requires fence != [] && !IsBlank(fence[0])
    requires AllAre(indent, SPACE) && |indent| <= 3 && AllAre(marks, fence[0]) && |marks| >= |fence| && Blank(blanks)
    ensures FenceClose(fence, indent + marks + blanks)
  {
    assert marks[0] == fence[0];
    RunOf(indent, SPACE, marks + blanks);
    assert indent + marks + blanks == indent + (marks + blanks);
    RunOf(marks, fence[0], blanks);
  }

  lemma FenceCloseOnly(fence: Text, body: Text) returns (indent: Text, marks: Text, blanks: Text)
    requires fence != [] && FenceClose(fence, body)
    ensures body == indent + marks + blanks && AllAre(indent, SPACE) && |indent| <= 3
    ensures AllAre(marks, fence[0]) && |marks| >= |fence| && Blank(blanks)
  {
    var spaces := Run(body, SPACE);
    var tail := body[spaces..];
    var n := Run(tail, fence[0]);
    RunIs(body, SPACE);
    RunIs(tail, fence[0]);
    indent, marks, blanks := body[..spaces], tail[..n], tail[n..];
  }

  /** A heading is one to six hashes, then blanks, then the rest of the line. */
  lemma HeadingShape(hashes: Text, blanks: Text, rest: Text)
    requires AllAre(hashes, HASH) && 1 <= |hashes| <= 6 && blanks != [] && Blank(blanks)
    requires rest == [] || !IsBlank(rest[0])
    ensures HeadingOf(hashes + blanks + rest) == Some(Heading(Title(rest), |hashes|))
  {
    assert IsBlank(blanks[0]);
    RunOf(hashes, HASH, blanks + rest);
    assert hashes + blanks + rest == hashes + (blanks + rest);
    BlankRunOf(blanks, rest);
  }

  lemma HeadingOnly(body: Text) returns (hashes: Text, blanks: Text, rest: Text)
    requires HeadingOf(body).Some?
    ensures body == hashes + blanks + rest
    ensures AllAre(hashes, HASH) && 1 <= |hashes| <= 6 && blanks != [] && Blank(blanks)
    ensures rest == [] || !IsBlank(rest[0])
    ensures HeadingOf(body) == Some(Heading(Title(rest), |hashes|))
  {
    var level := Run(body, HASH);
    var tail := body[level..];
    var n := BlankRun(tail);
    RunIs(body, HASH);
    BlankRunIs(tail);
    hashes, blanks, rest := body[..level], tail[..n], tail[n..];
  }

  /** Removing a closing run: blanks, hashes, blanks at the end of the line. */
  lemma TitleDropsClosing(title: Text, before: Text, hashes: Text, after: Text)
    requires title == [] || !IsBlank(title[|title| - 1])
    requires before != [] && Blank(before) && hashes != [] && AllAre(hashes, HASH) && Blank(after)
    ensures Title(title + before + hashes + after) == title
  {
    StripRightOf(title + before + hashes, after);
    StripHashesOf(title + before, hashes);
    StripRightOf(title, before);
  }

  lemma TitleKeepsOther(title: Text, after: Text)
    requires title == [] || !IsBlank(title[|title| - 1])
    requires Blank(after)
    requires
      var u := StripHashes(title);
      u == title || u == [] || !IsBlank(u[|u| - 1])
    ensures Title(title + after) == title
  {
    StripRightOf(title, after);
  }

  lemma {:induction false} StripRightOf(s: Text, blanks: Text)
    requires Blank(blanks) && (s == [] || !IsBlank(s[|s| - 1]))
    ensures StripRight(s + blanks) == s
  {
    if blanks == [] {
      assert s + blanks == s;
    } else {
      StripRightOf(s, blanks[..|blanks| - 1]);
      assert (s + blanks)[..|s + blanks| - 1] == s + blanks[..|blanks| - 1];
    }
  }

  lemma {:induction false} StripHashesOf(s: Text, hashes: Text)
    requires AllAre(hashes, HASH) && (s == [] || s[|s| - 1] != HASH)
    ensures StripHashes(s + hashes) == s
  {
    if hashes == [] {
      assert s + hashes == s;
    } else {
      StripHashesOf(s, hashes[..|hashes| - 1]);
      assert (s + hashes)[..|s + hashes| - 1] == s + hashes[..|hashes| - 1];
    }
  }

  // ----- whole lines

  /** The fence that is open after a line. */
  function NextFence(fence: Option<Text>, line: Text): Option<Text> {
    match fence
    case None => FenceOpen(Body(line))
    case Some(open) => if open != [] && FenceClose(open, Body(line)) then None else fence
  }

  const RULES := Rules(NextFence, (line: Text) => HeadingOf(Body(line)))

  ghost predicate ReadsMarkdown(r: Rules) {
    && (forall fence, line :: r.next(fence, line) == NextFence(fence, line))
    && (forall line :: r.heading(line) == HeadingOf(Body(line)))
  }

  /** How a line may end: with nothing, a newline, a carriage return, or both. */
  predicate IsEnding(ending: Text) {
    ending == [] || ending == [NEWLINE] || ending == [CARRIAGE_RETURN] || ending == [CARRIAGE_RETURN, NEWLINE]
  }

  predicate Unbroken(body: Text) {
    body == [] || (body[|body| - 1] != NEWLINE && body[|body| - 1] != CARRIAGE_RETURN)
  }

  /** The patterns are matched against the line without its ending. */
  lemma BodyIs(body: Text, ending: Text)
    requires Unbroken(body) && IsEnding(ending)
    ensures Body(body + ending) == body
  {
    var line := body + ending;
    if ending == [CARRIAGE_RETURN, NEWLINE] {
      assert line[..|line| - 1] == body + [CARRIAGE_RETURN];
      assert (body + [CARRIAGE_RETURN])[..|body|] == body;
    } else if ending == [] {
      assert line == body;
    } else {
      assert line[..|line| - 1] == body;
    }
  }

  ghost predicate Opening(indent: Text, marks: Text, rest: Text) {
    && AllAre(indent, SPACE) && |indent| <= 3 && |marks| >= 3 && marks[0] in {BACKTICK, TILDE} && AllAre(marks, marks[0])
    && (rest == [] || rest[0] != marks[0])
  }

  ghost predicate OpensWith(body: Text, marks: Text) {
    exists indent, rest :: Opening(indent, marks, rest) && body == indent + marks + rest
  }

  ghost predicate Closing(fence: Text, indent: Text, marks: Text, blanks: Text)
    requires fence != []
  {
    AllAre(indent, SPACE) && |indent| <= 3 && AllAre(marks, fence[0]) && |marks| >= |fence| && Blank(blanks)
  }

  ghost predicate Closes(fence: Text, body: Text)
    requires fence != []
  {
    exists indent, marks, blanks :: Closing(fence, indent, marks, blanks) && body == indent + marks + blanks
  }

  ghost predicate HeadingParts(hashes: Text, blanks: Text, rest: Text) {
    && AllAre(hashes, HASH) && 1 <= |hashes| <= 6 && blanks != [] && Blank(blanks)
    && (rest == [] || !IsBlank(rest[0]))
  }

  ghost predicate HasHeading(body: Text, level: nat, title: Text) {
    exists hashes, blanks, rest {:trigger HeadingParts(hashes, blanks, rest)} ::
      HeadingParts(hashes, blanks, rest) && body == hashes + blanks + rest && level == |hashes| && title == Title(rest)
  }

  /** Outside a fence a line opens one exactly if it has the opening shape, whatever its ending. */
  lemma OpeningLine(body: Text, ending: Text, marks: Text)
    requires Unbroken(body) && IsEnding(ending)
    ensures RULES.next(None, body + ending) == Some(marks) <==> OpensWith(body, marks)
  {
    BodyIs(body, ending);
    if indent, rest :| Opening(indent, marks, rest) && body == indent + marks + rest {
      FenceOpenShape(indent, marks, rest);
    }
    if FenceOpen(body) == Some(marks) {
      var indent, marks', rest := FenceOpenOnly(body);
      assert Opening(indent, marks, rest) && body == indent + marks + rest;
    }
  }

  /** Inside a fence a line of the closing shape ends it, and any other line leaves it as it is. */
  lemma ClosingLine(fence: Text, body: Text, ending: Text)
    requires fence != [] && !IsBlank(fence[0]) && Unbroken(body) && IsEnding(ending)
    ensures RULES.next(Some(fence), body + ending) == if Closes(fence, body) then None else Some(fence)
  {
    BodyIs(body, ending);
    if indent, marks, blanks :| Closing(fence, indent, marks, blanks) && body == indent + marks + blanks {
      FenceCloseShape(fence, indent, marks, blanks);
    }
    if FenceClose(fence, body) {
      var indent, marks, blanks := FenceCloseOnly(fence, body);
      assert Closing(fence, indent, marks, blanks) && body == indent + marks + blanks;
    }
  }

  /** A line is a heading of this level and text exactly if it has the heading shape. */
  lemma HeadingLine(body: Text, ending: Text, level: nat, title: Text)
    requires Unbroken(body) && IsEnding(ending)
    ensures RULES.heading(body + ending) == Some(Heading(title, level)) <==> HasHeading(body, level, title)
  {
    BodyIs(body, ending);
    if hashes, blanks, rest :| HeadingParts(hashes, blanks, rest) && body == hashes + blanks + rest
                               && level == |hashes| && title == Title(rest) {
      HeadingShape(hashes, blanks, rest);
    }
    if HeadingOf(body) == Some(Heading(title, level)) {
      var hashes, blanks, rest := HeadingOnly(body);
      assert HeadingParts(hashes, blanks, rest) && body == hashes + blanks + rest;
    }
  }

  // ----- the parser

  lemma HeadingOpensNoFence(body: Text)
    requires HeadingOf(body).Some?
    ensures FenceOpen(body).None?
  {
    RunIs(body, HASH);
    assert body[..Run(body, HASH)][0] == HASH;
    assert Run(body, SPACE) == 0;
    assert body[0..] == body;
  }

  /** One round of the scan loop. */
  method ScanLine(ghost r: Rules, lines: seq<Text>, k: nat, position: nat, fence: Option<Text>, starts: seq<Start>)
    returns (next: Option<Text>, recorded: seq<Start>)
    requires ReadsMarkdown(r) && k < |lines| && (fence.Some? ==> fence.value != [])
    requires Scanned(r, lines, k, position, fence, starts)
    ensures next.Some? ==> next.value != []
    ensures Scanned(r, lines, k + 1, position + |lines[k]|, next, recorded)
  {
    var line := lines[k];
    var matched := Body(line);
    next, recorded := fence, starts;
    ScanStep(r, lines, k, position, fence, starts);
    if fence.Some? {
      if FenceClose(fence.value, matched) {
        next := None;
      }
    } else {
      var opening := FenceOpen(matched);
      if opening.Some? {
        assert HeadingOf(matched).None? by {
          if HeadingOf(matched).Some? { HeadingOpensNoFence(matched); }
        }
        next := opening;
      } else {
        var heading := HeadingOf(matched);
        if heading.Some? {
          recorded := starts + [Start(position, heading.value)];
        }
      }
    }
    assert starts + [] == starts;
    assert next == r.next(fence, line);
  }

  method FindStarts(ghost r: Rules, content: Text) returns (starts: seq<Start>)
    requires ReadsMarkdown(r)
    ensures
      var lines := SplitLines(content);
      starts == StartsOf(lines, Heads(r, lines, |lines|))
  {
    var lines := SplitLines(content);
    var position: nat := 0;
    var fence: Option<Text> := None;
    starts := [];
    for k := 0 to |lines|
      invariant fence.Some? ==> fence.value != []
      invariant Scanned(r, lines, k, position, fence, starts)
    {
      fence, starts := ScanLine(r, lines, k, position, fence, starts);
      position := position + |lines[k]|;
    }
  }

  method ParseSections(content: Text) returns (sections: seq<Section>)
    ensures sections == SectionsOf(RULES, content)
  {
    var starts := FindStarts(RULES, content);
    ghost var lines := SplitLines(content);
    HeadsOrdered(RULES, lines);
    SplitIsLossless(content);
    SplitGivesNonEmpty(content);
    sections := CutSections(content, starts, lines, Heads(RULES, lines, |lines|));
  }
}
