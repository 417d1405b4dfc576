/** Whitespace-separated tokens and the cuts of a text at every `limit`-th of them. */
module Tokens {
  import opened Entities
  import opened Utf8

  /** A token begins at `k`. */
  predicate IsStart(s: Text, k: nat)
    requires k < |s|
  {
    !IsSpace(s[k]) && (k == 0 || IsSpace(s[k - 1]))
  }

  /** Where the matches of `\S+` begin. */
  function Starts(s: Text): seq<nat> {
    if s == [] then []
    else
      var n := |s| - 1;
      Starts(s[..n]) + if IsStart(s, n) then [n] else []
  }

  /** Character `c` after the tokens `before`: a space, the start of a token, or more of the last one. */
  function Extend(before: seq<Text>, starts: bool, c: CodePoint): seq<Text>
    requires IsSpace(c) || starts || before != []
  {
    if IsSpace(c) then before
    else if starts then before + [[c]]
    else before[..|before| - 1] + [before[|before| - 1] + [c]]
  }

  /** A token may begin right after `s`. */
  predicate Fresh(s: Text) {
    s == [] || IsSpace(s[|s| - 1])
  }

  /** The matches of `\S+`: maximal runs of characters that are not spaces. */
  function Words(s: Text): (w: seq<Text>)
    ensures !Fresh(s) ==> w != []
  {
    if s == [] then []
    else
      var before := s[..|s| - 1];
      Extend(Words(before), Fresh(before), s[|s| - 1])
  }

  lemma {:induction false} StartsAre(s: Text, k: nat)
    requires k < |Starts(s)|
    ensures |Starts(s)| == |Words(s)|
    ensures Starts(s)[k] < |s| && IsStart(s, Starts(s)[k]) && |Words(s[..Starts(s)[k]])| == k
    ensures k > 0 ==> Starts(s)[k - 1] < Starts(s)[k]
  {
    CountsAgree(s);
    var n := |s| - 1;
    if k < |Starts(s[..n])| {
      StartsAre(s[..n], k);
      assert s[..n][..Starts(s)[k]] == s[..Starts(s)[k]];
    } else {
      CountsAgree(s[..n]);
      if k > 0 { StartsAre(s[..n], k - 1); }
    }
  }

  lemma {:induction false} CountsAgree(s: Text)
    ensures |Starts(s)| == |Words(s)|
  {
    if s != [] { CountsAgree(s[..|s| - 1]); }
  }

  lemma ExtendJoins(a: seq<Text>, b: seq<Text>, starts: bool, c: CodePoint)
    requires IsSpace(c) || starts || b != []
    ensures Extend(a + b, starts, c) == a + Extend(b, starts, c)
  {}

  lemma FreshJoins(a: Text, b: Text)
    ensures Fresh(a + b) == if b == [] then Fresh(a) else Fresh(b)
  {
    if b == [] { assert a + b == a; }
  }

  /** No token straddles a cut with a space, or nothing, on one side of it. */
  lemma {:induction false} WordsJoin(a: Text, b: Text)
    requires Fresh(a) || b == [] || IsSpace(b[0])
    ensures Words(a + b) == Words(a) + Words(b)
  {
    if b == [] {
      assert a + b == a;
    } else {
      var before, c := b[..|b| - 1], b[|b| - 1];
      WordsJoin(a, before);
      FreshJoins(a, before);
      EndOfBoth(a, b, before, c);
      ExtendJoins(Words(a), Words(before), Fresh(before), c);
    }
  }

  lemma EndOfBoth(a: Text, b: Text, before: Text, c: CodePoint)
    requires b != [] && before == b[..|b| - 1] && c == b[|b| - 1]
    ensures (a + b)[..|a + b| - 1] == a + before && (a + b)[|a + b| - 1] == c
  {}

  // ----- cuts

  /** The starts numbered `i`, `i + limit`, and so on. */
  function EveryNth(starts: seq<nat>, i: nat, limit: nat): seq<nat>
    requires limit > 0
    decreases |starts| - i
  {
    if i < |starts| then [starts[i]] + EveryNth(starts, i + limit, limit) else []
  }

  function CutsOf(s: Text, limit: nat): seq<nat>
    requires limit > 0
  {
    [0] + EveryNth(Starts(s), limit, limit) + [|s|]
  }

  method CharCuts(s: Text, limit: nat) returns (cuts: seq<nat>)
    requires limit > 0
    ensures cuts == CutsOf(s, limit)
  {
    var starts := Starts(s);
    cuts := [0];
    var index := limit;
    while index < |starts|
      invariant cuts + EveryNth(starts, index, limit) == [0] + EveryNth(starts, limit, limit)
      decreases |starts| - index
    {
      cuts := cuts + [starts[index]];
      index := index + limit;
    }
    cuts := cuts + [|s|];
  }

  /** `n / d` rounded up: the least number of pieces of `d` that hold `n`. */
  function CeilDiv(n: nat, d: nat): (c: nat)
    requires d > 0
    ensures c * d >= n && (n > 0 ==> (c - 1) * d < n)
  {
    if n == 0 then 0 else if n <= d then 1 else CeilDiv(n - d, d) + 1
  }

  lemma {:induction false} EveryNthAt(starts: seq<nat>, i: nat, limit: nat, k: nat)
    requires limit > 0 && k < |EveryNth(starts, i, limit)|
    ensures i + k * limit < |starts| && EveryNth(starts, i, limit)[k] == starts[i + k * limit]
    decreases |starts| - i
  {
    if k > 0 {
      EveryNthAt(starts, i + limit, limit, k - 1);
      assert i + limit + (k - 1) * limit == i + k * limit;
    }
  }

  lemma {:induction false} EveryNthLength(starts: seq<nat>, i: nat, limit: nat)
    requires limit > 0
    ensures i <= |starts| ==> |EveryNth(starts, i, limit)| == CeilDiv(|starts| - i, limit)
    ensures i > |starts| ==> EveryNth(starts, i, limit) == []
    decreases |starts| - i
  {
    if i < |starts| {
      EveryNthLength(starts, i + limit, limit);
    }
  }

  /** The `k`-th cut: token number `k * limit` begins there, or the text begins or ends there. */
  lemma CutAt(s: Text, limit: nat, k: nat)
    requires limit > 0 && k < |CutsOf(s, limit)| && |Words(s)| > limit
    ensures
      var cut := CutsOf(s, limit)[k];
      && cut <= |s| && (cut == 0 || cut == |s| || IsStart(s, cut))
      && |Words(s[..cut])| == (if k * limit < |Words(s)| then k * limit else |Words(s)|)
      && (k + 1 < |CutsOf(s, limit)| ==> cut < CutsOf(s, limit)[k + 1])
    ensures |CutsOf(s, limit)| == CeilDiv(|Words(s)|, limit) + 1
  {
    var starts := Starts(s);
    var inner := EveryNth(starts, limit, limit);
    CountsAgree(s);
    EveryNthLength(starts, limit, limit);
    CutPosition(s, limit, k);
    if k + 1 < |CutsOf(s, limit)| { CutPosition(s, limit, k + 1); CutsIncrease(s, limit, k); }
  }

  lemma CutPosition(s: Text, limit: nat, k: nat)
    requires limit > 0 && k < |CutsOf(s, limit)| && |Words(s)| > limit
    ensures
      var cut := CutsOf(s, limit)[k];
      && cut <= |s| && (cut == 0 || cut == |s| || IsStart(s, cut))
      && |Words(s[..cut])| == (if k * limit < |Words(s)| then k * limit else |Words(s)|)
  {
    var starts := Starts(s);
    var inner := EveryNth(starts, limit, limit);
    CountsAgree(s);
    if k == 0 {
      assert s[..0] == [];
    } else if k <= |inner| {
      EveryNthAt(starts, limit, limit, k - 1);
      assert limit + (k - 1) * limit == k * limit;
      StartsAre(s, k * limit);
      assert CutsOf(s, limit)[k] == inner[k - 1];
    } else {
      EveryNthLength(starts, limit, limit);
      assert k == |inner| + 1;
      assert k * limit == |inner| * limit + limit;
      assert s[..|s|] == s;
    }
  }

  lemma CutsIncrease(s: Text, limit: nat, k: nat)
    requires limit > 0 && k + 1 < |CutsOf(s, limit)| && |Words(s)| > limit
    ensures CutsOf(s, limit)[k] < CutsOf(s, limit)[k + 1]
  {
    var inner := EveryNth(Starts(s), limit, limit);
    CountsAgree(s);
    if k < |inner| { InnerCut(s, limit, k); }
    if 0 < k { InnerCut(s, limit, k - 1); }
    Between(inner, |s|, k);
  }

  /** The inner cuts lie inside the text, in order. */
  lemma InnerCut(s: Text, limit: nat, j: nat)
    requires limit > 0 && j < |EveryNth(Starts(s), limit, limit)|
    ensures
      var inner := EveryNth(Starts(s), limit, limit);
      0 < inner[j] < |s| && (j + 1 < |inner| ==> inner[j] < inner[j + 1])
  {
    var starts := Starts(s);
    forall a, b | 0 <= a < b < |starts| ensures starts[a] < starts[b] { StartsIncrease(s, a, b); }
    forall a | 0 <= a < |starts| ensures starts[a] < |s| { StartsAre(s, a); }
    EveryNthRises(starts, limit, limit, |s|, j);
  }

  lemma {:induction false} EveryNthRises(starts: seq<nat>, i: nat, limit: nat, end: nat, j: nat)
    requires limit > 0 && i > 0 && j < |EveryNth(starts, i, limit)|
    requires forall a, b | 0 <= a < b < |starts| :: starts[a] < starts[b]
    requires forall a | 0 <= a < |starts| :: starts[a] < end
    ensures
      var inner := EveryNth(starts, i, limit);
      0 < inner[j] < end && (j + 1 < |inner| ==> inner[j] < inner[j + 1])
    decreases j
  {
    if j > 0 {
      EveryNthRises(starts, i + limit, limit, end, j - 1);
    } else {
      assert starts[0] < starts[i];
    }
  }

  lemma Between(inner: seq<nat>, end: nat, k: nat)
    requires k <= |inner|
    requires k < |inner| ==> 0 < inner[k] && (k > 0 ==> inner[k - 1] < inner[k])
    requires k > 0 ==> inner[k - 1] < end
    requires inner == [] ==> 0 < end
    ensures ([0] + inner + [end])[k] < ([0] + inner + [end])[k + 1]
  {}

  lemma {:induction false} StartsIncrease(s: Text, i: nat, j: nat)
    requires i < j < |Starts(s)|
    ensures Starts(s)[i] < Starts(s)[j]
  {
    StartsAre(s, j);
    if i < j - 1 { StartsIncrease(s, i, j - 1); }
  }

  /** The `k`-th run of `limit` tokens; the last run may be shorter. */
  function Portion(words: seq<Text>, limit: nat, k: nat): (run: seq<Text>)
    ensures |run| <= limit
  {
    if |words| <= limit then (if k == 0 then words else [])
    else if k == 0 then words[..limit]
    else Portion(words[limit..], limit, k - 1)
  }

  lemma PortionIsSlice(words: seq<Text>, limit: nat, k: nat)
    requires k * limit < |words|
    ensures
      var hi := if (k + 1) * limit < |words| then (k + 1) * limit else |words|;
      k * limit <= hi && Portion(words, limit, k) == words[k * limit..hi]
  {
    assert (k + 1) * limit == k * limit + limit;
    PortionFrom(words, limit, k, k * limit);
  }

  lemma {:induction false} PortionFrom(words: seq<Text>, limit: nat, k: nat, lo: nat)
    requires lo == k * limit && lo < |words|
    ensures Portion(words, limit, k) == words[lo..if lo + limit < |words| then lo + limit else |words|]
  {
    var hi := if lo + limit < |words| then lo + limit else |words|;
    if k == 0 {
      assert lo == 0;
      FirstRun(words, limit, hi);
    } else {
      OneRunLess(k, limit, lo);
      var rest := words[limit..];
      PortionFrom(rest, limit, k - 1, lo - limit);
      SliceOfRest(words, limit, rest, lo, hi);
    }
  }

  lemma FirstRun(words: seq<Text>, limit: nat, hi: nat)
    requires hi == if limit < |words| then limit else |words|
    ensures Portion(words, limit, 0) == words[0..hi]
  {}

  lemma OneRunLess(k: nat, limit: nat, lo: nat)
    requires lo == k * limit && k > 0
    ensures lo - limit == (k - 1) * limit && lo >= limit
  {}

  lemma SliceOfRest(words: seq<Text>, limit: nat, rest: seq<Text>, lo: nat, hi: nat)
    requires limit <= lo <= hi <= |words| && rest == words[limit..]
    ensures rest[lo - limit..hi - limit] == words[lo..hi]
  {}

  /** The text between cuts `k` and `k + 1` is not empty and holds run `k` of the tokens. */
  predicate CutsPortion(s: Text, limit: nat, cuts: seq<nat>, k: nat) {
    && k + 1 < |cuts| && cuts[k] < cuts[k + 1] <= |s|
    && Words(s[cuts[k]..cuts[k + 1]]) == Portion(Words(s), limit, k) != []
  }

  /** Each piece between two cuts holds exactly the matching slice of the tokens. */
  lemma PieceWords(s: Text, limit: nat, k: nat)
    requires limit > 0 && |Words(s)| > limit && k + 1 < |CutsOf(s, limit)|
    ensures CutsPortion(s, limit, CutsOf(s, limit), k)
  {
    var cuts := CutsOf(s, limit);
    CutAt(s, limit, k);
    CutAt(s, limit, k + 1);
    var a, b := cuts[k], cuts[k + 1];
    SplitWords(s, a);
    SplitWords(s, b);
    assert s[..b][..a] == s[..a] && s[..b][a..] == s[a..b];
    SplitWords(s[..b], a);
    PieceIsFull(|Words(s)|, limit, k, |cuts|);
    PortionIsSlice(Words(s), limit, k);
  }

  lemma PieceIsFull(n: nat, limit: nat, k: nat, cuts: nat)
    requires limit > 0 && k + 1 < cuts && cuts == CeilDiv(n, limit) + 1
    ensures k * limit < n && (k + 1) * limit == k * limit + limit
  {
    var c := CeilDiv(n, limit);
    MulOrder(k, c - 1, limit);
  }

  lemma MulOrder(a: nat, b: nat, d: nat)
    requires a <= b
    ensures a * d <= b * d
  {}

  lemma SplitWords(s: Text, cut: nat)
    requires cut <= |s| && (cut == 0 || cut == |s| || IsStart(s, cut))
    ensures Words(s) == Words(s[..cut]) + Words(s[cut..])
  {
    var left, right := s[..cut], s[cut..];
    assert s == left + right;
    CutIsFresh(s, cut, left, right);
    WordsJoin(left, right);
  }

  lemma CutIsFresh(s: Text, cut: nat, left: Text, right: Text)
    requires cut <= |s| && (cut == 0 || cut == |s| || IsStart(s, cut)) && left == s[..cut] && right == s[cut..]
    ensures Fresh(left) || right == []
  {}
}
