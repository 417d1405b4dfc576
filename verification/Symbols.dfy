/** Symbol collection over a syntax tree, and the partition of the source into labelled regions. */
module Symbols {
  import opened Entities

  datatype Span = Span(start: int, end: int)

  /** A syntax node: its type, byte range and named children, the byte range of its `name`
      field, and the range that names its receiver when it is a method declaration. */
  datatype Node = Node(kind: string, start: int, end: int, named: seq<Node>, name: Option<Span>, receiver: Option<Span>)

  datatype SymbolKind = Class | Method | Function | Module

  /** Names are ranges of the source; an absent name is the empty string. */
  datatype Meta = Meta(name: Option<Span>, kind: SymbolKind, parent: Option<Span>)

  datatype Symbol = Symbol(start: int, end: int, meta: Meta, children: seq<Symbol>)

  datatype Region = Region(start: int, end: int, meta: Meta)

  const MODULE_META := Meta(None, Module, None)

  const CLASS_NODES: set<string> := {
    "class_declaration", "class_definition", "enum_declaration",
    "interface_declaration", "record_declaration", "type_declaration" }
  const FUNCTION_NODES: set<string> := {
    "arrow_function", "function_declaration", "function_definition",
    "generator_function", "generator_function_declaration" }
  const METHOD_NODES: set<string> := {
    "constructor_declaration", "method_declaration", "method_definition" }

  function KindOf(n: Node, insideClass: bool): Option<SymbolKind> {
    if n.kind in CLASS_NODES then Some(Class)
    else if n.kind in METHOD_NODES then Some(Method)
    else if n.kind in FUNCTION_NODES then Some(if insideClass then Method else Function)
    else None
  }

  function FirstTypeSpec(nodes: seq<Node>): Option<Span> {
    if nodes == [] then None
    else if nodes[0].kind == "type_spec" then nodes[0].name
    else FirstTypeSpec(nodes[1..])
  }

  function NameOf(n: Node, parent: Node): Option<Span> {
    var name := if n.name.None? && n.kind == "type_declaration" then FirstTypeSpec(n.named) else n.name;
    if name.None? && n.kind == "arrow_function" && parent.kind == "variable_declarator" then parent.name else name
  }

  /** `not name` */
  predicate Nameless(name: Option<Span>) {
    name.None? || name.value.start >= name.value.end
  }

  function MetaOf(n: Node, parent: Node, kind: SymbolKind, enclosing: Option<Span>): Meta {
    Meta(NameOf(n, parent), kind,
         if n.kind == "method_declaration" && Nameless(enclosing) then n.receiver else enclosing)
  }

  // ----- collection

  /** The symbols under the first `k` named children of `n`. */
  function CollectFrom(n: Node, k: nat, enclosing: Option<Span>, insideClass: bool): seq<Symbol>
    requires k <= |n.named|
    decreases n, k
  {
    if k == 0 then [] else CollectFrom(n, k - 1, enclosing, insideClass) + CollectChild(n, k - 1, enclosing, insideClass)
  }

  function CollectChild(n: Node, i: nat, enclosing: Option<Span>, insideClass: bool): seq<Symbol>
    requires i < |n.named|
    decreases n, i
  {
    var child := n.named[i];
    match KindOf(child, insideClass)
    case None => CollectFrom(child, |child.named|, enclosing, insideClass)
    case Some(kind) =>
      var meta := MetaOf(child, n, kind, enclosing);
      [Symbol(child.start, child.end, meta, CollectFrom(child, |child.named|, meta.name, kind.Class?))]
  }

  function Collected(n: Node, enclosing: Option<Span>, insideClass: bool): seq<Symbol> {
    CollectFrom(n, |n.named|, enclosing, insideClass)
  }

  method CollectSymbols(n: Node, enclosing: Option<Span>, insideClass: bool) returns (found: seq<Symbol>)
    ensures found == Collected(n, enclosing, insideClass)
    decreases n
  {
    found := [];
    for i := 0 to |n.named|
      invariant found == CollectFrom(n, i, enclosing, insideClass)
    {
      var child := n.named[i];
      var kind := KindOf(child, insideClass);
      if kind.None? {
        var inner := CollectSymbols(child, enclosing, insideClass);
        found := found + inner;
      } else {
        var name := NameOf(child, n);
        var parent := enclosing;
        if child.kind == "method_declaration" && Nameless(parent) { parent := child.receiver; }
        var children := CollectSymbols(child, name, kind.value.Class?);
        found := found + [Symbol(child.start, child.end, Meta(name, kind.value, parent), children)];
      }
    }
  }

  /** Named children lie inside their parent, in order and without overlap, at every depth. */
  ghost predicate WellNested(n: Node)
    decreases n
  {
    && n.start <= n.end
    && (forall i | 0 <= i < |n.named| :: n.start <= n.named[i].start && n.named[i].end <= n.end && WellNested(n.named[i]))
    && (forall i, j | 0 <= i < j < |n.named| :: n.named[i].end <= n.named[j].start)
  }

  /** Symbols lie in `[lo, hi)`, in order and without overlap, at every depth. */
  ghost predicate Forest(symbols: seq<Symbol>, lo: int, hi: int)
    decreases symbols
  {
    && (forall i | 0 <= i < |symbols| ::
          lo <= symbols[i].start <= symbols[i].end <= hi && Forest(symbols[i].children, symbols[i].start, symbols[i].end))
    && (forall i, j | 0 <= i < j < |symbols| :: symbols[i].end <= symbols[j].start)
  }

  lemma ForestJoins(a: seq<Symbol>, b: seq<Symbol>, lo: int, mid: int, mid': int, hi: int)
    requires Forest(a, lo, mid) && Forest(b, mid', hi) && lo <= mid <= mid' <= hi
    ensures Forest(a + b, lo, hi)
  {}

  lemma ForestWidens(a: seq<Symbol>, lo: int, hi: int, lo': int, hi': int)
    requires Forest(a, lo, hi) && lo' <= lo && hi <= hi'
    ensures Forest(a, lo', hi')
  {}

  /** A well-nested tree yields a sorted, disjoint, nested symbol forest. */
  lemma {:induction false} CollectedIsForest(n: Node, k: nat, enclosing: Option<Span>, insideClass: bool)
    requires WellNested(n) && k <= |n.named|
    ensures
      var end := if k == 0 then n.start else n.named[k - 1].end;
      n.start <= end <= n.end && Forest(CollectFrom(n, k, enclosing, insideClass), n.start, end)
    decreases n, k
  {
    if k > 0 {
      var child := n.named[k - 1];
      assert WellNested(child);
      var before := if k == 1 then n.start else n.named[k - 2].end;
      CollectedIsForest(n, k - 1, enclosing, insideClass);
      ChildIsForest(n, k - 1, enclosing, insideClass);
      ForestJoins(CollectFrom(n, k - 1, enclosing, insideClass), CollectChild(n, k - 1, enclosing, insideClass),
                  n.start, before, child.start, child.end);
    }
  }

  lemma {:induction false} ChildIsForest(n: Node, i: nat, enclosing: Option<Span>, insideClass: bool)
    requires WellNested(n) && i < |n.named|
    ensures Forest(CollectChild(n, i, enclosing, insideClass), n.named[i].start, n.named[i].end)
    decreases n, i
  {
    var child := n.named[i];
    var last := if child.named == [] then child.start else child.named[|child.named| - 1].end;
    match KindOf(child, insideClass)
    case None =>
      CollectedIsForest(child, |child.named|, enclosing, insideClass);
      ForestWidens(Collected(child, enclosing, insideClass), child.start, last, child.start, child.end);
    case Some(kind) =>
      var name := NameOf(child, n);
      CollectedIsForest(child, |child.named|, name, kind.Class?);
      ForestWidens(Collected(child, name, kind.Class?), child.start, last, child.start, child.end);
  }

  // ----- innermost symbols

  predicate Contains(start: int, end: int, b: int) {
    start <= b < end
  }

  /** The metadata of the innermost symbol of the forest that contains byte `b`, or `outer`. */
  function MetaAt(symbols: seq<Symbol>, b: int, outer: Meta): Meta
    decreases symbols
  {
    if symbols == [] then outer
    else if Contains(symbols[0].start, symbols[0].end, b) then MetaAt(symbols[0].children, b, symbols[0].meta)
    else MetaAt(symbols[1..], b, outer)
  }

  /** The same, read off the syntax tree: descend into the child that contains `b`, renaming the
      context at each child that is a symbol. */
  function Innermost(n: Node, k: nat, b: int, enclosing: Option<Span>, insideClass: bool, outer: Meta): Meta
    requires k <= |n.named|
    decreases n, k
  {
    if k == 0 then outer
    else
      var child := n.named[k - 1];
      if !Contains(child.start, child.end, b) then Innermost(n, k - 1, b, enclosing, insideClass, outer)
      else
        match KindOf(child, insideClass)
        case None => Innermost(child, |child.named|, b, enclosing, insideClass, outer)
        case Some(kind) =>
          var meta := MetaOf(child, n, kind, enclosing);
          Innermost(child, |child.named|, b, meta.name, kind.Class?, meta)
  }

  lemma {:induction false} OutsideIsOuter(symbols: seq<Symbol>, lo: int, hi: int, b: int, outer: Meta)
    requires Forest(symbols, lo, hi) && !Contains(lo, hi, b)
    ensures MetaAt(symbols, b, outer) == outer
  {
    if symbols != [] {
      assert forall i | 0 <= i < |symbols[1..]| :: symbols[1..][i] == symbols[i + 1];
      OutsideIsOuter(symbols[1..], lo, hi, b, outer);
    }
  }

  /** Only one half of two joined forests can contain a byte. */
  lemma {:induction false} MetaAtJoin(a: seq<Symbol>, c: seq<Symbol>, lo: int, hi: int, b: int, outer: Meta)
    requires Forest(a, lo, hi)
    ensures !Contains(lo, hi, b) ==> MetaAt(a + c, b, outer) == MetaAt(c, b, outer)
    ensures MetaAt(c, b, outer) == outer ==> MetaAt(a + c, b, outer) == MetaAt(a, b, outer)
  {
    if a == [] {
      assert a + c == c;
    } else {
      assert (a + c)[1..] == a[1..] + c;
      assert forall i | 0 <= i < |a[1..]| :: a[1..][i] == a[i + 1];
      MetaAtJoin(a[1..], c, lo, hi, b, outer);
    }
  }

  /** The collected forest gives every byte the context that the syntax tree gives it. */
  lemma {:induction false} CollectedGivesInnermost(n: Node, k: nat, b: int, enclosing: Option<Span>, insideClass: bool, outer: Meta)
    requires WellNested(n) && k <= |n.named|
    ensures MetaAt(CollectFrom(n, k, enclosing, insideClass), b, outer) == Innermost(n, k, b, enclosing, insideClass, outer)
    decreases n, k
  {
    if k > 0 {
      var child := n.named[k - 1];
      var before := if k == 1 then n.start else n.named[k - 2].end;
      var prefix, last := CollectFrom(n, k - 1, enclosing, insideClass), CollectChild(n, k - 1, enclosing, insideClass);
      assert WellNested(child);
      CollectedGivesInnermost(n, k - 1, b, enclosing, insideClass, outer);
      CollectedIsForest(n, k - 1, enclosing, insideClass);
      ChildIsForest(n, k - 1, enclosing, insideClass);
      MetaAtJoin(prefix, last, n.start, before, b, outer);
      if !Contains(child.start, child.end, b) {
        OutsideIsOuter(last, child.start, child.end, b, outer);
      } else {
        match KindOf(child, insideClass)
        case None => CollectedGivesInnermost(child, |child.named|, b, enclosing, insideClass, outer);
        case Some(kind) =>
          var meta := MetaOf(child, n, kind, enclosing);
          CollectedGivesInnermost(child, |child.named|, b, meta.name, kind.Class?, meta);
      }
    }
  }

  // ----- partition

  /** The regions up to the end of the `k`-th child. */
  function RegionsUpTo(start: int, meta: Meta, children: seq<Symbol>, k: nat): seq<Region>
    requires k <= |children|
    decreases children, k
  {
    if k == 0 then []
    else
      var cursor := Cursor(start, children, k - 1);
      var child := children[k - 1];
      RegionsUpTo(start, meta, children, k - 1) + Gap(cursor, child.start, meta)
      + Partitioned(child.start, child.end, child.meta, child.children)
  }

  /** What lies between two children belongs to the symbol around them. */
  function Gap(cursor: int, start: int, meta: Meta): seq<Region> {
    if cursor < start then [Region(cursor, start, meta)] else []
  }

  function Cursor(start: int, children: seq<Symbol>, k: nat): int
    requires k <= |children|
  {
    if k == 0 then start else children[k - 1].end
  }

  function Partitioned(start: int, end: int, meta: Meta, children: seq<Symbol>): seq<Region>
    decreases children, |children| + 1
  {
    var regions := RegionsUpTo(start, meta, children, |children|);
    var cursor := Cursor(start, children, |children|);
    if cursor < end || (regions == [] && start == end) then regions + [Region(cursor, end, meta)] else regions
  }

  method Partition(start: int, end: int, meta: Meta, children: seq<Symbol>) returns (regions: seq<Region>)
    ensures regions == Partitioned(start, end, meta, children)
    decreases children
  {
    regions := [];
    var cursor := start;
    for i := 0 to |children|
      invariant regions == RegionsUpTo(start, meta, children, i)
      invariant cursor == Cursor(start, children, i)
    {
      var child := children[i];
      var gap := if cursor < child.start then [Region(cursor, child.start, meta)] else [];
      var inner := Partition(child.start, child.end, child.meta, child.children);
      regions := regions + gap + inner;
      cursor := child.end;
    }
    if cursor < end || (regions == [] && start == end) {
      regions := regions + [Region(cursor, end, meta)];
    }
  }

  /** The regions cover `[start, end)` in order, each beginning where the one before it ends. */
  ghost predicate Tiles(regions: seq<Region>, start: int, end: int) {
    if regions == [] then start == end
    else regions[0].start == start && start <= regions[0].end && Tiles(regions[1..], regions[0].end, end)
  }

  lemma {:induction false} TilesJoin(a: seq<Region>, b: seq<Region>, start: int, mid: int, end: int)
    requires Tiles(a, start, mid) && Tiles(b, mid, end)
    ensures Tiles(a + b, start, end)
  {
    if a == [] {
      assert a + b == b;
    } else {
      TilesJoin(a[1..], b, a[0].end, mid, end);
      assert (a + b)[1..] == a[1..] + b;
    }
  }

  /** The partition of a forest tiles its interval, and is never empty. */
  lemma {:induction false} PartitionTiles(start: int, end: int, meta: Meta, children: seq<Symbol>)
    requires Forest(children, start, end) && start <= end
    ensures Tiles(Partitioned(start, end, meta, children), start, end) && Partitioned(start, end, meta, children) != []
    decreases children, |children| + 1
  {
    RegionsTile(start, end, meta, children, |children|);
    var regions, cursor := RegionsUpTo(start, meta, children, |children|), Cursor(start, children, |children|);
    TilesJoin(regions, [Region(cursor, end, meta)], start, cursor, end);
  }

  lemma {:induction false} RegionsTile(start: int, end: int, meta: Meta, children: seq<Symbol>, k: nat)
    requires Forest(children, start, end) && start <= end && k <= |children|
    ensures start <= Cursor(start, children, k) <= end
    ensures Tiles(RegionsUpTo(start, meta, children, k), start, Cursor(start, children, k))
    ensures k > 0 ==> RegionsUpTo(start, meta, children, k) != []
    decreases children, k
  {
    forall i: nat | 0 <= i < k ensures ChildTiles(start, children, i) {
      ForestOrder(children, start, end, i);
      PartitionTiles(children[i].start, children[i].end, children[i].meta, children[i].children);
    }
    if k > 0 { ForestOrder(children, start, end, k - 1); }
    TilesUpTo(start, meta, children, k);
  }

  ghost predicate ChildTiles(start: int, children: seq<Symbol>, i: nat)
    requires i < |children|
  {
    var child := children[i];
    var inner := Partitioned(child.start, child.end, child.meta, child.children);
    Cursor(start, children, i) <= child.start && inner != [] && Tiles(inner, child.start, child.end)
  }

  lemma {:induction false} TilesUpTo(start: int, meta: Meta, children: seq<Symbol>, k: nat)
    requires k <= |children| && forall i {:trigger ChildTiles(start, children, i)} | 0 <= i < k :: ChildTiles(start, children, i)
    ensures Tiles(RegionsUpTo(start, meta, children, k), start, Cursor(start, children, k))
    ensures k > 0 ==> RegionsUpTo(start, meta, children, k) != []
  {
    if k > 0 {
      TilesUpTo(start, meta, children, k - 1);
      var cursor, child := Cursor(start, children, k - 1), children[k - 1];
      assert ChildTiles(start, children, k - 1);
      GapTiles(cursor, child.start, meta);
      ThreeTile(RegionsUpTo(start, meta, children, k - 1), Gap(cursor, child.start, meta),
                Partitioned(child.start, child.end, child.meta, child.children), start, cursor, child.start, child.end);
    }
  }

  /** A child begins at or after the cursor. */
  lemma ForestOrder(children: seq<Symbol>, start: int, end: int, k: nat)
    requires Forest(children, start, end) && k < |children|
    ensures Cursor(start, children, k) <= children[k].start <= children[k].end <= end
    ensures Forest(children[k].children, children[k].start, children[k].end)
    ensures Forest(children[..k], start, Cursor(start, children, k))
  {}

  lemma OneMoreChild(children: seq<Symbol>, k: nat)
    requires 0 < k <= |children|
    ensures children[..k] == children[..k - 1] + [children[k - 1]]
  {}

  lemma GapTiles(cursor: int, start: int, meta: Meta)
    requires cursor <= start
    ensures Tiles(Gap(cursor, start, meta), cursor, start)
  {}

  lemma ThreeTile(before: seq<Region>, gap: seq<Region>, inner: seq<Region>, start: int, a: int, b: int, end: int)
    requires Tiles(before, start, a) && Tiles(gap, a, b) && Tiles(inner, b, end)
    ensures Tiles(before + gap + inner, start, end)
  {
    TilesJoin(before, gap, start, a, b);
    TilesJoin(before + gap, inner, start, b, end);
  }

  /** The metadata of the region that contains byte `b`. */
  function RegionMeta(regions: seq<Region>, b: int): Option<Meta> {
    if regions == [] then None
    else if Contains(regions[0].start, regions[0].end, b) then Some(regions[0].meta)
    else RegionMeta(regions[1..], b)
  }

  lemma {:induction false} RegionMetaJoin(a: seq<Region>, c: seq<Region>, b: int)
    ensures RegionMeta(a + c, b) == if RegionMeta(a, b).Some? then RegionMeta(a, b) else RegionMeta(c, b)
  {
    if a == [] {
      assert a + c == c;
    } else {
      RegionMetaJoin(a[1..], c, b);
      assert (a + c)[1..] == a[1..] + c;
    }
  }

  lemma {:induction false} TilesFind(regions: seq<Region>, start: int, end: int, b: int)
    requires Tiles(regions, start, end)
    ensures start <= end && (RegionMeta(regions, b).Some? <==> Contains(start, end, b))
  {
    if regions != [] { TilesFind(regions[1..], regions[0].end, end, b); }
  }

  /** Every byte's region carries the metadata of the innermost symbol that contains it. */
  lemma {:induction false} PartitionMeta(start: int, end: int, meta: Meta, children: seq<Symbol>, b: int)
    requires Forest(children, start, end) && Contains(start, end, b)
    ensures RegionMeta(Partitioned(start, end, meta, children), b) == Some(MetaAt(children, b, meta))
    decreases children, |children| + 1
  {
    var regions, cursor := RegionsUpTo(start, meta, children, |children|), Cursor(start, children, |children|);
    RegionsTile(start, end, meta, children, |children|);
    RegionMetaJoin(regions, [Region(cursor, end, meta)], b);
    TilesFind(regions, start, cursor, b);
    assert children[..|children|] == children;
    if Contains(start, cursor, b) {
      RegionsMeta(start, end, meta, children, |children|, b);
    } else {
      assert Forest(children, start, cursor);
      OutsideIsOuter(children, start, cursor, b, meta);
    }
  }

  lemma {:induction false} RegionsMeta(start: int, end: int, meta: Meta, children: seq<Symbol>, k: nat, b: int)
    requires Forest(children, start, end) && k <= |children| && Contains(start, Cursor(start, children, k), b)
    ensures RegionMeta(RegionsUpTo(start, meta, children, k), b) == Some(MetaAt(children[..k], b, meta))
    decreases children, k
  {
    forall i: nat | 0 <= i < k ensures ChildLabelled(start, meta, children, i, b) {
      RegionsTile(start, end, meta, children, i);
      ForestOrder(children, start, end, i);
      var child := children[i];
      if Contains(child.start, child.end, b) {
        PartitionMeta(child.start, child.end, child.meta, child.children, b);
      }
    }
    MetaUpTo(start, meta, children, k, b);
  }

  /** What the labels of the first `i + 1` children rest on. */
  ghost predicate ChildLabelled(start: int, meta: Meta, children: seq<Symbol>, i: nat, b: int)
    requires i < |children|
  {
    var cursor, child := Cursor(start, children, i), children[i];
    && cursor <= child.start && Forest(children[..i], start, cursor)
    && Tiles(RegionsUpTo(start, meta, children, i), start, cursor)
    && (Contains(child.start, child.end, b) ==>
          RegionMeta(Partitioned(child.start, child.end, child.meta, child.children), b)
          == Some(MetaAt(child.children, b, child.meta)))
  }

  lemma {:induction false} MetaUpTo(start: int, meta: Meta, children: seq<Symbol>, k: nat, b: int)
    requires k <= |children| && Contains(start, Cursor(start, children, k), b)
    requires forall i {:trigger ChildLabelled(start, meta, children, i, b)} | 0 <= i < k ::
               ChildLabelled(start, meta, children, i, b)
    ensures RegionMeta(RegionsUpTo(start, meta, children, k), b) == Some(MetaAt(children[..k], b, meta))
  {
    if k > 0 {
      assert ChildLabelled(start, meta, children, k - 1, b);
      MetaStep(start, meta, children, k - 1, b);
      if b < Cursor(start, children, k - 1) { MetaUpTo(start, meta, children, k - 1, b); }
    }
  }

  /** Both sides of the claim for one child more. */
  lemma MetaStep(start: int, meta: Meta, children: seq<Symbol>, k: nat, b: int)
    requires k < |children| && Cursor(start, children, k) <= children[k].start && start <= b < children[k].end
    requires Tiles(RegionsUpTo(start, meta, children, k), start, Cursor(start, children, k))
    requires Forest(children[..k], start, Cursor(start, children, k))
    ensures
      var cursor, child := Cursor(start, children, k), children[k];
      && RegionMeta(RegionsUpTo(start, meta, children, k + 1), b) ==
         (if b < cursor then RegionMeta(RegionsUpTo(start, meta, children, k), b)
          else if b < child.start then Some(meta)
          else RegionMeta(Partitioned(child.start, child.end, child.meta, child.children), b))
      && MetaAt(children[..k + 1], b, meta) ==
         (if b < cursor then MetaAt(children[..k], b, meta)
          else if b < child.start then meta else MetaAt(child.children, b, child.meta))
  {
    var cursor, child := Cursor(start, children, k), children[k];
    OneMoreChild(children, k + 1);
    ThreeRegions(RegionsUpTo(start, meta, children, k), cursor, child.start,
                 Partitioned(child.start, child.end, child.meta, child.children), start, b, meta);
    LastChildMeta(children[..k], child, start, cursor, b, meta);
  }

  /** In which of three adjacent runs of regions a byte lies. */
  lemma ThreeRegions(before: seq<Region>, cursor: int, next: int, inner: seq<Region>, start: int, b: int, meta: Meta)
    requires Tiles(before, start, cursor) && start <= b && cursor <= next
    ensures RegionMeta(before + Gap(cursor, next, meta) + inner, b) ==
            if b < cursor then RegionMeta(before, b) else if b < next then Some(meta) else RegionMeta(inner, b)
  {
    RegionMetaJoin(before + Gap(cursor, next, meta), inner, b);
    RegionMetaJoin(before, Gap(cursor, next, meta), b);
    TilesFind(before, start, cursor, b);
  }

  /** The metadata of a byte in a forest whose last tree is `child`. */
  lemma LastChildMeta(earlier: seq<Symbol>, child: Symbol, start: int, cursor: int, b: int, meta: Meta)
    requires Forest(earlier, start, cursor) && cursor <= child.start && start <= b < child.end
    ensures MetaAt(earlier + [child], b, meta) ==
            if b < cursor then MetaAt(earlier, b, meta) else if b < child.start then meta else MetaAt(child.children, b, child.meta)
  {
    MetaAtJoin(earlier, [child], start, cursor, b, meta);
    assert MetaAt([child][1..], b, meta) == meta;
    if b >= cursor { OutsideIsOuter(earlier, start, cursor, b, meta); }
  }

  // ----- where regions may begin and end

  /** Every node begins and ends at one of `cuts`. */
  ghost predicate NodeEnds(n: Node, cuts: iset<int>)
    decreases n
  {
    n.start in cuts && n.end in cuts && forall i | 0 <= i < |n.named| :: NodeEnds(n.named[i], cuts)
  }

  ghost predicate SymbolEnds(symbols: seq<Symbol>, cuts: iset<int>)
    decreases symbols
  {
    forall i | 0 <= i < |symbols| ::
      symbols[i].start in cuts && symbols[i].end in cuts && SymbolEnds(symbols[i].children, cuts)
  }

  ghost predicate RegionEnds(regions: seq<Region>, cuts: iset<int>) {
    forall i | 0 <= i < |regions| :: regions[i].start in cuts && regions[i].end in cuts
  }

  lemma {:induction false} CollectedEnds(n: Node, k: nat, enclosing: Option<Span>, insideClass: bool, cuts: iset<int>)
    requires NodeEnds(n, cuts) && k <= |n.named|
    ensures SymbolEnds(CollectFrom(n, k, enclosing, insideClass), cuts)
    decreases n, k
  {
    if k > 0 {
      var child := n.named[k - 1];
      CollectedEnds(n, k - 1, enclosing, insideClass, cuts);
      match KindOf(child, insideClass)
      case None => CollectedEnds(child, |child.named|, enclosing, insideClass, cuts);
      case Some(kind) => CollectedEnds(child, |child.named|, NameOf(child, n), kind.Class?, cuts);
    }
  }

  lemma {:induction false} PartitionEnds(start: int, end: int, meta: Meta, children: seq<Symbol>, cuts: iset<int>)
    requires SymbolEnds(children, cuts) && start in cuts && end in cuts
    ensures RegionEnds(Partitioned(start, end, meta, children), cuts)
    decreases children, |children| + 1
  {
    RegionsEnd(start, meta, children, |children|, cuts);
  }

  lemma {:induction false} RegionsEnd(start: int, meta: Meta, children: seq<Symbol>, k: nat, cuts: iset<int>)
    requires SymbolEnds(children, cuts) && start in cuts && k <= |children|
    ensures RegionEnds(RegionsUpTo(start, meta, children, k), cuts) && Cursor(start, children, k) in cuts
    decreases children, k
  {
    if k > 0 {
      var child := children[k - 1];
      RegionsEnd(start, meta, children, k - 1, cuts);
      PartitionEnds(child.start, child.end, child.meta, child.children, cuts);
    }
  }

  /** From tree to regions: the regions of a well-nested tree tile the source, and each byte is
      labelled with the innermost symbol node around it, or as module text. */
  lemma RegionsOfTree(root: Node, length: nat, b: int)
    requires WellNested(root) && 0 <= root.start && root.end <= length
    ensures
      var symbols := Collected(root, None, false);
      var regions := Partitioned(0, length, MODULE_META, symbols);
      && Forest(symbols, 0, length) && regions != [] && Tiles(regions, 0, length)
      && (Contains(0, length, b) ==>
            RegionMeta(regions, b) == Some(Innermost(root, |root.named|, b, None, false, MODULE_META)))
  {
    var symbols := Collected(root, None, false);
    CollectedIsForest(root, |root.named|, None, false);
    ForestWidens(symbols, root.start, if root.named == [] then root.start else root.named[|root.named| - 1].end, 0, length);
    PartitionTiles(0, length, MODULE_META, symbols);
    if Contains(0, length, b) {
      PartitionMeta(0, length, MODULE_META, symbols, b);
      CollectedGivesInnermost(root, |root.named|, b, None, false, MODULE_META);
    }
  }
}
