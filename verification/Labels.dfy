/** What a chunk's label means, in terms of the nodes around a byte: the nearest declaration, its kind,
    its name, and the name of the declaration around it. */
module Labels {
  import opened Entities
  import opened Utf8
  import opened Symbols
  import opened TreeSitter
  import opened Chunks

  // ----- one node

  predicate IsDeclaration(n: Node) {
    n.kind in CLASS_NODES || n.kind in METHOD_NODES || n.kind in FUNCTION_NODES
  }

  /** The node types of each language that declare something, and what. */
  lemma KindIs(n: Node, insideClass: bool)
    ensures KindOf(n, insideClass) == Some(Class) <==>
            n.kind in {"class_declaration", "class_definition", "enum_declaration", "interface_declaration",
                       "record_declaration", "type_declaration"}
    ensures KindOf(n, insideClass) == Some(Method) <==>
            || n.kind in {"constructor_declaration", "method_declaration", "method_definition"}
            || (insideClass && n.kind in {"arrow_function", "function_declaration", "function_definition",
                                          "generator_function", "generator_function_declaration"})
    ensures KindOf(n, insideClass) == Some(Function) <==>
            !insideClass && n.kind in {"arrow_function", "function_declaration", "function_definition",
                                       "generator_function", "generator_function_declaration"}
    ensures KindOf(n, insideClass) != Some(Module) && (KindOf(n, insideClass).Some? <==> IsDeclaration(n))
  {}

  /** Where a declaration's name is: in its own `name` field; for a Go type declaration without one, in
      that of its first type specification; for an arrow function, in that of the declarator around it. */
  lemma NameIs(n: Node, parent: Node)
    ensures n.name.Some? ==> NameOf(n, parent) == n.name
    ensures n.name.None? && n.kind == "arrow_function" && parent.kind == "variable_declarator" ==>
              NameOf(n, parent) == parent.name
    ensures (n.name.None? && n.kind != "type_declaration"
             && !(n.kind == "arrow_function" && parent.kind == "variable_declarator")) ==> NameOf(n, parent) == None
    ensures n.name.None? && n.kind == "type_declaration" && (forall i | 0 <= i < |n.named| :: n.named[i].kind != "type_spec") ==>
              NameOf(n, parent) == None
    ensures n.name.None? && n.kind == "type_declaration" ==>
              forall i | FirstSpec(n.named, i) :: NameOf(n, parent) == n.named[i].name
  {
    if forall i | 0 <= i < |n.named| :: n.named[i].kind != "type_spec" { NoTypeSpec(n.named); }
    forall i | FirstSpec(n.named, i) ensures FirstTypeSpec(n.named) == n.named[i].name {
      FirstTypeSpecIs(n.named, i);
    }
  }

  ghost predicate FirstSpec(nodes: seq<Node>, i: int) {
    0 <= i < |nodes| && nodes[i].kind == "type_spec" && forall j | 0 <= j < i :: nodes[j].kind != "type_spec"
  }

  lemma {:induction false} NoTypeSpec(nodes: seq<Node>)
    requires forall i | 0 <= i < |nodes| :: nodes[i].kind != "type_spec"
    ensures FirstTypeSpec(nodes) == None
  {
    if nodes != [] { NoTypeSpec(nodes[1..]); }
  }

  lemma {:induction false} FirstTypeSpecIs(nodes: seq<Node>, i: nat)
    requires FirstSpec(nodes, i)
    ensures FirstTypeSpec(nodes) == nodes[i].name
  {
    if i > 0 { FirstTypeSpecIs(nodes[1..], i - 1); }
  }

  // ----- the nodes around a byte

  /** From the root, each node a named child of the one before, down to the last that contains `b`. */
  ghost predicate IsPath(root: Node, b: int, path: seq<Node>) {
    && path != [] && path[0] == root
    && (forall i | 0 < i < |path| :: path[i] in path[i - 1].named && Contains(path[i].start, path[i].end, b))
    && (forall child | child in path[|path| - 1].named :: !Contains(child.start, child.end, b))
  }

  /** Every byte has a path. */
  lemma {:induction false} PathExists(n: Node, b: int) returns (path: seq<Node>)
    ensures IsPath(n, b, path)
    decreases n
  {
    if child :| child in n.named && Contains(child.start, child.end, b) {
      var below := PathExists(child, b);
      path := [n] + below;
      assert forall i {:trigger path[i]} | 1 <= i < |path| :: path[i] == below[i - 1];
    } else {
      path := [n];
    }
  }

  /** The last declaration of the path below the root; 0 when there is none. */
  function Nearest(path: seq<Node>): (i: nat)
    ensures i == 0 || (i < |path| && IsDeclaration(path[i]))
    ensures forall j | i < j < |path| :: j == 0 || !IsDeclaration(path[j])
  {
    if |path| <= 1 then 0
    else if IsDeclaration(path[|path| - 1]) then |path| - 1
    else Nearest(path[..|path| - 1])
  }

  function NameAt(path: seq<Node>, i: nat): Option<Span>
    requires i < |path|
  {
    if i == 0 then None else NameOf(path[i], path[i - 1])
  }

  /** The label of a byte with this path: its nearest declaration, which is a method if it is one by
      its type or is a function directly inside a class; its parent is the declaration around that one,
      or the receiver of a method that has no named declaration around it. */
  function LabelOf(path: seq<Node>): Meta
    requires path != []
  {
    var i := Nearest(path);
    if i == 0 then MODULE_META
    else
      var around := Nearest(path[..i]);
      var n, enclosing := path[i], NameAt(path, around);
      Meta(NameAt(path, i),
           if n.kind in CLASS_NODES then Class
           else if n.kind in METHOD_NODES || (around > 0 && path[around].kind in CLASS_NODES) then Method
           else Function,
           if n.kind == "method_declaration" && Nameless(enclosing) then n.receiver else enclosing)
  }

  /** The context that the collection has built up when it has come down a path. */
  predicate Context(path: seq<Node>, enclosing: Option<Span>, insideClass: bool, outer: Meta)
    requires path != []
  {
    var i := Nearest(path);
    && enclosing == NameAt(path, i) && outer == LabelOf(path)
    && (insideClass <==> i > 0 && path[i].kind in CLASS_NODES)
  }

  lemma PlainStep(path: seq<Node>, child: Node, enclosing: Option<Span>, insideClass: bool, outer: Meta)
    requires path != [] && Context(path, enclosing, insideClass, outer) && !IsDeclaration(child)
    ensures Context(path + [child], enclosing, insideClass, outer) && KindOf(child, insideClass) == None
  {
    var longer := path + [child];
    assert longer[..|longer| - 1] == path;
    var i := Nearest(path);
    assert longer[..i] == path[..i];
  }

  lemma DeclarationStep(path: seq<Node>, child: Node, enclosing: Option<Span>, insideClass: bool, outer: Meta)
    requires path != [] && Context(path, enclosing, insideClass, outer) && IsDeclaration(child)
    ensures KindOf(child, insideClass).Some?
    ensures
      var kind := KindOf(child, insideClass).value;
      var meta := MetaOf(child, path[|path| - 1], kind, enclosing);
      Context(path + [child], meta.name, kind.Class?, meta)
  {
    var longer := path + [child];
    assert longer[..|path|] == path;
    assert Nearest(longer) == |path|;
  }

  /** No named child from the `k`-th on contains the byte. */
  ghost predicate NoneFrom(n: Node, k: nat, b: int) {
    forall i {:trigger n.named[i]} | k <= i < |n.named| :: !Contains(n.named[i].start, n.named[i].end, b)
  }

  /** Descending into the one child that contains the byte. */
  lemma {:induction false} InnermostIsLabel(path: seq<Node>, j: nat, k: nat, b: int,
                                            enclosing: Option<Span>, insideClass: bool, outer: Meta)
    requires 0 < j <= |path| && k <= |path[j - 1].named| && WellNested(path[j - 1])
    requires IsPath(path[0], b, path) && Context(path[..j], enclosing, insideClass, outer)
    requires NoneFrom(path[j - 1], k, b)
    ensures Innermost(path[j - 1], k, b, enclosing, insideClass, outer) == LabelOf(path)
    decreases path[j - 1], k
  {
    var n := path[j - 1];
    if k == 0 {
      if j < |path| { PathGoesOn(path, j, b); }
      assert path[..j] == path;
    } else {
      var child := n.named[k - 1];
      if Contains(child.start, child.end, b) {
        OnlyChild(path, j, k - 1, b);
        Descend(path, j, child, b, enclosing, insideClass, outer);
      } else {
        InnermostIsLabel(path, j, k - 1, b, enclosing, insideClass, outer);
      }
    }
  }

  lemma PathGoesOn(path: seq<Node>, j: nat, b: int)
    requires 0 < j < |path| && IsPath(path[0], b, path)
    ensures !NoneFrom(path[j - 1], 0, b)
  {
    assert path[j] in path[j - 1].named;
    var m :| 0 <= m < |path[j - 1].named| && path[j - 1].named[m] == path[j];
    assert Contains(path[j - 1].named[m].start, path[j - 1].named[m].end, b);
  }

  lemma OnlyChild(path: seq<Node>, j: nat, i: nat, b: int)
    requires 0 < j <= |path| && i < |path[j - 1].named| && WellNested(path[j - 1]) && IsPath(path[0], b, path)
    requires Contains(path[j - 1].named[i].start, path[j - 1].named[i].end, b)
    ensures j < |path| && path[j] == path[j - 1].named[i]
  {
    if j < |path| {
      var m :| 0 <= m < |path[j - 1].named| && path[j - 1].named[m] == path[j];
      assert m == i;
    }
  }

  lemma {:induction false} Descend(path: seq<Node>, j: nat, child: Node, b: int,
                                   enclosing: Option<Span>, insideClass: bool, outer: Meta)
    requires 0 < j < |path| && path[j] == child && child in path[j - 1].named && WellNested(path[j - 1])
    requires IsPath(path[0], b, path) && Context(path[..j], enclosing, insideClass, outer)
    ensures
      match KindOf(child, insideClass)
      case None => Innermost(child, |child.named|, b, enclosing, insideClass, outer) == LabelOf(path)
      case Some(kind) =>
        var meta := MetaOf(child, path[j - 1], kind, enclosing);
        Innermost(child, |child.named|, b, meta.name, kind.Class?, meta) == LabelOf(path)
    decreases path[j - 1], 0
  {
    Longer(path, j);
    if IsDeclaration(child) {
      DeclarationStep(path[..j], child, enclosing, insideClass, outer);
      var kind := KindOf(child, insideClass).value;
      var meta := MetaOf(child, path[j - 1], kind, enclosing);
      InnermostIsLabel(path, j + 1, |child.named|, b, meta.name, kind.Class?, meta);
    } else {
      PlainStep(path[..j], child, enclosing, insideClass, outer);
      InnermostIsLabel(path, j + 1, |child.named|, b, enclosing, insideClass, outer);
    }
  }

  lemma Longer(path: seq<Node>, j: nat)
    requires 0 < j < |path|
    ensures path[..j + 1] == path[..j] + [path[j]] && path[..j][j - 1] == path[j - 1]
  {}

  /** Every chunk of a file carries the label of the nodes around each of its bytes. */
  lemma ChunkLabelOfPath(content: Text, root: Node, limit: nat, k: nat, b: int, path: seq<Node>)
    requires SourceTree(content, root) && limit > 0 && k < |PiecesOfTree(content, root, limit)|
    requires
      var piece := PiecesOfTree(content, root, limit)[k];
      Contains(piece.start, piece.end, b)
    requires IsPath(root, b, path)
    ensures ChunksOf(content, PiecesOfTree(content, root, limit))[k].meta == LabelOf(path)
  {
    ChunkLabels(content, root, limit, k, b);
    assert path[..1] == [root];
    InnermostIsLabel(path, 1, |root.named|, b, None, false, MODULE_META);
  }
}
