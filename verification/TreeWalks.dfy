/**
 Walks over parsed source: symbol extraction and chunking use an explicit stack where recursion would
 overflow, and large chunks are cut into pieces of whole lines.
 */
module TreeWalks {
  import opened Results

  datatype SymbolKind =
    Function | Struct | Enum | Trait | Impl | Mod | Const | Static | Type | Macro

  datatype NodeKind =
    Item(symbol: SymbolKind) | Identifier | TypeIdentifier | GenericType | Visibility | Other(name: string)

  datatype Tree = Node(kind: NodeKind, text: string, startRow: nat, endRow: nat, children: seq<Tree>)

  datatype Symbol = Symbol(
    name: string, kind: SymbolKind, startRow: nat, endRow: nat,
    parent: Option<string>, fullPath: string, visibility: Option<string>)

  // ----- what one node contributes -----

  predicate Names(kind: NodeKind) {
    kind.Identifier? || kind.TypeIdentifier? || kind.GenericType?
  }

  /** The text of the first child of a wanted kind. */
  function FirstText(children: seq<Tree>, wanted: NodeKind -> bool): Option<string> {
    if children == [] then None
    else if wanted(children[0].kind) then Some(children[0].text)
    else FirstText(children[1..], wanted)
  }

  function OwnSymbol(t: Tree, parent: Option<string>): Option<Symbol> {
    var name := FirstText(t.children, Names);
    if t.kind.Item? && name.Some? then
      Some(Symbol(name.value, t.kind.symbol, t.startRow, t.endRow, parent,
                  if parent.Some? then parent.value + "::" + name.value else name.value,
                  FirstText(t.children, (k: NodeKind) => k.Visibility?)))
    else None
  }

  /** What stands inside an impl or mod block gets that block as its parent; any other node hands its own parent
      down. */
  function ParentOfChildren(t: Tree, parent: Option<string>): Option<string> {
    var own := OwnSymbol(t, parent);
    if own.Some? && (own.value.kind.Impl? || own.value.kind.Mod?) then Some(own.value.fullPath) else parent
  }

  // ----- the recursive walks -----

  function Symbols(t: Tree, parent: Option<string>): seq<Symbol>
    decreases t, 1
  {
    var own := OwnSymbol(t, parent);
    (if own.Some? then [own.value] else []) + SymbolsOfAll(t.children, ParentOfChildren(t, parent))
  }

  function SymbolsOfAll(ts: seq<Tree>, parent: Option<string>): seq<Symbol>
    decreases ts, 0
  {
    if ts == [] then [] else Symbols(ts[0], parent) + SymbolsOfAll(ts[1..], parent)
  }

  /** The outermost nodes of a chunk kind, in source order. */
  function ChunkNodes(t: Tree, isChunk: NodeKind -> bool): seq<Tree>
    decreases t, 1
  {
    if isChunk(t.kind) then [t] else ChunkNodesOfAll(t.children, isChunk)
  }

  function ChunkNodesOfAll(ts: seq<Tree>, isChunk: NodeKind -> bool): seq<Tree>
    decreases ts, 0
  {
    if ts == [] then [] else ChunkNodes(ts[0], isChunk) + ChunkNodesOfAll(ts[1..], isChunk)
  }

  function Size(t: Tree): nat
    decreases t, 1
  {
    1 + SizeOfAll(t.children)
  }

  function SizeOfAll(ts: seq<Tree>): nat
    decreases ts, 0
  {
    if ts == [] then 0 else Size(ts[0]) + SizeOfAll(ts[1..])
  }

  function Reversed<T>(s: seq<T>): (r: seq<T>)
    ensures |r| == |s|
  {
    if s == [] then [] else Reversed(s[1..]) + [s[0]]
  }

  // ----- symbol extraction -----

  type Frame = (Tree, Option<string>)

  /** What a stack still owes, top first. */
  function SymbolsOfStack(stack: seq<Frame>): seq<Symbol> {
    if stack == [] then []
    else
      var top := stack[|stack| - 1];
      Symbols(top.0, top.1) + SymbolsOfStack(stack[..|stack| - 1])
  }

  function SizeOfStack(stack: seq<Frame>): nat {
    if stack == [] then 0 else Size(stack[|stack| - 1].0) + SizeOfStack(stack[..|stack| - 1])
  }

  function Frames(ts: seq<Tree>, parent: Option<string>): (fs: seq<Frame>)
    ensures |fs| == |ts|
  {
    if ts == [] then [] else [(ts[0], parent)] + Frames(ts[1..], parent)
  }

  /** Children pushed in reverse are owed in source order. */
  lemma {:induction false} PushedChildren(stack: seq<Frame>, ts: seq<Tree>, parent: Option<string>)
    ensures SymbolsOfStack(stack + Reversed(Frames(ts, parent))) == SymbolsOfAll(ts, parent) + SymbolsOfStack(stack)
    ensures SizeOfStack(stack + Reversed(Frames(ts, parent))) == SizeOfAll(ts) + SizeOfStack(stack)
  {
    var pushed := Reversed(Frames(ts, parent));
    if ts == [] {
      assert stack + pushed == stack;
    } else {
      var rest := Reversed(Frames(ts[1..], parent));
      assert Frames(ts, parent)[1..] == Frames(ts[1..], parent);
      assert pushed == rest + [(ts[0], parent)];
      var whole := stack + pushed;
      assert whole[..|whole| - 1] == stack + rest;
      PushedChildren(stack, ts[1..], parent);
      ConcatAssoc(Symbols(ts[0], parent), SymbolsOfAll(ts[1..], parent), SymbolsOfStack(stack));
    }
  }

  /** The explicit-stack extraction yields the recursive traversal's symbols, in source order, with the same
      parents. */
  method ExtractSymbols(root: Tree) returns (symbols: seq<Symbol>)
    ensures symbols == Symbols(root, None)
  {
    symbols := [];
    var pending: seq<Frame> := [(root, None)];
    assert pending[..0] == [];
    while pending != []
      invariant symbols + SymbolsOfStack(pending) == Symbols(root, None)
      decreases SizeOfStack(pending)
    {
      var (node, parent) := pending[|pending| - 1];
      ghost var done := symbols;
      pending := pending[..|pending| - 1];
      var own := OwnSymbol(node, parent);
      if own.Some? {
        symbols := symbols + [own.value];
      }
      ghost var rest := pending;
      pending := PushChildren(pending, node.children, ParentOfChildren(node, parent));
      PushedChildren(rest, node.children, ParentOfChildren(node, parent));
      Popped(done, if own.Some? then [own.value] else [],
             SymbolsOfAll(node.children, ParentOfChildren(node, parent)), SymbolsOfStack(rest));
      assert own.None? ==> done + [] == done;
    }
  }

  lemma Popped<T>(done: seq<T>, own: seq<T>, children: seq<T>, rest: seq<T>)
    ensures done + ((own + children) + rest) == (done + own) + (children + rest)
  {
  }

  /** Pushes the children in order, then reverses the pushed part in place. */
  method PushChildren(stack: seq<Frame>, children: seq<Tree>, parent: Option<string>) returns (pushed: seq<Frame>)
    ensures pushed == stack + Reversed(Frames(children, parent))
  {
    var first := |stack|;
    pushed := stack;
    for i := 0 to |children|
      invariant pushed == stack + Frames(children[..i], parent)
    {
      FramesSnoc(children[..i], children[i], parent);
      assert children[..i + 1] == children[..i] + [children[i]];
      pushed := pushed + [(children[i], parent)];
    }
    assert children[..|children|] == children;
    assert pushed[first..] == Frames(children, parent) && pushed[..first] == stack;
    pushed := pushed[..first] + Reversed(pushed[first..]);
  }

  lemma {:induction false} FramesSnoc(ts: seq<Tree>, t: Tree, parent: Option<string>)
    ensures Frames(ts + [t], parent) == Frames(ts, parent) + [(t, parent)]
  {
    if ts != [] {
      assert (ts + [t])[1..] == ts[1..] + [t];
      FramesSnoc(ts[1..], t, parent);
    }
  }

  // ----- chunking -----

  function ChunksOfStack(stack: seq<Tree>, isChunk: NodeKind -> bool): seq<Tree> {
    if stack == [] then []
    else ChunkNodes(stack[|stack| - 1], isChunk) + ChunksOfStack(stack[..|stack| - 1], isChunk)
  }

  function SizeOfTrees(stack: seq<Tree>): nat {
    if stack == [] then 0 else Size(stack[|stack| - 1]) + SizeOfTrees(stack[..|stack| - 1])
  }

  lemma {:induction false} PushedTrees(stack: seq<Tree>, ts: seq<Tree>, isChunk: NodeKind -> bool)
    ensures ChunksOfStack(stack + Reversed(ts), isChunk) == ChunkNodesOfAll(ts, isChunk) + ChunksOfStack(stack, isChunk)
    ensures SizeOfTrees(stack + Reversed(ts)) == SizeOfAll(ts) + SizeOfTrees(stack)
  {
    if ts == [] {
      assert stack + Reversed(ts) == stack;
    } else {
      var rest := Reversed(ts[1..]);
      var whole := stack + Reversed(ts);
      assert whole[..|whole| - 1] == stack + rest;
      PushedTrees(stack, ts[1..], isChunk);
      ConcatAssoc(ChunkNodes(ts[0], isChunk), ChunkNodesOfAll(ts[1..], isChunk), ChunksOfStack(stack, isChunk));
    }
  }

  /** The explicit-stack visit yields exactly the outermost chunk nodes, in source order. */
  method VisitNodes(root: Tree, isChunk: NodeKind -> bool) returns (chunks: seq<Tree>)
    ensures chunks == ChunkNodes(root, isChunk)
  {
    chunks := [];
    var pending := [root];
    assert pending[..0] == [];
    while pending != []
      invariant chunks + ChunksOfStack(pending, isChunk) == ChunkNodes(root, isChunk)
      decreases SizeOfTrees(pending)
    {
      var node := pending[|pending| - 1];
      pending := pending[..|pending| - 1];
      if isChunk(node.kind) {
        ConcatAssoc(chunks, [node], ChunksOfStack(pending, isChunk));
        chunks := chunks + [node];
      } else {
        PushedTrees(pending, node.children, isChunk);
        pending := pending + Reversed(node.children);
      }
    }
  }

  /** `path` leads from `t` to `n` through nodes that are no chunks, and `n` is one. */
  predicate OutermostAt(t: Tree, isChunk: NodeKind -> bool, path: seq<nat>, n: Tree)
    decreases |path|
  {
    if path == [] then t == n && isChunk(t.kind)
    else !isChunk(t.kind) && path[0] < |t.children| && OutermostAt(t.children[path[0]], isChunk, path[1..], n)
  }

  ghost predicate Outermost(t: Tree, isChunk: NodeKind -> bool, n: Tree) {
    exists path :: OutermostAt(t, isChunk, path, n)
  }

  lemma {:induction false} AmongAll(ts: seq<Tree>, isChunk: NodeKind -> bool, n: Tree)
    ensures n in ChunkNodesOfAll(ts, isChunk) <==> exists i | 0 <= i < |ts| :: n in ChunkNodes(ts[i], isChunk)
  {
    if ts != [] {
      AmongAll(ts[1..], isChunk, n);
      if n in ChunkNodesOfAll(ts[1..], isChunk) {
        var i :| 0 <= i < |ts[1..]| && n in ChunkNodes(ts[1..][i], isChunk);
        assert ts[i + 1] == ts[1..][i];
      }
      if i :| 0 < i < |ts| && n in ChunkNodes(ts[i], isChunk) {
        assert ts[1..][i - 1] == ts[i];
      }
    }
  }

  lemma {:induction false} ChunkIsOutermost(t: Tree, isChunk: NodeKind -> bool, n: Tree) returns (path: seq<nat>)
    requires n in ChunkNodes(t, isChunk)
    ensures OutermostAt(t, isChunk, path, n)
    decreases t
  {
    if isChunk(t.kind) {
      path := [];
    } else {
      AmongAll(t.children, isChunk, n);
      var i: nat :| i < |t.children| && n in ChunkNodes(t.children[i], isChunk);
      var below := ChunkIsOutermost(t.children[i], isChunk, n);
      path := [i] + below;
      assert path[1..] == below;
    }
  }

  lemma {:induction false} OutermostIsChunk(t: Tree, isChunk: NodeKind -> bool, path: seq<nat>, n: Tree)
    requires OutermostAt(t, isChunk, path, n)
    ensures n in ChunkNodes(t, isChunk)
    decreases |path|
  {
    if path != [] {
      OutermostIsChunk(t.children[path[0]], isChunk, path[1..], n);
      AmongAll(t.children, isChunk, n);
    }
  }

  /** A node is chunked exactly when it is a chunk node with no chunk node above it. */
  lemma ChunkedIffOutermost(t: Tree, isChunk: NodeKind -> bool, n: Tree)
    ensures n in ChunkNodes(t, isChunk) <==> Outermost(t, isChunk, n)
  {
    if n in ChunkNodes(t, isChunk) {
      var _ := ChunkIsOutermost(t, isChunk, n);
    } else if path :| OutermostAt(t, isChunk, path, n) {
      OutermostIsChunk(t, isChunk, path, n);
    }
  }

  // ----- cutting a chunk into pieces -----

  datatype Doc = Doc(lines: seq<string>, rangeStart: nat, rangeEnd: nat)

  /** Lines joined with newlines are empty exactly for no line or one empty line. */
  predicate JoinsToNothing(lines: seq<string>) {
    lines == [] || lines == [""]
  }

  /** Cuts from `start` on: pieces of `maxLines`, stopping at the first that joins to nothing. */
  function Pieces(doc: Doc, maxLines: nat, start: nat): seq<Doc>
    requires start <= |doc.lines|
    decreases |doc.lines| - start
  {
    var end := if start + maxLines < |doc.lines| then start + maxLines else |doc.lines|;
    if start == |doc.lines| || JoinsToNothing(doc.lines[start..end]) then []
    else
      [Doc(doc.lines[start..end], doc.rangeStart + start, doc.rangeStart + end - 1)] + Pieces(doc, maxLines, end)
  }

  method SplitAndPush(doc: Doc, bytes: nat, out: seq<Doc>, maxLines: nat, maxBytes: nat) returns (pushed: seq<Doc>)
    ensures pushed == out + if bytes <= maxBytes && |doc.lines| <= maxLines then [doc] else Pieces(doc, maxLines, 0)
  {
    if bytes <= maxBytes && |doc.lines| <= maxLines {
      return out + [doc];
    }
    pushed := out;
    var start := 0;
    while start < |doc.lines|
      invariant 0 <= start <= |doc.lines|
      invariant pushed + Pieces(doc, maxLines, start) == out + Pieces(doc, maxLines, 0)
      decreases |doc.lines| - start
    {
      var end := if start + maxLines < |doc.lines| then start + maxLines else |doc.lines|;
      if JoinsToNothing(doc.lines[start..end]) {
        break;
      }
      var piece := Doc(doc.lines[start..end], doc.rangeStart + start, doc.rangeStart + end - 1);
      ConcatAssoc(pushed, [piece], Pieces(doc, maxLines, end));
      pushed := pushed + [piece];
      start := end;
    }
    assert Pieces(doc, maxLines, start) == [];
    assert pushed + [] == pushed;
  }

  function LinesOf(pieces: seq<Doc>): seq<string> {
    if pieces == [] then [] else pieces[0].lines + LinesOf(pieces[1..])
  }

  /** The pieces follow each other: each has at most `maxLines` lines and ends where its rows say. */
  predicate Tiled(pieces: seq<Doc>, from: nat, maxLines: nat)
  {
    pieces == [] ||
    (var p := pieces[0];
     && 0 < |p.lines| <= maxLines
     && p.rangeStart == from && p.rangeEnd == from + |p.lines| - 1
     && Tiled(pieces[1..], p.rangeEnd + 1, maxLines))
  }

  /** Pieces tile a prefix of the lines, and with two or more lines per piece they lose at most one empty line at
      the very end. */
  lemma {:induction false} PiecesTile(doc: Doc, maxLines: nat, start: nat)
    requires start <= |doc.lines|
    ensures var pieces := Pieces(doc, maxLines, start);
            && Tiled(pieces, doc.rangeStart + start, maxLines)
            && LinesOf(pieces) <= doc.lines[start..]
            && (maxLines >= 2 && LinesOf(pieces) != doc.lines[start..] ==>
                doc.lines[start..] == LinesOf(pieces) + [""])
    decreases |doc.lines| - start
  {
    var end := if start + maxLines < |doc.lines| then start + maxLines else |doc.lines|;
    var head, tail := doc.lines[start..end], doc.lines[end..];
    assert doc.lines[start..] == head + tail;
    if start < |doc.lines| && !JoinsToNothing(head) {
      PiecesTile(doc, maxLines, end);
      var rest := LinesOf(Pieces(doc, maxLines, end));
      assert LinesOf(Pieces(doc, maxLines, start)) == head + rest;
      ConcatAssoc(head, rest, [""]);
    }
  }
}
