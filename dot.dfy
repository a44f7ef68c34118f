/** `nodesEdgesToDot` and the `.gv` file name of the builder's "Save to DOT"
    button: the canvas graph as Graphviz DOT text. */
module Dot {
  import opened Wrappers
  import opened Text
  import opened Graph

  const OpenLine: string := "digraph pipeline {"

  const CloseLine: string := "}"

  /** `node.data?.label || node.id`: the label, or the id when it is empty. */
  function DotLabel(n: Node): string {
    if n.labelText != "" then n.labelText else n.id
  }

  function NodeLine(n: Node): string {
    "  \"" + n.id + "\" [label=\"" + DotLabel(n) + "\"]"
  }

  function EdgeLine(e: Edge): string {
    "  \"" + e.source + "\" -> \"" + e.target + "\""
  }

  function NodeStatement(n: Node): string { NodeLine(n) + "\n" }

  function EdgeStatement(e: Edge): string { EdgeLine(e) + "\n" }

  /** The text of lines 167-175: the opening line, a statement per node,
      a statement per edge, and the closing brace. */
  function DotText(nodes: seq<Node>, edges: seq<Edge>): string {
    OpenLine + "\n" + ConcatMap(nodes, NodeStatement) + ConcatMap(edges, EdgeStatement) + CloseLine + "\n"
  }

  /** The two `forEach` loops that append the node and edge statements. */
  method NodesEdgesToDot(nodes: seq<Node>, edges: seq<Edge>) returns (dot: string)
    ensures dot == DotText(nodes, edges)
  {
    dot := OpenLine + "\n";
    for i := 0 to |nodes|
      invariant dot == OpenLine + "\n" + ConcatMap(nodes[..i], NodeStatement)
    {
      dot := dot + NodeStatement(nodes[i]);
      PrefixedSnoc(OpenLine + "\n", nodes, i, NodeStatement);
    }
    assert nodes[..|nodes|] == nodes;
    ghost var head := dot;
    for i := 0 to |edges|
      invariant dot == head + ConcatMap(edges[..i], EdgeStatement)
    {
      dot := dot + EdgeStatement(edges[i]);
      PrefixedSnoc(head, edges, i, EdgeStatement);
    }
    assert edges[..|edges|] == edges;
    dot := dot + CloseLine + "\n";
  }

  /** The text starts with the opening line and ends with the closing brace,
      each followed by a line break. */
  lemma {:induction false} DotFraming(nodes: seq<Node>, edges: seq<Edge>)
    ensures OpenLine + "\n" <= DotText(nodes, edges)
    ensures var t := DotText(nodes, edges); |t| >= 2 && t[|t| - 2..] == CloseLine + "\n"
  {
    var a, b := ConcatMap(nodes, NodeStatement), ConcatMap(edges, EdgeStatement);
    Framed(OpenLine + "\n", a, b, CloseLine, "\n");
    assert |CloseLine| == 1;
  }

  lemma {:induction false} Framed(x: string, a: string, b: string, c: string, d: string)
    ensures x <= x + a + b + c + d
    ensures (x + a + b + c + d)[|x + a + b|..] == c + d
  {
    assert (x + a + b + c + d)[..|x|] == x;
  }

  // ---------------------------------------------------------------------
  // The text, line by line
  // ---------------------------------------------------------------------

  /** The graph fields that are printed inside a line hold no line break. */
  predicate SingleLineGraph(nodes: seq<Node>, edges: seq<Edge>) {
    && (forall i :: 0 <= i < |nodes| ==> '\n' !in nodes[i].id && '\n' !in nodes[i].labelText)
    && (forall i :: 0 <= i < |edges| ==> '\n' !in edges[i].source && '\n' !in edges[i].target)
  }

  lemma {:induction false} FixedLinesSingle()
    ensures '\n' !in OpenLine && '\n' !in CloseLine
  {
  }

  lemma {:induction false} DotUnlines(nodes: seq<Node>, edges: seq<Edge>)
    ensures DotText(nodes, edges) == Unlines([OpenLine] + MapSeq(nodes, NodeLine) + MapSeq(edges, EdgeLine) + [CloseLine])
  {
    ConcatMapLines(nodes, NodeStatement, NodeLine);
    ConcatMapLines(edges, EdgeStatement, EdgeLine);
    UnlinesFramed(OpenLine, MapSeq(nodes, NodeLine), MapSeq(edges, EdgeLine), CloseLine);
  }

  lemma {:induction false} UnlinesFramed(o: string, ns: seq<string>, es: seq<string>, c: string)
    ensures Unlines([o] + ns + es + [c]) == o + "\n" + Unlines(ns) + Unlines(es) + c + "\n"
  {
    UnlinesCons(o, []);
    UnlinesCons(c, []);
    UnlinesAppend([o] + ns + es, [c]);
    UnlinesAppend([o] + ns, es);
    UnlinesAppend([o], ns);
  }

  /** The quoting literals of the statements hold no line break. A fact
      about a string literal is checked character by character, so these are
      stated once here and the statement lemmas reason about abstract parts. */
  lemma {:induction false} QuoteLiterals()
    ensures '\n' !in "  \"" && '\n' !in "\" [label=\"" && '\n' !in "\"]"
    ensures '\n' !in "\" -> \"" && '\n' !in "\""
  {
  }

  lemma {:induction false} StatementLinesSingle(n: Node, e: Edge)
    requires '\n' !in n.id && '\n' !in n.labelText
    requires '\n' !in e.source && '\n' !in e.target
    ensures '\n' !in NodeLine(n) && '\n' !in EdgeLine(e)
  {
    QuoteLiterals();
    assert '\n' !in DotLabel(n);
    NoBreakJoined("  \"", n.id, "\" [label=\"", DotLabel(n), "\"]");
    NoBreakJoined("  \"", e.source, "\" -> \"", e.target, "\"");
  }

  /** Split at line breaks, the text is the opening line, one line per node
      in node order, one line per edge in edge order, and the closing brace.
      Edges are written whether or not their ends are nodes. */
  lemma {:induction false} DotLines(nodes: seq<Node>, edges: seq<Edge>)
    requires SingleLineGraph(nodes, edges)
    ensures Split(DotText(nodes, edges), '\n')
         == [OpenLine] + MapSeq(nodes, NodeLine) + MapSeq(edges, EdgeLine) + [CloseLine, ""]
  {
    var ns, es := MapSeq(nodes, NodeLine), MapSeq(edges, EdgeLine);
    DotUnlines(nodes, edges);
    FixedLinesSingle();
    var n0 := Node("", OtherKind, "", None, None, None, None, None);
    var e0 := Edge("", "", "");
    forall k | 0 <= k < |nodes| ensures '\n' !in ns[k] {
      StatementLinesSingle(nodes[k], e0);
    }
    forall k | 0 <= k < |edges| ensures '\n' !in es[k] {
      StatementLinesSingle(n0, edges[k]);
    }
    SingleLinesAppend([OpenLine], ns);
    SingleLinesAppend([OpenLine] + ns, es);
    SingleLinesAppend([OpenLine] + ns + es, [CloseLine]);
    SplitUnlines([OpenLine] + ns + es + [CloseLine]);
    assert [OpenLine] + ns + es + [CloseLine] + [""] == [OpenLine] + ns + es + [CloseLine, ""];
  }

  lemma {:induction false} DotEnds(ls: seq<string>, o: string, ns: seq<string>, es: seq<string>, c: string)
    requires ls == [o] + ns + es + [c, ""]
    ensures |ls| == |ns| + |es| + 3
    ensures ls[0] == o && ls[|ls| - 2] == c && ls[|ls| - 1] == ""
  {
  }

  /** Where every statement sits: node k on line 1 + k, edge k on the line
      1 + k after the last node, so every edge line follows every node line. */
  lemma {:induction false} DotLayout(nodes: seq<Node>, edges: seq<Edge>)
    requires SingleLineGraph(nodes, edges)
    ensures var ls := Split(DotText(nodes, edges), '\n');
      && |ls| == |nodes| + |edges| + 3
      && ls[0] == OpenLine && ls[|ls| - 2] == CloseLine && ls[|ls| - 1] == ""
      && (forall k :: 0 <= k < |nodes| ==> ls[1 + k] == NodeLine(nodes[k]))
      && (forall k :: 0 <= k < |edges| ==> ls[1 + |nodes| + k] == EdgeLine(edges[k]))
  {
    DotLines(nodes, edges);
    LinesPlaced(Split(DotText(nodes, edges), '\n'), OpenLine, nodes, NodeLine, edges, EdgeLine, CloseLine);
  }

  /** The line layout over any two statement printers. */
  lemma {:induction false} LinesPlaced<A, B>(ls: seq<string>, o: string, xs: seq<A>, f: A -> string,
                                             ys: seq<B>, g: B -> string, c: string)
    requires ls == [o] + MapSeq(xs, f) + MapSeq(ys, g) + [c, ""]
    ensures && |ls| == |xs| + |ys| + 3
      && ls[0] == o && ls[|ls| - 2] == c && ls[|ls| - 1] == ""
      && (forall k :: 0 <= k < |xs| ==> ls[1 + k] == f(xs[k]))
      && (forall k :: 0 <= k < |ys| ==> ls[1 + |xs| + k] == g(ys[k]))
  {
    var ns, es := MapSeq(xs, f), MapSeq(ys, g);
    DotEnds(ls, o, ns, es, c);
    FrontPlaced(ls, o, xs, f, es, c);
    BackPlaced(ls, o, ns, ys, g, c);
  }

  /** The images of `xs` sit right after the first line. */
  lemma {:induction false} FrontPlaced<T>(ls: seq<string>, o: string, xs: seq<T>, g: T -> string,
                                          es: seq<string>, c: string)
    requires ls == [o] + MapSeq(xs, g) + es + [c, ""]
    ensures forall k :: 0 <= k < |xs| ==> ls[1 + k] == g(xs[k])
  {
    var ms := MapSeq(xs, g);
    forall k | 0 <= k < |xs| ensures ls[1 + k] == g(xs[k]) {
      assert ls[1 + k] == ms[k];
    }
  }

  /** The images of `ys` sit right after the first line and the lines `ns`. */
  lemma {:induction false} BackPlaced<T>(ls: seq<string>, o: string, ns: seq<string>, ys: seq<T>,
                                         g: T -> string, c: string)
    requires ls == [o] + ns + MapSeq(ys, g) + [c, ""]
    ensures forall k :: 0 <= k < |ys| ==> ls[1 + |ns| + k] == g(ys[k])
  {
    var ms := MapSeq(ys, g);
    forall k | 0 <= k < |ys| ensures ls[1 + |ns| + k] == g(ys[k]) {
      assert ls[1 + |ns| + k] == ms[k];
    }
  }

  // ---------------------------------------------------------------------
  // Reading the text back
  // ---------------------------------------------------------------------

  /** What a DOT text says: (id, label) per node statement and
      (source, target) per edge statement, in order. */
  datatype DotGraph = DotGraph(nodes: seq<(string, string)>, edges: seq<(string, string)>)

  /** `  "<id>" [label="<label>"]` read back. */
  function ParseNodeLine(l: string): Option<(string, string)> {
    var p := Split(l, '"');
    if |p| == 5 && p[0] == "  " && p[2] == " [label=" && p[4] == "]" then Some((p[1], p[3])) else None
  }

  /** `  "<source>" -> "<target>"` read back. */
  function ParseEdgeLine(l: string): Option<(string, string)> {
    var p := Split(l, '"');
    if |p| == 5 && p[0] == "  " && p[2] == " -> " && p[4] == "" then Some((p[1], p[3])) else None
  }

  function ParseEdgeLines(ls: seq<string>): Option<seq<(string, string)>> {
    if ls == [] then Some([])
    else match (ParseEdgeLine(ls[0]), ParseEdgeLines(ls[1..]))
      case (Some(e), Some(rest)) => Some([e] + rest)
      case _ => None
  }

  /** Node statements, then edge statements. */
  function ParseStatements(ls: seq<string>): Option<DotGraph> {
    if ls != [] && ParseNodeLine(ls[0]).Some? then
      match ParseStatements(ls[1..])
      case Some(g) => Some(DotGraph([ParseNodeLine(ls[0]).value] + g.nodes, g.edges))
      case None => None
    else match ParseEdgeLines(ls)
      case Some(es) => Some(DotGraph([], es))
      case None => None
  }

  /** Reads a DOT text of the shape the builder writes. */
  function ParseDot(text: string): Option<DotGraph> {
    var ls := Split(text, '\n');
    if |ls| >= 3 && ls[0] == OpenLine && ls[|ls| - 2] == CloseLine && ls[|ls| - 1] == ""
    then ParseStatements(ls[1..|ls| - 2])
    else None
  }

  function NodePairs(nodes: seq<Node>): (r: seq<(string, string)>)
    ensures |r| == |nodes|
    ensures forall i :: 0 <= i < |nodes| ==> r[i] == (nodes[i].id, DotLabel(nodes[i]))
  {
    if nodes == [] then [] else [(nodes[0].id, DotLabel(nodes[0]))] + NodePairs(nodes[1..])
  }

  function EdgePairs(edges: seq<Edge>): (r: seq<(string, string)>)
    ensures |r| == |edges|
    ensures forall i :: 0 <= i < |edges| ==> r[i] == (edges[i].source, edges[i].target)
  {
    if edges == [] then [] else [(edges[0].source, edges[0].target)] + EdgePairs(edges[1..])
  }

  /** `a"b"c"d"e` split at the quotes. */
  lemma {:induction false} SplitFive(a: string, b: string, c: string, d: string, e: string)
    requires '"' !in a && '"' !in b && '"' !in c && '"' !in d && '"' !in e
    ensures Split(a + "\"" + b + "\"" + c + "\"" + d + "\"" + e, '"') == [a, b, c, d, e]
  {
    var t4 := d + "\"" + e;
    var t3 := c + "\"" + t4;
    var t2 := b + "\"" + t3;
    var t1 := a + "\"" + t2;
    SplitPlain(e, '"');
    SplitAfterPart(d, '"', e);
    SplitAfterPart(c, '"', t4);
    SplitAfterPart(b, '"', t3);
    SplitAfterPart(a, '"', t2);
    RegroupFive(a, b, c, d, e, "\"");
  }

  /** The graph fields that are printed between quotes hold no quote. */
  predicate QuoteFreeNode(n: Node) { '"' !in n.id && '"' !in n.labelText }

  predicate QuoteFreeEdge(e: Edge) { '"' !in e.source && '"' !in e.target }

  lemma {:induction false} NodeLineRead(n: Node)
    requires QuoteFreeNode(n)
    ensures ParseNodeLine(NodeLine(n)) == Some((n.id, DotLabel(n)))
    ensures ParseEdgeLine(NodeLine(n)) == None
  {
    SplitFive("  ", n.id, " [label=", DotLabel(n), "]");
    assert NodeLine(n) == "  " + "\"" + n.id + "\"" + " [label=" + "\"" + DotLabel(n) + "\"" + "]";
  }

  lemma {:induction false} EdgeLineRead(e: Edge)
    requires QuoteFreeEdge(e)
    ensures ParseEdgeLine(EdgeLine(e)) == Some((e.source, e.target))
    ensures ParseNodeLine(EdgeLine(e)) == None
  {
    SplitFive("  ", e.source, " -> ", e.target, "");
    assert EdgeLine(e) == "  " + "\"" + e.source + "\"" + " -> " + "\"" + e.target + "\"" + "";
  }

  lemma {:induction false} EdgeLinesRead(edges: seq<Edge>)
    requires forall i :: 0 <= i < |edges| ==> QuoteFreeEdge(edges[i])
    ensures ParseEdgeLines(MapSeq(edges, EdgeLine)) == Some(EdgePairs(edges))
  {
    if edges != [] {
      var ls := MapSeq(edges, EdgeLine);
      assert ls[1..] == MapSeq(edges[1..], EdgeLine);
      EdgeLinesRead(edges[1..]);
      EdgeLineRead(edges[0]);
    }
  }

  lemma {:induction false} StatementsNodeFirst(l: string, rest: seq<string>)
    requires ParseNodeLine(l).Some?
    ensures ParseStatements([l] + rest) ==
      match ParseStatements(rest)
      case Some(g) => Some(DotGraph([ParseNodeLine(l).value] + g.nodes, g.edges))
      case None => None
  {
    assert ([l] + rest)[0] == l;
    assert ([l] + rest)[1..] == rest;
  }

  lemma {:induction false} StatementsEdgesOnly(ls: seq<string>)
    requires ls == [] || ParseNodeLine(ls[0]).None?
    ensures ParseStatements(ls) ==
      match ParseEdgeLines(ls)
      case Some(es) => Some(DotGraph([], es))
      case None => None
  {
  }

  lemma {:induction false} StatementsRead(nodes: seq<Node>, edges: seq<Edge>)
    requires forall i :: 0 <= i < |nodes| ==> QuoteFreeNode(nodes[i])
    requires forall i :: 0 <= i < |edges| ==> QuoteFreeEdge(edges[i])
    ensures ParseStatements(MapSeq(nodes, NodeLine) + MapSeq(edges, EdgeLine))
         == Some(DotGraph(NodePairs(nodes), EdgePairs(edges)))
  {
    if nodes != [] {
      StatementsRead(nodes[1..], edges);
      StatementsStep(nodes, edges);
    } else {
      StatementsOfEdges(edges);
      assert MapSeq(nodes, NodeLine) + MapSeq(edges, EdgeLine) == MapSeq(edges, EdgeLine);
    }
  }

  lemma {:induction false} StatementsStep(nodes: seq<Node>, edges: seq<Edge>)
    requires nodes != [] && QuoteFreeNode(nodes[0])
    requires ParseStatements(MapSeq(nodes[1..], NodeLine) + MapSeq(edges, EdgeLine))
          == Some(DotGraph(NodePairs(nodes[1..]), EdgePairs(edges)))
    ensures ParseStatements(MapSeq(nodes, NodeLine) + MapSeq(edges, EdgeLine))
         == Some(DotGraph(NodePairs(nodes), EdgePairs(edges)))
  {
    var es := MapSeq(edges, EdgeLine);
    var rest := MapSeq(nodes[1..], NodeLine) + es;
    NodeLineRead(nodes[0]);
    MapSeqFront(nodes, NodeLine, es);
    StatementsNodeFirst(NodeLine(nodes[0]), rest);
    assert NodePairs(nodes) == [(nodes[0].id, DotLabel(nodes[0]))] + NodePairs(nodes[1..]);
  }

  lemma {:induction false} StatementsOfEdges(edges: seq<Edge>)
    requires forall i :: 0 <= i < |edges| ==> QuoteFreeEdge(edges[i])
    ensures ParseStatements(MapSeq(edges, EdgeLine)) == Some(DotGraph([], EdgePairs(edges)))
  {
    var es := MapSeq(edges, EdgeLine);
    if edges != [] {
      EdgeLineRead(edges[0]);
    }
    StatementsEdgesOnly(es);
    EdgeLinesRead(edges);
  }

  /** Reading the DOT text back gives every node's id and printed label in
      node order and every edge's ends in edge order. */
  lemma {:induction false} DotRoundTrip(nodes: seq<Node>, edges: seq<Edge>)
    requires SingleLineGraph(nodes, edges)
    requires forall i :: 0 <= i < |nodes| ==> QuoteFreeNode(nodes[i])
    requires forall i :: 0 <= i < |edges| ==> QuoteFreeEdge(edges[i])
    ensures ParseDot(DotText(nodes, edges)) == Some(DotGraph(NodePairs(nodes), EdgePairs(edges)))
  {
    DotLines(nodes, edges);
    ParseDotFramed(DotText(nodes, edges), MapSeq(nodes, NodeLine), MapSeq(edges, EdgeLine));
    StatementsRead(nodes, edges);
  }

  lemma {:induction false} ParseDotFramed(text: string, ns: seq<string>, es: seq<string>)
    requires Split(text, '\n') == [OpenLine] + ns + es + [CloseLine, ""]
    ensures ParseDot(text) == ParseStatements(ns + es)
  {
    var ls := [OpenLine] + ns + es + [CloseLine, ""];
    assert ls[1..|ls| - 2] == ns + es;
  }

  // ---------------------------------------------------------------------
  // The file name
  // ---------------------------------------------------------------------

  /** A character `[a-zA-Z0-9-_]` accepts. */
  predicate SafeChar(c: char) {
    'a' <= c <= 'z' || 'A' <= c <= 'Z' || '0' <= c <= '9' || c == '-' || c == '_'
  }

  /** `name.replace(/[^a-zA-Z0-9-_]/g, '_')`. */
  function Sanitize(name: string): string {
    seq(|name|, i requires 0 <= i < |name| => if SafeChar(name[i]) then name[i] else '_')
  }

  /** `... || 'pipeline'`. */
  function SafeName(name: string): string {
    if Sanitize(name) != "" then Sanitize(name) else "pipeline"
  }

  /** The name of the downloaded file. */
  function DotFileName(name: string): string {
    SafeName(name) + ".gv"
  }

  /** Every character is kept when accepted and becomes `_` otherwise, so
      the result has the name's length and only accepted characters. */
  lemma {:induction false} SanitizeSpec(name: string)
    ensures |Sanitize(name)| == |name|
    ensures forall i :: 0 <= i < |name| ==>
              (SafeChar(name[i]) ==> Sanitize(name)[i] == name[i]) && (!SafeChar(name[i]) ==> Sanitize(name)[i] == '_')
    ensures forall i :: 0 <= i < |name| ==> SafeChar(Sanitize(name)[i])
  {
  }

  /** Sanitising a sanitised name changes nothing. */
  lemma {:induction false} SanitizeIdempotent(name: string)
    ensures Sanitize(Sanitize(name)) == Sanitize(name)
  {
  }

  /** The fallback applies exactly when the project name is empty: the
      sanitised name is never empty otherwise. */
  lemma {:induction false} SafeNameFallback(name: string)
    ensures Sanitize(name) == "" <==> name == ""
    ensures name == "" ==> DotFileName(name) == "pipeline.gv"
    ensures name != "" ==> DotFileName(name) == Sanitize(name) + ".gv"
  {
    SanitizeSpec(name);
  }
}
