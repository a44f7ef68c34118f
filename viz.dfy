/** `graphToKedroViz`: a parsed graph turned into the JSON shape kedro-viz
    draws. */
module Viz {
  import opened Wrappers

  /** A graph node as the DOT parser yields it: its own id, its label, and
      the type its `data` may carry. */
  datatype GraphNode = GraphNode(id: string, labelText: string, dataType: Option<string>)

  datatype GraphEdge = GraphEdge(source: string, target: string)

  /** The graph handed to the converter. `entries` lists the node map's
      (key, node) pairs in its iteration order. */
  datatype VizInput = VizInput(entries: seq<(string, GraphNode)>, edges: seq<GraphEdge>)

  /** A node record. `hasLayer` says the record carries `layer: null`,
      `hasParameters` that it carries `parameters: {}`. */
  datatype VizNode = VizNode(
    id: string,
    name: string,
    nodeType: string,
    pipelines: seq<string>,
    tags: seq<string>,
    modularPipelines: seq<string>,
    hasLayer: bool,
    hasParameters: bool)

  datatype Child = Child(id: string, childType: string)

  datatype VizEdge = VizEdge(source: string, target: string)

  datatype Pipeline = Pipeline(id: string, name: string)

  datatype ModularPipeline = ModularPipeline(
    id: string, name: string, inputs: seq<string>, outputs: seq<string>, children: seq<Child>)

  /** The converter's result; `root` is the one entry of `modular_pipelines`,
      under the key `__root__`. */
  datatype KedroViz = KedroViz(
    nodes: seq<VizNode>,
    edges: seq<VizEdge>,
    tags: seq<string>,
    pipelines: seq<Pipeline>,
    root: ModularPipeline)

  const DefaultPipeline: string := "__default__"

  const RootName: string := "__root__"

  /** `nodeData.data?.type || "task"`. */
  function NodeType(n: GraphNode): string {
    if Truthy(n.dataType) then n.dataType.value else "task"
  }

  /** The record of one map entry (lines 39-54). */
  function VizNodeOf(key: string, n: GraphNode): VizNode {
    var t := NodeType(n);
    VizNode(key, if n.labelText != "" then n.labelText else key, t, [DefaultPipeline], [], [], t == "data", t == "task")
  }

  function VizNodes(entries: seq<(string, GraphNode)>): (r: seq<VizNode>)
    ensures |r| == |entries|
  {
    if entries == [] then []
    else VizNodes(entries[..|entries| - 1]) + [VizNodeOf(entries[|entries| - 1].0, entries[|entries| - 1].1)]
  }

  function Children(entries: seq<(string, GraphNode)>): (r: seq<Child>)
    ensures |r| == |entries|
  {
    if entries == [] then []
    else Children(entries[..|entries| - 1]) + [Child(entries[|entries| - 1].0, NodeType(entries[|entries| - 1].1))]
  }

  function VizEdges(edges: seq<GraphEdge>): (r: seq<VizEdge>)
    ensures |r| == |edges|
  {
    if edges == [] then []
    else VizEdges(edges[..|edges| - 1]) + [VizEdge(edges[|edges| - 1].source, edges[|edges| - 1].target)]
  }

  /** What the converter returns for a graph. */
  function KedroVizOf(g: VizInput): KedroViz {
    KedroViz(VizNodes(g.entries), VizEdges(g.edges), [], [Pipeline(DefaultPipeline, "Default")],
             ModularPipeline(RootName, RootName, [], [], Children(g.entries)))
  }

  /** Lines 22-70: one pass over the node map pushing a node record and a
      root child per entry, one pass over the edges pushing a copy of each. */
  method GraphToKedroViz(g: VizInput) returns (viz: KedroViz)
    ensures viz == KedroVizOf(g)
  {
    var nodes: seq<VizNode> := [];
    var children: seq<Child> := [];
    for i := 0 to |g.entries|
      invariant nodes == VizNodes(g.entries[..i])
      invariant children == Children(g.entries[..i])
    {
      assert g.entries[..i + 1][..i] == g.entries[..i];
      var (nodeId, nodeData) := g.entries[i];
      var nodeType := if Truthy(nodeData.dataType) then nodeData.dataType.value else "task";
      var node := VizNode(nodeId, if nodeData.labelText != "" then nodeData.labelText else nodeId, nodeType,
                          [DefaultPipeline], [], [], false, false);
      if nodeType == "data" {
        node := node.(hasLayer := true);
      }
      if nodeType == "task" {
        node := node.(hasParameters := true);
      }
      nodes := nodes + [node];
      children := children + [Child(nodeId, nodeType)];
    }
    assert g.entries[..|g.entries|] == g.entries;
    var edges: seq<VizEdge> := [];
    for i := 0 to |g.edges|
      invariant edges == VizEdges(g.edges[..i])
    {
      assert g.edges[..i + 1][..i] == g.edges[..i];
      edges := edges + [VizEdge(g.edges[i].source, g.edges[i].target)];
    }
    assert g.edges[..|g.edges|] == g.edges;
    viz := KedroViz(nodes, edges, [], [Pipeline(DefaultPipeline, "Default")],
                    ModularPipeline(RootName, RootName, [], [], children));
  }

  lemma {:induction false} VizNodesAt(entries: seq<(string, GraphNode)>, k: nat)
    requires k < |entries|
    ensures VizNodes(entries)[k] == VizNodeOf(entries[k].0, entries[k].1)
    ensures Children(entries)[k] == Child(entries[k].0, NodeType(entries[k].1))
  {
    if k < |entries| - 1 {
      VizNodesAt(entries[..|entries| - 1], k);
    }
  }

  lemma {:induction false} VizEdgesAt(edges: seq<GraphEdge>, k: nat)
    requires k < |edges|
    ensures VizEdges(edges)[k] == VizEdge(edges[k].source, edges[k].target)
  {
    if k < |edges| - 1 {
      VizEdgesAt(edges[..|edges| - 1], k);
    }
  }

  /** One node record per map entry, in iteration order: its id is the key
      (not the node's own id), its name the label or else the key, its type
      the data type or else `task`, in the default pipeline only, without
      tags or modular pipelines. */
  lemma {:induction false} VizNodeRecords(g: VizInput, k: nat)
    requires k < |g.entries|
    ensures |KedroVizOf(g).nodes| == |g.entries|
    ensures var (key, n) := g.entries[k];
            var v := KedroVizOf(g).nodes[k];
      && v.id == key
      && v.name == (if n.labelText != "" then n.labelText else key)
      && v.nodeType == (if n.dataType.Some? && n.dataType.value != "" then n.dataType.value else "task")
      && v.pipelines == ["__default__"] && v.tags == [] && v.modularPipelines == []
  {
    VizNodesAt(g.entries, k);
  }

  /** `layer: null` exactly for data nodes, `parameters: {}` exactly for task
      nodes, so no record carries both and every other type carries neither. */
  lemma {:induction false} VizNodeExtras(g: VizInput, k: nat)
    requires k < |g.entries|
    ensures var v := KedroVizOf(g).nodes[k];
      && (v.hasLayer <==> v.nodeType == "data")
      && (v.hasParameters <==> v.nodeType == "task")
      && !(v.hasLayer && v.hasParameters)
  {
    VizNodesAt(g.entries, k);
  }

  /** The root's children list each node record's id and type, in the same
      order. */
  lemma {:induction false} RootChildren(g: VizInput)
    ensures var viz := KedroVizOf(g);
      && |viz.root.children| == |viz.nodes|
      && forall k :: 0 <= k < |viz.nodes| ==>
           viz.root.children[k] == Child(viz.nodes[k].id, viz.nodes[k].nodeType)
  {
    forall k | 0 <= k < |g.entries|
      ensures KedroVizOf(g).root.children[k] == Child(KedroVizOf(g).nodes[k].id, KedroVizOf(g).nodes[k].nodeType)
    {
      VizNodesAt(g.entries, k);
    }
  }

  /** Every edge is copied, ends and order kept. */
  lemma {:induction false} VizEdgesCopied(g: VizInput)
    ensures |KedroVizOf(g).edges| == |g.edges|
    ensures forall k :: 0 <= k < |g.edges| ==>
      KedroVizOf(g).edges[k].source == g.edges[k].source && KedroVizOf(g).edges[k].target == g.edges[k].target
  {
    forall k | 0 <= k < |g.edges|
      ensures KedroVizOf(g).edges[k].source == g.edges[k].source && KedroVizOf(g).edges[k].target == g.edges[k].target
    {
      VizEdgesAt(g.edges, k);
    }
  }

  /** One pipeline, `__default__`; no top-level tags; a root without inputs
      or outputs. */
  lemma {:induction false} VizFixedParts(g: VizInput)
    ensures KedroVizOf(g).pipelines == [Pipeline("__default__", "Default")]
    ensures KedroVizOf(g).tags == []
    ensures KedroVizOf(g).root.id == "__root__" && KedroVizOf(g).root.inputs == [] && KedroVizOf(g).root.outputs == []
  {
  }
}
