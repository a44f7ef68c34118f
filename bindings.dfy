/** The records `generatePipelineStructure` derives from the graph: the
    dataset bindings of every function node, its identifier, and the
    catalog entry of every dataset node. */
module Bindings {
  import opened Wrappers
  import opened Text
  import opened Graph

  /** A dataset a function reads or writes, copied from the node an edge
      reaches (whatever its kind: the fields it lacks stay absent). */
  datatype DatasetInfo = DatasetInfo(
    id: string,
    name: string,
    dataType: Option<string>,
    filepath: Option<string>)

  datatype FunctionInfo = FunctionInfo(
    id: string,
    name: string,
    functionName: string,
    code: Option<string>,
    description: Option<string>,
    inputs: seq<DatasetInfo>,
    outputs: seq<DatasetInfo>)

  datatype CatalogEntry = CatalogEntry(
    name: string,
    dataType: Option<string>,
    filepath: Option<string>,
    description: Option<string>)

  function DatasetInfoOf(n: Node): DatasetInfo {
    DatasetInfo(n.id, n.labelText, n.dataType, n.filepath)
  }

  // ---------------------------------------------------------------------
  // Input and output bindings
  // ---------------------------------------------------------------------

  /** The binding one edge contributes to the inputs of function `fid`. */
  function InputOf(m: map<string, Node>, e: Edge, fid: string): seq<DatasetInfo> {
    if e.target == fid && e.source in m then [DatasetInfoOf(m[e.source])] else []
  }

  /** The binding one edge contributes to the outputs of function `fid`. */
  function OutputOf(m: map<string, Node>, e: Edge, fid: string): seq<DatasetInfo> {
    if e.source == fid && e.target in m then [DatasetInfoOf(m[e.target])] else []
  }

  /** `edges.filter(edge => edge.target === fid).map(... nodeMap.get(edge.source) ...).filter(Boolean)`. */
  function Inputs(m: map<string, Node>, edges: seq<Edge>, fid: string): seq<DatasetInfo> {
    if edges == [] then [] else InputOf(m, edges[0], fid) + Inputs(m, edges[1..], fid)
  }

  /** `edges.filter(edge => edge.source === fid).map(... nodeMap.get(edge.target) ...).filter(Boolean)`. */
  function Outputs(m: map<string, Node>, edges: seq<Edge>, fid: string): seq<DatasetInfo> {
    if edges == [] then [] else OutputOf(m, edges[0], fid) + Outputs(m, edges[1..], fid)
  }

  /** The inputs of a concatenation of edge lists are the inputs of the first
      list followed by those of the second: edge order is kept. */
  lemma {:induction false} InputsAppend(m: map<string, Node>, a: seq<Edge>, b: seq<Edge>, fid: string)
    ensures Inputs(m, a + b, fid) == Inputs(m, a, fid) + Inputs(m, b, fid)
  {
    if a == [] {
      assert a + b == b;
    } else {
      assert (a + b)[1..] == a[1..] + b;
      InputsAppend(m, a[1..], b, fid);
    }
  }

  /** A dataset is an input of `fid` exactly when some edge ends at `fid`
      and starts at a node of that dataset. */
  lemma {:induction false} InputsMember(m: map<string, Node>, edges: seq<Edge>, fid: string, d: DatasetInfo)
    ensures d in Inputs(m, edges, fid) <==>
      exists i :: 0 <= i < |edges| && edges[i].target == fid && edges[i].source in m
                  && d == DatasetInfoOf(m[edges[i].source])
  {
    if edges != [] {
      InputsMember(m, edges[1..], fid, d);
      if d in Inputs(m, edges[1..], fid) {
        var i :| 0 <= i < |edges[1..]| && edges[1..][i].target == fid && edges[1..][i].source in m
                 && d == DatasetInfoOf(m[edges[1..][i].source]);
        assert edges[i + 1] == edges[1..][i];
      }
      if exists i :: 0 <= i < |edges| && edges[i].target == fid && edges[i].source in m
                     && d == DatasetInfoOf(m[edges[i].source]) {
        var i :| 0 <= i < |edges| && edges[i].target == fid && edges[i].source in m
                 && d == DatasetInfoOf(m[edges[i].source]);
        if i > 0 {
          assert edges[1..][i - 1] == edges[i];
        }
      }
    }
  }

  /** An edge whose source is not a node is dropped without trace. */
  lemma {:induction false} DanglingInputDropped(m: map<string, Node>, a: seq<Edge>, e: Edge, b: seq<Edge>, fid: string)
    requires e.source !in m
    ensures Inputs(m, a + [e] + b, fid) == Inputs(m, a + b, fid)
  {
    InputsAppend(m, a + [e], b, fid);
    InputsAppend(m, a, [e], fid);
    InputsAppend(m, a, b, fid);
  }

  /** Two copies of an edge give two copies of its binding. */
  lemma {:induction false} DuplicateInputsKept(m: map<string, Node>, a: seq<Edge>, e: Edge, b: seq<Edge>, fid: string)
    requires e.target == fid && e.source in m
    ensures Inputs(m, a + [e, e] + b, fid)
         == Inputs(m, a, fid) + [DatasetInfoOf(m[e.source]), DatasetInfoOf(m[e.source])] + Inputs(m, b, fid)
  {
    InputsAppend(m, a + [e, e], b, fid);
    InputsAppend(m, a, [e, e], fid);
    assert [e, e][1..] == [e];
    assert [e][1..] == [];
    assert Inputs(m, [e], fid) == [DatasetInfoOf(m[e.source])];
  }

  /** Every edge reversed. */
  function Flip(edges: seq<Edge>): (r: seq<Edge>)
    ensures |r| == |edges|
    ensures forall i :: 0 <= i < |edges| ==>
      r[i] == Edge(edges[i].id, edges[i].target, edges[i].source)
  {
    if edges == [] then []
    else [Edge(edges[0].id, edges[0].target, edges[0].source)] + Flip(edges[1..])
  }

  /** Outputs are the inputs of the reversed graph: the two resolvers are
      symmetric, so every fact about inputs holds of outputs. */
  lemma {:induction false} OutputsAreFlippedInputs(m: map<string, Node>, edges: seq<Edge>, fid: string)
    ensures Outputs(m, edges, fid) == Inputs(m, Flip(edges), fid)
  {
    if edges != [] {
      OutputsAreFlippedInputs(m, edges[1..], fid);
      assert Flip(edges)[1..] == Flip(edges[1..]);
    }
  }

  // ---------------------------------------------------------------------
  // Function records
  // ---------------------------------------------------------------------

  /** `functionData.function_name || canonical(functionData.label)`. */
  function FunctionName(n: Node): (r: string)
    ensures Truthy(n.functionName) ==> r == n.functionName.value
    ensures !Truthy(n.functionName) ==> r == Canonical(n.labelText) && NoWhitespace(r)
  {
    CanonicalShape(n.labelText);
    if Truthy(n.functionName) then n.functionName.value else Canonical(n.labelText)
  }

  function FunctionInfoOf(m: map<string, Node>, edges: seq<Edge>, n: Node): FunctionInfo {
    FunctionInfo(n.id, n.labelText, FunctionName(n), n.code, n.description,
                 Inputs(m, edges, n.id), Outputs(m, edges, n.id))
  }

  /** `functionNodes.map(functionNode => ...)` over the resolved lookup. */
  function FunctionInfos(m: map<string, Node>, edges: seq<Edge>, fs: seq<Node>): (r: seq<FunctionInfo>)
    ensures |r| == |fs|
  {
    if fs == [] then [] else [FunctionInfoOf(m, edges, fs[0])] + FunctionInfos(m, edges, fs[1..])
  }

  /** The function records of a graph: one per function node, in node order. */
  function FunctionRecords(nodes: seq<Node>, edges: seq<Edge>): seq<FunctionInfo> {
    FunctionInfos(NodeMap(nodes), edges, OfKind(nodes, FunctionKind))
  }

  lemma {:induction false} FunctionInfosAt(m: map<string, Node>, edges: seq<Edge>, fs: seq<Node>, k: nat)
    requires k < |fs|
    ensures FunctionInfos(m, edges, fs)[k] == FunctionInfoOf(m, edges, fs[k])
  {
    if k > 0 {
      FunctionInfosAt(m, edges, fs[1..], k - 1);
    }
  }

  /** The k-th function record describes the k-th function node: its id,
      label and identifier, its code and description unchanged, and the
      bindings the edges give it. */
  lemma {:induction false} FunctionRecordAt(nodes: seq<Node>, edges: seq<Edge>, k: nat)
    requires k < |OfKind(nodes, FunctionKind)|
    ensures |FunctionRecords(nodes, edges)| == |OfKind(nodes, FunctionKind)|
    ensures var n := OfKind(nodes, FunctionKind)[k];
            var f := FunctionRecords(nodes, edges)[k];
            && n.kind == FunctionKind && n in nodes
            && f.id == n.id && f.name == n.labelText && f.functionName == FunctionName(n)
            && f.code == n.code && f.description == n.description
            && f.inputs == Inputs(NodeMap(nodes), edges, n.id)
            && f.outputs == Outputs(NodeMap(nodes), edges, n.id)
  {
    var fs := OfKind(nodes, FunctionKind);
    FunctionInfosAt(NodeMap(nodes), edges, fs, k);
    OfKindMember(nodes, FunctionKind, fs[k]);
  }

  // ---------------------------------------------------------------------
  // Catalog entries
  // ---------------------------------------------------------------------

  function CatalogEntryOf(n: Node): CatalogEntry {
    CatalogEntry(Canonical(n.labelText), n.dataType, n.filepath, n.description)
  }

  /** `datasetNodes.map(node => ({ name: canonical(label), type, filepath, description }))`. */
  function CatalogEntries(ds: seq<Node>): (r: seq<CatalogEntry>)
    ensures |r| == |ds|
  {
    if ds == [] then [] else [CatalogEntryOf(ds[0])] + CatalogEntries(ds[1..])
  }

  /** The k-th entry is the entry of the k-th dataset node. */
  lemma {:induction false} CatalogEntryAt(ds: seq<Node>, k: nat)
    requires k < |ds|
    ensures CatalogEntries(ds)[k] == CatalogEntryOf(ds[k])
  {
    if k > 0 {
      CatalogEntryAt(ds[1..], k - 1);
    }
  }

  /** The catalog entries of a graph's nodes. */
  function Catalog(nodes: seq<Node>): seq<CatalogEntry> {
    CatalogEntries(OfKind(nodes, DatasetKind))
  }

  lemma {:induction false} CatalogEntriesAppend(a: seq<Node>, b: seq<Node>)
    ensures CatalogEntries(a + b) == CatalogEntries(a) + CatalogEntries(b)
  {
    if a == [] {
      assert a + b == b;
    } else {
      assert (a + b)[1..] == a[1..] + b;
      CatalogEntriesAppend(a[1..], b);
    }
  }

  /** The catalog of a node list is the catalog of its first part followed
      by that of the rest: entries keep node order. */
  lemma {:induction false} CatalogAppend(a: seq<Node>, b: seq<Node>)
    ensures Catalog(a + b) == Catalog(a) + Catalog(b)
  {
    OfKindAppend(a, b, DatasetKind);
    CatalogEntriesAppend(OfKind(a, DatasetKind), OfKind(b, DatasetKind));
  }

  /** A dataset node contributes exactly its own entry, any other node none. */
  lemma {:induction false} CatalogOfOne(n: Node)
    ensures Catalog([n]) == if n.kind == DatasetKind then [CatalogEntryOf(n)] else []
  {
    assert [n][1..] == [];
    assert OfKind([n], DatasetKind) == if n.kind == DatasetKind then [n] else [];
    assert [n][1..] == [];
  }

  /** Every entry name is canonical: no white space, and canonicalising it
      again gives the same name. */
  lemma {:induction false} CatalogNamesCanonical(ds: seq<Node>, k: nat)
    requires k < |CatalogEntries(ds)|
    ensures NoWhitespace(CatalogEntries(ds)[k].name)
    ensures Canonical(CatalogEntries(ds)[k].name) == CatalogEntries(ds)[k].name
  {
    if k == 0 {
      CanonicalShape(ds[0].labelText);
      CanonicalIdempotent(ds[0].labelText);
    } else {
      CatalogNamesCanonical(ds[1..], k - 1);
    }
  }
}
