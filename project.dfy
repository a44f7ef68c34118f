/** `generatePipelineStructure`: the function records, the catalog entries
    and the three generated files of a canvas graph. */
module Project {
  import opened Wrappers
  import opened Text
  import opened Graph
  import opened Bindings
  import NodesPy
  import PipelinePy
  import CatalogYaml

  datatype PipelineStructure = PipelineStructure(
    nodesPyCode: string,
    pipelinePyCode: string,
    catalogYaml: string,
    functionNodes: seq<FunctionInfo>,
    datasetNodes: seq<CatalogEntry>)

  /** What the compiler produces for a graph. */
  function StructureOf(nodes: seq<Node>, edges: seq<Edge>): PipelineStructure {
    var fs := FunctionRecords(nodes, edges);
    var cs := Catalog(nodes);
    PipelineStructure(NodesPy.NodesText(fs), PipelinePy.PipelineText(fs), CatalogYaml.CatalogText(cs), fs, cs)
  }

  /** Lines 87-163: fill the lookup, split the nodes by kind, resolve every
      function's bindings, build the catalog, and render the three files. */
  method GeneratePipelineStructure(nodes: seq<Node>, edges: seq<Edge>) returns (s: PipelineStructure)
    ensures s == StructureOf(nodes, edges)
  {
    var nodeMap := BuildNodeMap(nodes);
    var datasetNodes := OfKind(nodes, DatasetKind);
    var functionNodes := OfKind(nodes, FunctionKind);
    var functionNodesWithIO := FunctionInfos(nodeMap, edges, functionNodes);
    var catalogEntries := CatalogEntries(datasetNodes);
    var nodesPyCode := NodesPy.GenerateNodesPyCode(functionNodesWithIO);
    var pipelinePyCode := PipelinePy.GeneratePipelinePyCode(functionNodesWithIO);
    var catalogYaml := CatalogYaml.GenerateCatalogYaml(catalogEntries);
    s := PipelineStructure(nodesPyCode, pipelinePyCode, catalogYaml, functionNodesWithIO, catalogEntries);
  }

  /** A dataset node whose fields can be written to the catalog and read
      back: a type and a file path, and no line break in what is printed. */
  predicate CatalogReady(n: Node) {
    n.kind == DatasetKind ==>
      && n.dataType.Some? && n.filepath.Some?
      && '\n' !in n.dataType.value && '\n' !in n.filepath.value
      && (n.description.Some? ==> '\n' !in n.description.value)
  }

  lemma {:induction false} CatalogEntriesReadable(ds: seq<Node>)
    requires forall i :: 0 <= i < |ds| ==> ds[i].kind == DatasetKind && CatalogReady(ds[i])
    ensures forall k :: 0 <= k < |CatalogEntries(ds)| ==> CatalogYaml.Readable(CatalogEntries(ds)[k])
  {
    forall k | 0 <= k < |CatalogEntries(ds)| ensures CatalogYaml.Readable(CatalogEntries(ds)[k]) {
      CatalogNamesCanonical(ds, k);
      CatalogEntryAt(ds, k);
    }
  }

  lemma {:induction false} OfKindAll(nodes: seq<Node>, kind: NodeKind)
    ensures forall i :: 0 <= i < |OfKind(nodes, kind)| ==> OfKind(nodes, kind)[i] in nodes && OfKind(nodes, kind)[i].kind == kind
  {
    forall i | 0 <= i < |OfKind(nodes, kind)|
      ensures OfKind(nodes, kind)[i] in nodes && OfKind(nodes, kind)[i].kind == kind
    {
      OfKindMember(nodes, kind, OfKind(nodes, kind)[i]);
    }
  }

  /** The generated `catalog.yml` reads back as the graph's catalog: one
      entry per dataset node, in node order, with name, type, file path and
      (non-empty) description. */
  lemma {:induction false} CatalogFileReadsBack(nodes: seq<Node>, edges: seq<Edge>)
    requires forall i :: 0 <= i < |nodes| ==> CatalogReady(nodes[i])
    ensures CatalogYaml.ParseCatalog(StructureOf(nodes, edges).catalogYaml)
         == Some(CatalogYaml.WrittenAll(Catalog(nodes)))
  {
    var ds := OfKind(nodes, DatasetKind);
    OfKindAll(nodes, DatasetKind);
    forall i | 0 <= i < |ds| ensures ds[i].kind == DatasetKind && CatalogReady(ds[i]) {
      var j :| 0 <= j < |nodes| && nodes[j] == ds[i];
    }
    CatalogEntriesReadable(ds);
    CatalogYaml.CatalogRoundTrip(Catalog(nodes));
  }
}
