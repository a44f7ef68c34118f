# Kedro Pipeline Painter: the pipeline compiler and its converters

Kedro Pipeline Painter is a browser tool for drawing a Kedro pipeline as a
graph. Nodes on the canvas are datasets or functions, and edges connect
them. This project models the parts that turn such a graph into text and
records, and proves what those outputs look like:

- **Records from the graph** (`generatePipelineStructure`). An id-to-node
  lookup is filled from the node list. Each function node gets ordered input
  and output dataset bindings, found by scanning the edges, and an
  identifier. Each dataset node becomes a catalog entry.
- **Canonical names.** Every generator uses the label canonicaliser
  `label.toLowerCase().replace(/\s+/g, '_')`.
- **`nodes.py`** (`generateNodesPyCode`): one Python function per function
  record, with its signature, docstring and body.
- **`pipeline.py`** (`generatePipelinePyCode`): the import of those
  functions and one `node(...)` call per record inside `create_pipeline`.
- **`catalog.yml`** (`generateCatalogYaml`): one block per catalog entry.
- **The DOT export** (`nodesEdgesToDot`) and the name of the downloaded
  `.gv` file (the `safeName` expression).
- **The kedro-viz converter** (`graphToKedroViz`), which turns a node map
  and an edge list into the JSON shape kedro-viz draws.

Each string builder in the source grows a local string with `+=` inside
`forEach` loops. Each is modelled as a Dafny method with the same loops. The
method is proved equal to a specification function, and the properties are
proved about that function. These include:

- the exact line layout each text has once split at line breaks;
- read-back lemmas for the catalog and the DOT text, which recover the
  records the text was written from;
- the fallbacks, and the counting and ordering facts each generator
  promises.

Module layout:

| file | module | models |
|---|---|---|
| `text.dfy` | `Text` | white space, lower-casing, the canonicaliser, `trim`, `split`, `join`, line indentation |
| `graph.dfy` | `Wrappers`, `Graph` | optional fields, the canvas graph, the node lookup, filtering by node type |
| `bindings.dfy` | `Bindings` | function records with their bindings, catalog entries |
| `catalog_yaml.dfy` | `CatalogYaml` | `generateCatalogYaml` |
| `nodes_py.dfy` | `NodesPy` | `generateNodesPyCode` |
| `pipeline_py.dfy` | `PipelinePy` | `generatePipelinePyCode` |
| `project.dfy` | `Project` | `generatePipelineStructure` as a whole |
| `dot.dfy` | `Dot` | `nodesEdgesToDot`, `safeName`, the `.gv` file name |
| `viz.dfy` | `Viz` | `graphToKedroViz` |
| `example.dfy` | `Example` | the builder's initial graph, worked through |

Modelling choices:

- A node's data fields other than the label are `Option<string>`.
- "Truthy" means present and not empty, as in JavaScript.
- An absent field printed in a template literal reads `undefined`, and the
  model prints it that way too.
- Integers play no role; strings are `seq<char>`.

## Model

| member | source | states |
|---|---|---|
| Text.CanonicalShape | src/lib/kedro-service.ts:140 | a canonical name holds no white space and no upper-case letter |
| Text.CanonicalIdempotent | src/lib/kedro-service.ts:300 | canonicalising a canonical name again (as the catalog writer does) changes nothing |
| Text.CanonicalRun | src/lib/kedro-service.ts:128 | a maximal white-space run between a plain prefix and the rest becomes exactly one `_`, the prefix is lower-cased |
| Text.CanonicalOfPlain | src/lib/kedro-service.ts:183 | a label without white space is only lower-cased |
| Text.CanonicalSingleLine | src/lib/kedro-service.ts:195 | a canonical name never holds a line break |
| Text.TrimEmpty | src/lib/kedro-service.ts:214 | `code.trim()` is empty exactly when the code is white space only |
| Text.JoinSplit | src/lib/kedro-service.ts:216-219 | joining the parts of a split with the separator gives the text back |
| Text.SplitJoin | src/lib/kedro-service.ts:216-219 | splitting a join of separator-free parts gives the parts back |
| Text.IndentLinesSpec | src/lib/kedro-service.ts:216-219 | indenting every line is four spaces in front and four more after every line break, the rest of the code kept |
| Graph.BuildNodeMap | src/lib/kedro-service.ts:89-90 | the `forEach` fills the lookup with every node, a later node with the same id replacing an earlier one |
| Graph.NodeMapDomain | src/lib/kedro-service.ts:89-90 | an id is in the lookup exactly when some node carries it |
| Graph.NodeMapLast | src/lib/kedro-service.ts:90 | the lookup returns the last node carrying an id |
| Graph.OfKindMember | src/lib/kedro-service.ts:93-94 | filtering by node type keeps exactly the nodes of that type |
| Graph.OfKindAppend | src/lib/kedro-service.ts:93-94 | filtering keeps node order |
| Bindings.InputsMember | src/lib/kedro-service.ts:99-108 | a dataset is an input of a function exactly when some edge ends at the function and starts at a known node of that dataset |
| Bindings.InputsAppend | src/lib/kedro-service.ts:99-108 | inputs follow edge order |
| Bindings.DanglingInputDropped | src/lib/kedro-service.ts:100-108 | an edge whose source is not a node is dropped without trace |
| Bindings.DuplicateInputsKept | src/lib/kedro-service.ts:99-108 | two copies of an edge give two copies of its binding |
| Bindings.OutputsAreFlippedInputs | src/lib/kedro-service.ts:111-120 | outputs are the inputs of the graph with every edge reversed |
| Bindings.FunctionName | src/lib/kedro-service.ts:128 | the identifier is `function_name` when it is not empty, otherwise the canonical label |
| Bindings.FunctionRecordAt | src/lib/kedro-service.ts:97-134 | the k-th record describes the k-th function node: id, label, identifier, code, description and its bindings |
| Bindings.CatalogEntryAt | src/lib/kedro-service.ts:137-145 | the k-th entry is the k-th dataset node's canonical label, type, file path and description |
| Bindings.CatalogAppend | src/lib/kedro-service.ts:137-145 | entries keep node order |
| Bindings.CatalogOfOne | src/lib/kedro-service.ts:93 | a dataset node contributes exactly its own entry, any other node none |
| Bindings.CatalogNamesCanonical | src/lib/kedro-service.ts:140 | every entry name is canonical |
| CatalogYaml.GenerateCatalogYaml | src/lib/kedro-service.ts:294-310 | the loop builds the header followed by every entry's block, in entry order |
| CatalogYaml.EntryTextLines | src/lib/kedro-service.ts:300-306 | an entry's block is a blank line, `name:`, `  type: …`, `  filepath: …` and the comment line when there is one |
| CatalogYaml.EntryDescribed | src/lib/kedro-service.ts:304-306 | the comment line `  # <description>` is present exactly when the description is not empty |
| CatalogYaml.CatalogTextLines | src/lib/kedro-service.ts:295-307 | split at line breaks, the file is the two header lines followed by every entry's lines |
| CatalogYaml.CatalogRoundTrip | src/lib/kedro-service.ts:294-310 | reading the file back gives the entries it was written from |
| NodesPy.GenerateNodesPyCode | src/lib/kedro-service.ts:168-235 | the loop builds the module header followed by every record's function, in record order |
| NodesPy.AppendFunction | src/lib/kedro-service.ts:187-231 | one iteration appends exactly the function text of that record |
| NodesPy.FunctionTextLines | src/lib/kedro-service.ts:187-231 | a function's text is its signature, docstring lines, body lines and a blank line |
| NodesPy.NodesTextLines | src/lib/kedro-service.ts:168-235 | split at line breaks, the module is the eight header lines followed by every function's lines |
| NodesPy.DocLayout | src/lib/kedro-service.ts:188-211 | the docstring holds the description or the default summary, then one `Args` line per input, in input order, then the `Returns` section |
| NodesPy.ReturnsSection | src/lib/kedro-service.ts:200-209 | `Returns` is the one line `Processed data.` exactly when there is one output, otherwise one line per output |
| NodesPy.FunctionBody | src/lib/kedro-service.ts:214-231 | code that is not blank is printed with every line indented by four spaces; otherwise the placeholder returns the inputs for one output and the outputs in every other case |
| NodesPy.FunctionMargin | src/lib/kedro-service.ts:187-231 | the signature is the only line of a function at the left margin |
| NodesPy.NodesMargin | src/lib/kedro-service.ts:168-235 | the lines at the left margin are the header's and then one `def` per record, in record order |
| PipelinePy.GeneratePipelinePyCode | src/lib/kedro-service.ts:240-289 | the loop builds the header, a `node(...)` call per record in record order, and the footer |
| PipelinePy.NodeTextLines | src/lib/kedro-service.ts:276-281 | a call is six lines: `node(`, `func=`, `inputs=[…]`, `outputs=`, `name="<fn>_node"`, `),` |
| PipelinePy.PipelineTextLines | src/lib/kedro-service.ts:241-286 | split at line breaks, the module is the header lines, every call's lines, and the two footer lines |
| PipelinePy.PipelineLayout | src/lib/kedro-service.ts:240-289 | the import line lists every identifier; line 15 + 6k + j is line j of the k-th call; the footer closes the file |
| PipelinePy.OutputsShape | src/lib/kedro-service.ts:265-274 | `outputs=` is `None` exactly for no output, one quoted name exactly for one, a bracketed list exactly for more |
| PipelinePy.OutputsListed | src/lib/kedro-service.ts:268-271 | a bracketed `outputs=` list holds every output's quoted canonical name at its own offset, and each ends before the next output's begins, so the names appear in binding order |
| PipelinePy.QuotedListed | src/lib/kedro-service.ts:261-271 | a quoted name list, as printed for `inputs=` and `outputs=`, holds every dataset's quoted canonical name, each before the later datasets' names |
| Text.JoinAt | src/lib/kedro-service.ts:261-263 | every part of a `join` occurs in the result at the offset after the earlier parts and separators |
| Text.JoinOrdered | src/lib/kedro-service.ts:261-263 | in a `join`, each part and its separator end before any later part starts |
| Project.GeneratePipelineStructure | src/lib/kedro-service.ts:87-163 | the structure holds the records, the catalog entries and the three files generated from them |
| Project.CatalogFileReadsBack | src/lib/kedro-service.ts:137-154 | the generated `catalog.yml` reads back as one entry per dataset node, in node order |
| Dot.NodesEdgesToDot | src/components/PipelineBuilder.tsx:166-176 | the loops build the opening line, a line per node, a line per edge and the closing brace |
| Dot.DotFraming | src/components/PipelineBuilder.tsx:167-174 | the text begins with `digraph pipeline {` and a line break and ends with `}` and a line break |
| Dot.DotLines | src/components/PipelineBuilder.tsx:166-176 | split at line breaks, the text is the opening line, the node lines, the edge lines and the closing brace |
| Dot.DotLayout | src/components/PipelineBuilder.tsx:168-173 | line 1 + k is node k's line; every edge line follows every node line, in edge order, whatever the edges' ends |
| Dot.NodeLineRead | src/components/PipelineBuilder.tsx:169 | a node line reads back as the node's id and its label, or its id when the label is empty |
| Dot.EdgeLineRead | src/components/PipelineBuilder.tsx:172 | an edge line reads back as the edge's source and target |
| Dot.DotRoundTrip | src/components/PipelineBuilder.tsx:166-176 | reading the DOT text back gives every node and every edge, in order |
| Dot.SanitizeSpec | src/components/PipelineBuilder.tsx:205 | every character outside `[A-Za-z0-9_-]` becomes `_`, every other is kept, and the length is kept; hence only accepted characters remain |
| Dot.SanitizeIdempotent | src/components/PipelineBuilder.tsx:205 | sanitising a sanitised name changes nothing |
| Dot.SafeNameFallback | src/components/PipelineBuilder.tsx:205-206 | the `pipeline` fallback applies exactly when the project name is empty; the file name is the sanitised name plus `.gv` |
| Viz.GraphToKedroViz | src/embedViz.tsx:22-70 | the loops build one node record and one root child per map entry and one copy per edge |
| Viz.VizNodeRecords | src/embedViz.tsx:39-48 | node k's id is the k-th key, its name the label or the key, its type the data type or `task`, in the default pipeline only |
| Viz.VizNodeExtras | src/embedViz.tsx:49-54 | `layer` exactly for data nodes, `parameters` exactly for task nodes, never both |
| Viz.RootChildren | src/embedViz.tsx:56-59 | the root's children list every node record's id and type, in the same order |
| Viz.VizEdgesCopied | src/embedViz.tsx:62-67 | every edge is copied with its ends, in order |
| Viz.VizFixedParts | src/embedViz.tsx:23-37 | whatever the graph, the result has one `__default__` pipeline, no tags, and a root without inputs or outputs |
| Example.InitialRecords | src/data/initialElements.ts:5-56 | the initial graph gives one record, `process_data`, reading Raw Data and writing Processed Data |
| Example.RawName | src/data/initialElements.ts:11 | `Raw Data` canonicalises to `raw_data` |
| Example.ProcessedName | src/data/initialElements.ts:35 | `Processed Data` canonicalises to `processed_data` |
| Example.InitialSignature | src/data/initialElements.ts:17-29 | the initial function record's signature line is `def process_data(raw_data):` |
| Example.InitialBody | src/data/initialElements.ts:26 | the node's code, a whole `def`, is indented one level as the body of the generated function |
| Example.InitialNodeCall | src/data/initialElements.ts:17-29 | the initial function record's call has `inputs=["raw_data"]`, `outputs="processed_data"` and `name="process_data_node"` |
| Example.RecordSingleLine | src/data/initialElements.ts:11-35 | the initial record's function name, description and dataset names hold no line break |
| Example.InitialFiles | src/lib/kedro-service.ts:148-162 | the `nodes.py` and `pipeline.py` built for the initial graph are the files of its one record |
| Example.OneSignature | src/lib/kedro-service.ts:168-235 | a `nodes.py` of one single-line record has eight left-margin lines, the last its `def` |
| Example.OneCallPlaced | src/lib/kedro-service.ts:240-289 | a `pipeline.py` of one record has 24 lines, lines 17 to 19 being its call's inputs, outputs and name |
| Example.InitialNodesFile | src/lib/kedro-service.ts:168-235 | the `nodes.py` built for the initial graph defines `process_data(raw_data)` as its only left-margin `def` |
| Example.InitialPipelineFile | src/lib/kedro-service.ts:240-289 | the `pipeline.py` built for the initial graph calls `node` with `inputs=["raw_data"]`, `outputs="processed_data"` and `name="process_data_node"` on lines 17 to 19 |
| Example.InitialCatalog | src/data/initialElements.ts:5-41 | the catalog names `raw_data` and `processed_data`, in that order |

## Left out

- `generateKedroProject` and `simulateProcess` (src/lib/kedro-service.ts:18-49, 313-316) are left out. They are timers and console logging that always succeed.
- The commented-out file writing at the end of kedro-service.ts is filesystem I/O and is left out.
- `downloadDotFile` (a Blob and DOM download) is left out, as are the rest of the React component in PipelineBuilder.tsx and the other UI files.
- The `EmbedViz` component's `fetch` and its DOT parsing with `graphlib-dot` are network access and a foreign library. The converter starts from the parsed map and edge list.
- `KedroProjectProgress.tsx` is timer-driven animation and is left out.
- Text.Lower: lower-cases ASCII letters only, because full Unicode case mapping is not needed for the properties.
- The white-space class is JavaScript's `\s` set, written out character by character.
- Dot.DotLabel: the label of a node is always a string. The missing-`data` case of `node.data?.label` is not modelled, because both node data types require a label.
- Dot.Sanitize works on characters, where JavaScript works on UTF-16 code units. A character outside the Basic Multilingual Plane becomes one `_` here and two in the browser.
- Viz.GraphToKedroViz: pushes into the one `kedroViz` object are modelled as local sequences, assembled into the result at the end. Aliasing of that object is not modelled.
- Viz.GraphToKedroViz: `modular_pipelines` is modelled as its single `__root__` entry.
- Viz.VizNodeExtras: `layer: null` and `parameters: {}` are modelled as two flags. The JSON values themselves are not.
- The node map of the converter is a sequence of (key, node) pairs in iteration order. Keys are not checked to be distinct, which a JavaScript `Map` guarantees.
- A function node's own `inputs` and `outputs` fields are not modelled. The generators never read them; bindings come from the edges only.
- The generators have no diagnostics, no check that edges join the right kinds of node, and no detection of name collisions. The model has none either; dangling edges are dropped as in the code.
- Dot.DotRoundTrip: requires every label to hold no double quote and no line break. Only the double quote can reach a label: the Name field is a single-line input (src/components/NodeConfigPanel.tsx:101-106), which cannot hold a line break, and the other labels are fixed strings. A label with a double quote ends its DOT string early, because src/components/PipelineBuilder.tsx:169 prints it unescaped; that text is not read back. Node ids and edge ends are generated ids, which hold neither character.
- Dot.NodeLineRead: requires the node's id and label to hold no double quote, for the reason given under Dot.DotRoundTrip.
- CatalogYaml.CatalogTextLines: requires every entry's type, filepath and description to hold no line break. The Description text area (src/components/NodeConfigPanel.tsx:181-186) is offered for dataset nodes too, and a multi-line description puts its later lines at the left margin of `catalog.yml`, outside the comment; that layout is not described.
- Example.OneSignature: requires the record to satisfy NodesPy.SingleLineRecord, for the reason given under NodesPy.NodesMargin; the initial record does (`Example.RecordSingleLine`).
- NodesPy.NodesTextLines: requires every record's function name, description and dataset names to hold no line break. The Description field is a multi-line text area (src/components/NodeConfigPanel.tsx:181-186), and a description with a line break puts its later lines at the left margin of `nodes.py`; that layout is not described.
- NodesPy.NodesMargin: requires the same single-line fields as NodesPy.NodesTextLines, so a multi-line description, whose later lines would count as left-margin lines, is not covered.
- PipelinePy.PipelineTextLines: requires every function name to hold no line break; dataset names are printed canonical, which never holds one.
- PipelinePy.PipelineLayout: requires the same single-line function names as PipelinePy.PipelineTextLines.
- CatalogYaml.CatalogRoundTrip: requires every entry to have a type and a filepath, and no field to hold a line break. An absent type or filepath is written `undefined` and would read back as `Some("undefined")`; every dataset node the builder creates has both (src/components/PipelineBuilder.tsx:88-92). A multi-line description from the text area makes the file unreadable to the model's reader.
- Project.CatalogFileReadsBack: requires every dataset node to be ready for the catalog (`Project.CatalogReady`): a type and a filepath present, and no line break in them or in the description, for the reasons given under CatalogYaml.CatalogRoundTrip.
- The initial function node's code is a whole `def`. The generated body therefore holds a nested definition of the same name, and the generated function itself returns nothing (`Example.InitialBody`). This follows from the data, not from the generator, so it is recorded here rather than corrected.
