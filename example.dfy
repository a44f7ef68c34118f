/** The graph the builder starts with: a raw dataset, one function that
    reads it, and the dataset the function writes. */
module Example {
  import opened Wrappers
  import opened Text
  import opened Graph
  import opened Bindings
  import NodesPy
  import PipelinePy
  import Project

  const RawData: Node := Node("dataset-1", DatasetKind, "Raw Data", Some("pandas.CSVDataSet"),
    Some("data/01_raw/data.csv"), Some("Raw input data"), None, None)

  /** The code of the initial function node, line by line: a whole
      function definition rather than only a body. */
  const CodeLines: seq<string> := ["def process_data(data):", "    # Process the data", "    return data"]

  const ProcessCode: string := Join(CodeLines, "\n")

  const ProcessData: Node := Node("function-1", FunctionKind, "Process Data", None, None,
    Some("Process the raw data"), Some("process_data"), Some(ProcessCode))

  const ProcessedData: Node := Node("dataset-2", DatasetKind, "Processed Data", Some("pandas.ParquetDataSet"),
    Some("data/02_intermediate/" + "processed_data.parquet"), Some("Processed data"), None, None)

  const InitialNodes: seq<Node> := [RawData, ProcessData, ProcessedData]

  const InitialEdges: seq<Edge> := [Edge("edge-1", "dataset-1", "function-1"), Edge("edge-2", "function-1", "dataset-2")]

  const RawInfo: DatasetInfo := DatasetInfoOf(RawData)

  const ProcessedInfo: DatasetInfo := DatasetInfoOf(ProcessedData)

  /** A label of two space-separated words canonicalises to the lower-cased
      words joined by `_`. */
  lemma {:induction false} TwoWords(s: string, a: string, b: string, r: string)
    requires s == a + " " + b && NoWhitespace(a) && NoWhitespace(b) && b != []
    requires r == Lower(a) + "_" + Lower(b)
    ensures Canonical(s) == r
  {
    assert AllWhitespace(" ");
    CanonicalRun(a, " ", b);
    CanonicalOfPlain(b);
  }

  // The words of the initial labels, one literal at a time: a fact about a
  // string literal is checked character by character, and these small
  // lemmas keep the canonicalisation proofs above them cheap.

  lemma {:induction false} DataWord()
    ensures NoWhitespace("Data") && Lower("Data") == "data"
  {
    assert Lower("Data")[0] == 'd';
  }

  lemma {:induction false} RawWord()
    ensures NoWhitespace("Raw") && Lower("Raw") == "raw"
  {
    assert Lower("Raw")[0] == 'r';
  }

  lemma {:induction false} ProcessedWord()
    ensures NoWhitespace("Processed") && Lower("Processed") == "processed"
  {
    LowerAppend("P", "rocessed");
    assert "Processed" == "P" + "rocessed";
    assert Lower("P") == "p";
    LowerOfLower("rocessed");
    assert "p" + "rocessed" == "processed";
  }

  lemma {:induction false} RawName()
    ensures Canonical("Raw Data") == "raw_data"
  {
    RawWord();
    DataWord();
    assert "Raw Data" == "Raw" + " " + "Data";
    assert "raw_data" == "raw" + "_" + "data";
    TwoWords("Raw Data", "Raw", "Data", "raw_data");
  }

  lemma {:induction false} ProcessedName()
    ensures Canonical("Processed Data") == "processed_data"
  {
    ProcessedWord();
    DataWord();
    assert "Processed Data" == "Processed" + " " + "Data";
    assert "processed_data" == "processed" + "_" + "data";
    TwoWords("Processed Data", "Processed", "Data", "processed_data");
  }

  lemma {:induction false} InitialLookup()
    ensures "dataset-1" in NodeMap(InitialNodes) && NodeMap(InitialNodes)["dataset-1"] == RawData
    ensures "dataset-2" in NodeMap(InitialNodes) && NodeMap(InitialNodes)["dataset-2"] == ProcessedData
  {
    NodeMapLast(InitialNodes, 0);
    NodeMapLast(InitialNodes, 2);
  }

  lemma {:induction false} InitialKinds()
    ensures OfKind(InitialNodes, FunctionKind) == [ProcessData]
    ensures OfKind(InitialNodes, DatasetKind) == [RawData, ProcessedData]
  {
    var tail := [ProcessData, ProcessedData];
    var last := [ProcessedData];
    assert InitialNodes[1..] == tail && tail[1..] == last && last[1..] == [];
    assert OfKind(last, FunctionKind) == [];
    assert OfKind(tail, FunctionKind) == [ProcessData];
    assert OfKind(InitialNodes, FunctionKind) == [ProcessData];
    assert OfKind(last, DatasetKind) == [ProcessedData];
    assert OfKind(tail, DatasetKind) == [ProcessedData];
  }

  lemma {:induction false} InitialBindings(m: map<string, Node>)
    requires "dataset-1" in m && m["dataset-1"] == RawData
    requires "dataset-2" in m && m["dataset-2"] == ProcessedData
    ensures Inputs(m, InitialEdges, "function-1") == [RawInfo]
    ensures Outputs(m, InitialEdges, "function-1") == [ProcessedInfo]
  {
    var e1, e2 := InitialEdges[0], InitialEdges[1];
    assert InitialEdges[1..] == [e2] && [e2][1..] == [];
    assert InputOf(m, e1, "function-1") == [RawInfo];
    assert InputOf(m, e2, "function-1") == [];
    assert OutputOf(m, e1, "function-1") == [];
    assert OutputOf(m, e2, "function-1") == [ProcessedInfo];
    assert Inputs(m, [e2], "function-1") == [];
    assert Outputs(m, [e2], "function-1") == [ProcessedInfo];
  }

  /** The one function record: `process_data`, reading the raw dataset and
      writing the processed one. */
  lemma {:induction false} InitialRecords()
    ensures FunctionRecords(InitialNodes, InitialEdges) == [Record]
  {
    InitialLookup();
    InitialKinds();
    InitialBindings(NodeMap(InitialNodes));
    assert [ProcessData][1..] == [];
  }

  const Record: FunctionInfo := FunctionInfo("function-1", "Process Data", "process_data", Some(ProcessCode),
                                             Some("Process the raw data"), [RawInfo], [ProcessedInfo])

  lemma {:induction false} ParamsRaw()
    ensures NodesPy.Params(Record.inputs) == "raw_data"
  {
    InfoNames();
    assert MapSeq([RawInfo], NodesPy.ParamName) == ["raw_data"];
  }

  /** The record's signature line is `def process_data(raw_data):`. */
  lemma {:induction false} InitialSignature()
    ensures NodesPy.Signature(Record) == "def " + "process_data" + "(" + "raw_data" + "):"
  {
    ParamsRaw();
    assert Record.functionName == "process_data";
  }

  /** The node's code is not blank, so it becomes the function's body. */
  lemma {:induction false} InitialHasCode()
    ensures NodesPy.HasCode(Record)
  {
    CodeNotBlank();
  }

  lemma {:induction false} CodeNotBlank()
    ensures Trim(ProcessCode) != ""
  {
    TrimEmpty(ProcessCode);
    assert ProcessCode == CodeLines[0] + "\n" + Join(CodeLines[1..], "\n");
    assert ProcessCode[0] == 'd' && !IsWhitespace('d');
  }

  lemma {:induction false} CodeSplit()
    ensures Split(ProcessCode, '\n') == CodeLines
  {
    assert forall k :: 0 <= k < |CodeLines| ==> '\n' !in CodeLines[k];
    SplitJoin(CodeLines, '\n');
  }

  /** The body of the generated `process_data` is the node's code indented
      one level, so the user's own `def process_data(data):` ends up nested
      inside the generated function of the same name. */
  lemma {:induction false} InitialBody()
    ensures NodesPy.BodyLines(Record)
         == ["    " + "def process_data(data):", "    " + "    # Process the data", "    " + "    return data"]
  {
    CodeNotBlank();
    CodeSplit();
  }

  lemma {:induction false} InfoNames()
    ensures Canonical(RawInfo.name) == "raw_data"
    ensures Canonical(ProcessedInfo.name) == "processed_data"
  {
    assert RawInfo.name == "Raw Data";
    assert ProcessedInfo.name == "Processed Data";
    RawName();
    ProcessedName();
  }

  lemma {:induction false} RawQuoted()
    ensures PipelinePy.Quoted(RawInfo) == "\"" + "raw_data" + "\""
  {
    InfoNames();
    QuotedBy(RawInfo, "raw_data");
  }

  lemma {:induction false} ProcessedQuoted()
    ensures PipelinePy.Quoted(ProcessedInfo) == "\"" + "processed_data" + "\""
  {
    InfoNames();
    QuotedBy(ProcessedInfo, "processed_data");
  }

  lemma {:induction false} QuotedBy(d: DatasetInfo, c: string)
    requires Canonical(d.name) == c
    ensures PipelinePy.Quoted(d) == "\"" + c + "\""
  {
  }

  /** The record's call wires the node to the datasets by their canonical names. */
  lemma {:induction false} InitialNodeCall()
    ensures PipelinePy.NodeLines(Record)[2] == PipelinePy.InputsLine("\"" + "raw_data" + "\"")
    ensures PipelinePy.NodeLines(Record)[3] == PipelinePy.OutputsLine("\"" + "processed_data" + "\"")
    ensures PipelinePy.NodeLines(Record)[4] == PipelinePy.NameLine("process_data")
  {
    RawQuoted();
    ProcessedQuoted();
    assert PipelinePy.QuotedList([RawInfo]) == PipelinePy.Quoted(RawInfo);
    assert PipelinePy.OutputsValue(Record) == PipelinePy.Quoted(ProcessedInfo);
  }

  // The printed fields of the initial record, two literals at a time, for
  // the same reason as the word lemmas above.

  lemma {:induction false} ShortNamesSingle()
    ensures '\n' !in "Raw Data" && '\n' !in "process_data"
  {
  }

  lemma {:induction false} LongNamesSingle()
    ensures '\n' !in "Processed Data" && '\n' !in "Process the raw data"
  {
  }

  /** The record's printed fields hold no line break, so both Python files
      have the line layout their generators promise. */
  lemma {:induction false} RecordSingleLine()
    ensures NodesPy.SingleLineRecord(Record) && PipelinePy.SingleLineName(Record)
  {
    ShortNamesSingle();
    LongNamesSingle();
    assert Record.inputs == [RawInfo] && RawInfo.name == "Raw Data";
    assert Record.outputs == [ProcessedInfo] && ProcessedInfo.name == "Processed Data";
  }

  lemma {:induction false} FilesOf(nodes: seq<Node>, edges: seq<Edge>, fs: seq<FunctionInfo>)
    requires FunctionRecords(nodes, edges) == fs
    ensures Project.StructureOf(nodes, edges).nodesPyCode == NodesPy.NodesText(fs)
    ensures Project.StructureOf(nodes, edges).pipelinePyCode == PipelinePy.PipelineText(fs)
  {
  }

  /** The initial graph's Python files are the files of its one record. */
  lemma {:induction false} InitialFiles()
    ensures Project.StructureOf(InitialNodes, InitialEdges).nodesPyCode == NodesPy.NodesText([Record])
    ensures Project.StructureOf(InitialNodes, InitialEdges).pipelinePyCode == PipelinePy.PipelineText([Record])
  {
    InitialRecords();
    FilesOf(InitialNodes, InitialEdges, [Record]);
  }

  /** With one record, its call's argument lines are lines 17 to 19 of 24. */
  lemma {:induction false} OneCallPlaced(f: FunctionInfo)
    requires PipelinePy.SingleLineName(f)
    ensures var ls := Split(PipelinePy.PipelineText([f]), '\n');
      && |ls| == 24
      && ls[17] == PipelinePy.NodeLines(f)[2] && ls[18] == PipelinePy.NodeLines(f)[3]
      && ls[19] == PipelinePy.NodeLines(f)[4]
  {
    PipelinePy.PipelineLayout([f]);
    FirstBlock(Split(PipelinePy.PipelineText([f]), '\n'), [f]);
  }

  lemma {:induction false} FirstBlock(ls: seq<string>, fs: seq<FunctionInfo>)
    requires |fs| == 1 && |ls| == 18 + 6 * |fs|
    requires forall k, j :: 0 <= k < |fs| && 0 <= j < 6 ==> ls[15 + 6 * k + j] == PipelinePy.NodeLines(fs[k])[j]
    ensures |ls| == 24
    ensures ls[17] == PipelinePy.NodeLines(fs[0])[2] && ls[18] == PipelinePy.NodeLines(fs[0])[3]
    ensures ls[19] == PipelinePy.NodeLines(fs[0])[4]
  {
    assert ls[15 + 6 * 0 + 2] == PipelinePy.NodeLines(fs[0])[2];
    assert ls[15 + 6 * 0 + 3] == PipelinePy.NodeLines(fs[0])[3];
    assert ls[15 + 6 * 0 + 4] == PipelinePy.NodeLines(fs[0])[4];
  }

  /** With one record, its signature is the eighth left-margin line, after
      the seven of the header. */
  lemma {:induction false} OneSignature(f: FunctionInfo)
    requires NodesPy.SingleLineRecord(f)
    ensures var m := NodesPy.MarginLines(Split(NodesPy.NodesText([f]), '\n'));
      |m| == 8 && m[7] == NodesPy.Signature(f)
  {
    NodesPy.NodesMargin([f]);
    assert |NodesPy.HeaderLines[..7]| == 7;
  }

  /** The `nodes.py` generated for the initial graph defines
      `process_data(raw_data)`: its only `def` at the left margin. */
  lemma {:induction false} InitialNodesFile()
    ensures var m := NodesPy.MarginLines(Split(Project.StructureOf(InitialNodes, InitialEdges).nodesPyCode, '\n'));
      |m| == 8 && m[7] == "def " + "process_data" + "(" + "raw_data" + "):"
  {
    InitialFiles();
    RecordSingleLine();
    OneSignature(Record);
    InitialSignature();
  }

  /** The `pipeline.py` generated for the initial graph has one node call,
      wired to the datasets by their canonical names. */
  lemma {:induction false} InitialPipelineFile()
    ensures var ls := Split(Project.StructureOf(InitialNodes, InitialEdges).pipelinePyCode, '\n');
      && |ls| == 24
      && ls[17] == PipelinePy.InputsLine("\"" + "raw_data" + "\"")
      && ls[18] == PipelinePy.OutputsLine("\"" + "processed_data" + "\"")
      && ls[19] == PipelinePy.NameLine("process_data")
  {
    InitialFiles();
    RecordSingleLine();
    OneCallPlaced(Record);
    InitialNodeCall();
  }

  /** The catalog names the two datasets `raw_data` and `processed_data`. */
  lemma {:induction false} InitialCatalog()
    ensures |Catalog(InitialNodes)| == 2
    ensures Catalog(InitialNodes)[0].name == "raw_data"
    ensures Catalog(InitialNodes)[1].name == "processed_data"
  {
    InitialKinds();
    var ds := [RawData, ProcessedData];
    CatalogEntryAt(ds, 0);
    CatalogEntryAt(ds, 1);
    assert RawData.labelText == "Raw Data";
    assert ProcessedData.labelText == "Processed Data";
    RawName();
    ProcessedName();
  }

}
