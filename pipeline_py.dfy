/** `generatePipelinePyCode`: the text of `pipeline.py`, a `create_pipeline`
    function whose pipeline holds one `node(...)` call per function record. */
module PipelinePy {
  import opened Text
  import opened Bindings

  // A fixed line longer than forty characters is written as two adjacent
  // literals; together they are the one line the generator prints (see
  // "Facts about the fixed text" below).

  /** The module docstring and the Kedro import, before the import of the
      node functions. */
  const PreImport: seq<string> := [
    "\"\"\"",
    "This is a generated Kedro" + " pipeline definition.",
    "Generated by Kedro Pipeline Painter.",
    "\"\"\"",
    "from kedro.pipeline import" + " Pipeline, node, pipeline"]

  /** From the blank line after the imports to the opening of the node list. */
  const PostImport: seq<string> := [
    "",
    "def create_pipeline(**kwargs)" + " -> Pipeline:",
    "    \"\"\"Create the project's pipeline.",
    "    ",
    "    Returns:",
    "        Pipeline: The pipeline" + " definition.",
    "    \"\"\"",
    "    return pipeline(",
    "        ["]

  function FunctionNameOf(f: FunctionInfo): string { f.functionName }

  /** `from .nodes import` every function, in record order. */
  function ImportLine(fs: seq<FunctionInfo>): string {
    "from .nodes import " + Join(MapSeq(fs, FunctionNameOf), ", ")
  }

  function HeaderLines(fs: seq<FunctionInfo>): seq<string> {
    PreImport + [ImportLine(fs)] + PostImport
  }

  /** The text before the first node (lines 241-256). */
  function Header(fs: seq<FunctionInfo>): string {
    Unlines(HeaderLines(fs))
  }

  const FooterLines: seq<string> := ["        ]", "    )"]

  /** The text after the last node (lines 284-286). */
  const Footer: string := Unlines(FooterLines)

  /** A dataset's canonical name as a Python string literal. */
  function Quoted(d: DatasetInfo): string { "\"" + Canonical(d.name) + "\"" }

  /** The quoted canonical names of some datasets, joined by `, `. */
  function QuotedList(ds: seq<DatasetInfo>): string { Join(MapSeq(ds, Quoted), ", ") }

  /** The `outputs=` value: one quoted name, a list of them, or `None`. */
  function OutputsValue(f: FunctionInfo): string {
    if |f.outputs| == 1 then Quoted(f.outputs[0])
    else if |f.outputs| > 1 then "[" + QuotedList(f.outputs) + "]"
    else "None"
  }

  const NodeOpen: string := "            node("

  const NodeClose: string := "            ),"

  /** The indentation of a node's arguments. */
  const ArgIndent: string := "                "

  function FuncLine(fn: string): string { ArgIndent + "func=" + fn + "," }

  function InputsLine(inputs: string): string { ArgIndent + "inputs=[" + inputs + "]," }

  function OutputsLine(outputs: string): string { ArgIndent + "outputs=" + outputs + "," }

  function NameLine(fn: string): string { ArgIndent + "name=\"" + fn + "_node\"," }

  /** The `node(...)` call of lines 276-281 for a function name and the
      rendered inputs and outputs. */
  function NodeBlock(fn: string, inputs: string, outputs: string): string {
    NodeOpen + "\n" + FuncLine(fn) + "\n" + InputsLine(inputs) + "\n" + OutputsLine(outputs) + "\n"
    + NameLine(fn) + "\n" + NodeClose + "\n"
  }

  function NodeText(f: FunctionInfo): string {
    NodeBlock(f.functionName, QuotedList(f.inputs), OutputsValue(f))
  }

  /** The whole module for a list of function records. */
  function PipelineText(fs: seq<FunctionInfo>): string {
    Header(fs) + ConcatMap(fs, NodeText) + Footer
  }

  /** Lines 241-289: the header, a `forEach` that appends each node, and
      the footer. */
  method GeneratePipelinePyCode(fs: seq<FunctionInfo>) returns (code: string)
    ensures code == PipelineText(fs)
  {
    code := Header(fs);
    for i := 0 to |fs|
      invariant code == Header(fs) + ConcatMap(fs[..i], NodeText)
    {
      var f := fs[i];
      var inputs := QuotedList(f.inputs);
      var outputs: string;
      if |f.outputs| == 1 {
        outputs := Quoted(f.outputs[0]);
      } else if |f.outputs| > 1 {
        outputs := "[" + QuotedList(f.outputs) + "]";
      } else {
        outputs := "None";
      }
      assert NodeBlock(f.functionName, inputs, outputs) == NodeText(f);
      code := code + NodeBlock(f.functionName, inputs, outputs);
      PrefixedSnoc(Header(fs), fs, i, NodeText);
    }
    assert fs[..|fs|] == fs;
    code := code + Footer;
  }

  // ---------------------------------------------------------------------
  // Facts about the fixed text
  // ---------------------------------------------------------------------

  // The lemmas below state, one or two literals at a time, that the fixed
  // lines hold no line break (or start with a space). They carry no idea of
  // their own: a fact about a string literal is checked character by
  // character, and keeping each literal short and each such fact in a small
  // lemma of its own keeps the proofs that use them cheap. For the same
  // reason a fixed line longer than forty characters is written as two
  // adjacent literals; together they are the one line the generator prints.

  lemma {:induction false} PreImportSingle()
    ensures SingleLines(PreImport)
  {
    PreImportSingleFront();
    PreImportSingleBack();
  }

  lemma {:induction false} PreImportSingleFront()
    ensures forall k :: 0 <= k < 3 ==> '\n' !in PreImport[k]
  {
    PreImportTitle();
    assert '\n' !in PreImport[0];
    assert '\n' !in PreImport[2];
  }

  lemma {:induction false} PreImportTitle()
    ensures '\n' !in PreImport[1]
  {
    var a, b := "This is a generated Kedro", " pipeline definition.";
    assert '\n' !in a;
    assert '\n' !in b;
    assert PreImport[1] == a + b;
  }

  lemma {:induction false} PreImportSingleBack()
    ensures forall k :: 3 <= k < 5 ==> '\n' !in PreImport[k]
  {
    PreImportKedro();
    assert '\n' !in PreImport[3];
  }

  lemma {:induction false} PreImportKedro()
    ensures '\n' !in PreImport[4]
  {
    var a, b := "from kedro.pipeline import", " Pipeline, node, pipeline";
    assert '\n' !in a;
    assert '\n' !in b;
    assert PreImport[4] == a + b;
  }

  lemma {:induction false} PostImportSingle()
    ensures SingleLines(PostImport)
  {
    PostImportSingleA();
    PostImportSingleB();
    PostImportSingleC();
  }

  lemma {:induction false} PostImportSingleA()
    ensures forall k :: 0 <= k < 3 ==> '\n' !in PostImport[k]
  {
    PostImportDef();
    assert '\n' !in PostImport[0];
    assert '\n' !in PostImport[2];
  }

  lemma {:induction false} PostImportDef()
    ensures '\n' !in PostImport[1]
  {
    var a, b := "def create_pipeline(**kwargs)", " -> Pipeline:";
    assert '\n' !in a;
    assert '\n' !in b;
    assert PostImport[1] == a + b;
  }

  lemma {:induction false} PostImportSingleB()
    ensures forall k :: 3 <= k < 6 ==> '\n' !in PostImport[k]
  {
    PostImportReturns();
    assert '\n' !in PostImport[3];
    assert '\n' !in PostImport[4];
  }

  lemma {:induction false} PostImportReturns()
    ensures '\n' !in PostImport[5]
  {
    var a, b := "        Pipeline: The pipeline", " definition.";
    assert '\n' !in a;
    assert '\n' !in b;
    assert PostImport[5] == a + b;
  }

  lemma {:induction false} PostImportSingleC()
    ensures forall k :: 6 <= k < 9 ==> '\n' !in PostImport[k]
  {
    assert '\n' !in PostImport[6];
    assert '\n' !in PostImport[7];
    assert '\n' !in PostImport[8];
  }

  // ---------------------------------------------------------------------
  // The module, line by line
  // ---------------------------------------------------------------------

  /** The six lines of one `node(...)` call. */
  function NodeLines(f: FunctionInfo): seq<string> {
    [NodeOpen, FuncLine(f.functionName), InputsLine(QuotedList(f.inputs)), OutputsLine(OutputsValue(f)),
     NameLine(f.functionName), NodeClose]
  }

  lemma {:induction false} SixLines(a: string, b: string, c: string, d: string, e: string, g: string)
    ensures a + "\n" + b + "\n" + c + "\n" + d + "\n" + e + "\n" + g + "\n" == Unlines([a, b, c, d, e, g])
  {
    UnlinesAppend([a, b, c], [d, e, g]);
    assert [a, b, c] + [d, e, g] == [a, b, c, d, e, g];
    ThreeLines(a, b, c);
    ThreeLines(d, e, g);
    var x := a + "\n" + b + "\n" + c + "\n";
    RegroupLines(x, d, e, g, "\n");
  }

  lemma {:induction false} ThreeLines(a: string, b: string, c: string)
    ensures Unlines([a, b, c]) == a + "\n" + b + "\n" + c + "\n"
  {
    UnlinesCons(a, [b, c]);
    UnlinesCons(b, [c]);
    UnlinesCons(c, []);
    assert [a, b, c] == [a] + [b, c];
    assert [b, c] == [b] + [c];
    assert [c] == [c] + [];
  }

  lemma {:induction false} NodeTextLines(f: FunctionInfo)
    ensures NodeText(f) == Unlines(NodeLines(f))
  {
    SixLines(NodeOpen, FuncLine(f.functionName), InputsLine(QuotedList(f.inputs)), OutputsLine(OutputsValue(f)),
             NameLine(f.functionName), NodeClose);
  }

  /** The one record field `pipeline.py` prints as given holds no line
      break; dataset names are printed canonical, which never holds one. */
  predicate SingleLineName(f: FunctionInfo) {
    '\n' !in f.functionName
  }

  lemma {:induction false} QuotedListSingleLine(ds: seq<DatasetInfo>)
    ensures '\n' !in QuotedList(ds)
  {
    forall k | 0 <= k < |ds| ensures '\n' !in MapSeq(ds, Quoted)[k] {
      CanonicalSingleLine(ds[k].name);
    }
    JoinAvoids(MapSeq(ds, Quoted), ", ", '\n');
  }

  lemma {:induction false} FixedPartsSingle()
    ensures '\n' !in NodeOpen && '\n' !in NodeClose && '\n' !in ArgIndent
  {
  }

  lemma {:induction false} FuncLineSingle(fn: string)
    requires '\n' !in fn
    ensures '\n' !in FuncLine(fn) && '\n' !in NameLine(fn)
  {
    FixedPartsSingle();
  }

  lemma {:induction false} InputsLineSingle(f: FunctionInfo)
    requires SingleLineName(f)
    ensures '\n' !in InputsLine(QuotedList(f.inputs))
  {
    FixedPartsSingle();
    QuotedListSingleLine(f.inputs);
  }

  lemma {:induction false} OutputsLineSingle(f: FunctionInfo)
    requires SingleLineName(f)
    ensures '\n' !in OutputsLine(OutputsValue(f))
  {
    FixedPartsSingle();
    QuotedListSingleLine(f.outputs);
    if |f.outputs| == 1 {
      CanonicalSingleLine(f.outputs[0].name);
    }
  }

  lemma {:induction false} NodeLinesSingle(f: FunctionInfo)
    requires SingleLineName(f)
    ensures SingleLines(NodeLines(f))
  {
    FixedPartsSingle();
    FuncLineSingle(f.functionName);
    InputsLineSingle(f);
    OutputsLineSingle(f);
  }

  lemma {:induction false} HeaderSingle(fs: seq<FunctionInfo>)
    requires forall i :: 0 <= i < |fs| ==> '\n' !in fs[i].functionName
    ensures SingleLines(HeaderLines(fs))
  {
    PreImportSingle();
    PostImportSingle();
    forall k | 0 <= k < |fs| ensures '\n' !in MapSeq(fs, FunctionNameOf)[k] {
    }
    JoinAvoids(MapSeq(fs, FunctionNameOf), ", ", '\n');
    assert SingleLines([ImportLine(fs)]);
    SingleLinesAppend(PreImport, [ImportLine(fs)]);
    SingleLinesAppend(PreImport + [ImportLine(fs)], PostImport);
  }

  lemma {:induction false} FooterSingle()
    ensures SingleLines(FooterLines)
  {
    assert '\n' !in FooterLines[0] && '\n' !in FooterLines[1];
  }

  /** Split at line breaks, the module is the fifteen header lines, six
      lines per function record in record order, and the two closing lines. */
  lemma {:induction false} PipelineTextLines(fs: seq<FunctionInfo>)
    requires forall i :: 0 <= i < |fs| ==> SingleLineName(fs[i])
    ensures Split(PipelineText(fs), '\n') == HeaderLines(fs) + FlatMap(fs, NodeLines) + FooterLines + [""]
  {
    PipelineUnlines(fs);
    PipelineSingle(fs);
    SplitUnlines(HeaderLines(fs) + FlatMap(fs, NodeLines) + FooterLines);
  }

  lemma {:induction false} PipelineUnlines(fs: seq<FunctionInfo>)
    ensures PipelineText(fs) == Unlines(HeaderLines(fs) + FlatMap(fs, NodeLines) + FooterLines)
  {
    forall f ensures NodeText(f) == Unlines(NodeLines(f)) {
      NodeTextLines(f);
    }
    ConcatMapUnlines(fs, NodeText, NodeLines);
    UnlinesAppend(HeaderLines(fs), FlatMap(fs, NodeLines));
    UnlinesAppend(HeaderLines(fs) + FlatMap(fs, NodeLines), FooterLines);
  }

  lemma {:induction false} PipelineSingle(fs: seq<FunctionInfo>)
    requires forall i :: 0 <= i < |fs| ==> SingleLineName(fs[i])
    ensures SingleLines(HeaderLines(fs) + FlatMap(fs, NodeLines) + FooterLines)
  {
    forall i | 0 <= i < |fs| ensures SingleLines(NodeLines(fs[i])) {
      NodeLinesSingle(fs[i]);
    }
    FlatMapSingleLines(fs, NodeLines);
    HeaderSingle(fs);
    FooterSingle();
    SingleLinesAppend(HeaderLines(fs), FlatMap(fs, NodeLines));
    SingleLinesAppend(HeaderLines(fs) + FlatMap(fs, NodeLines), FooterLines);
  }

  /** Where everything sits: line 5 imports every function, the k-th
      record's call fills lines 15 + 6k to 20 + 6k, and the node list closes
      on the two lines after the last call. */
  lemma {:induction false} PipelineLayout(fs: seq<FunctionInfo>)
    requires forall i :: 0 <= i < |fs| ==> SingleLineName(fs[i])
    ensures var ls := Split(PipelineText(fs), '\n');
      && |ls| == 18 + 6 * |fs|
      && ls[5] == ImportLine(fs)
      && (forall k, j :: 0 <= k < |fs| && 0 <= j < 6 ==> ls[15 + 6 * k + j] == NodeLines(fs[k])[j])
      && ls[15 + 6 * |fs|] == FooterLines[0] && ls[16 + 6 * |fs|] == FooterLines[1]
  {
    PipelineTextLines(fs);
    HeaderShape(fs);
    var body := FlatMap(fs, NodeLines);
    BodyBlocks(fs);
    Placed(HeaderLines(fs), body, FooterLines);
    var ls := HeaderLines(fs) + body + FooterLines + [""];
    forall k, j | 0 <= k < |fs| && 0 <= j < 6
      ensures ls[15 + 6 * k + j] == NodeLines(fs[k])[j]
    {
      var p := 6 * k + j;
      assert ls[15 + p] == body[p];
    }
  }

  lemma {:induction false} NodeLinesSix(fs: seq<FunctionInfo>)
    ensures forall k :: 0 <= k < |fs| ==> |NodeLines(fs[k])| == 6
  {
  }

  lemma {:induction false} NodeBlockAt(fs: seq<FunctionInfo>, k: nat, j: nat)
    requires k < |fs| && j < 6
    ensures 6 * k + j < |FlatMap(fs, NodeLines)| && FlatMap(fs, NodeLines)[6 * k + j] == NodeLines(fs[k])[j]
  {
    NodeLinesSix(fs);
    FlatMapBlock(fs, NodeLines, 6, k, j);
  }

  /** The k-th record's six lines sit at 6k to 6k + 5 of the node lines. */
  lemma {:induction false} BodyBlocks(fs: seq<FunctionInfo>)
    ensures |FlatMap(fs, NodeLines)| == 6 * |fs|
    ensures forall k, j :: 0 <= k < |fs| && 0 <= j < 6 ==>
      6 * k + j < |FlatMap(fs, NodeLines)| && FlatMap(fs, NodeLines)[6 * k + j] == NodeLines(fs[k])[j]
  {
    NodeLinesSix(fs);
    FlatMapUniform(fs, NodeLines, 6);
    forall k, j | 0 <= k < |fs| && 0 <= j < 6
      ensures 6 * k + j < |FlatMap(fs, NodeLines)| && FlatMap(fs, NodeLines)[6 * k + j] == NodeLines(fs[k])[j]
    {
      NodeBlockAt(fs, k, j);
    }
  }

  lemma {:induction false} HeaderShape(fs: seq<FunctionInfo>)
    ensures |HeaderLines(fs)| == 15 && HeaderLines(fs)[5] == ImportLine(fs)
  {
  }

  lemma {:induction false} Placed(h: seq<string>, body: seq<string>, t: seq<string>)
    requires |h| == 15 && |t| == 2
    ensures var ls := h + body + t + [""];
      && |ls| == 18 + |body|
      && ls[5] == h[5]
      && (forall p :: 0 <= p < |body| ==> ls[15 + p] == body[p])
      && ls[15 + |body|] == t[0] && ls[16 + |body|] == t[1]
  {
  }

  // ---------------------------------------------------------------------
  // The `outputs=` value
  // ---------------------------------------------------------------------

  /** The three shapes of the `outputs=` value are told apart by their
      first characters, and each belongs to one output count: a quoted
      name for one output, a bracketed list for more, `None` for none. */
  lemma {:induction false} OutputsShape(f: FunctionInfo)
    ensures OutputsValue(f) == "None" <==> |f.outputs| == 0
    ensures OutputsValue(f)[0] == '"' <==> |f.outputs| == 1
    ensures OutputsValue(f)[0] == '[' <==> |f.outputs| > 1
  {
    var v := OutputsValue(f);
    if |f.outputs| == 1 {
      assert v == "\"" + Canonical(f.outputs[0].name) + "\"";
      assert v[0] == '"';
      assert v != "None";
    } else if |f.outputs| > 1 {
      assert v == "[" + QuotedList(f.outputs) + "]";
      assert v[0] == '[';
      assert v != "None";
    } else {
      assert v == "None";
    }
  }

  /** Where the k-th name sits in a quoted list. */
  function ListOffset(ds: seq<DatasetInfo>, k: nat): nat
    requires k <= |ds|
  {
    JoinOffset(MapSeq(ds, Quoted), ", ", k)
  }

  /** A quoted list holds every dataset's quoted canonical name, each before
      the names of the later datasets. */
  lemma {:induction false} QuotedListed(ds: seq<DatasetInfo>)
    ensures forall k :: 0 <= k < |ds| ==> OccursAt(QuotedList(ds), ListOffset(ds, k), Quoted(ds[k]))
    ensures forall j, k :: 0 <= j < k < |ds| ==> ListOffset(ds, j) + |Quoted(ds[j])| < ListOffset(ds, k)
  {
    var qs := MapSeq(ds, Quoted);
    forall k | 0 <= k < |ds| ensures OccursAt(QuotedList(ds), ListOffset(ds, k), Quoted(ds[k])) {
      JoinAt(qs, ", ", k);
    }
    forall j, k | 0 <= j < k < |ds| ensures ListOffset(ds, j) + |Quoted(ds[j])| < ListOffset(ds, k) {
      JoinOrdered(qs, ", ", j, k);
    }
  }

  /** A bracketed `outputs=` list holds every output's quoted canonical name,
      in binding order, between `[` and `]`. */
  lemma {:induction false} OutputsListed(f: FunctionInfo)
    requires |f.outputs| > 1
    ensures OutputsValue(f)[0] == '[' && OutputsValue(f)[|OutputsValue(f)| - 1] == ']'
    ensures forall k :: 0 <= k < |f.outputs| ==> OccursAt(OutputsValue(f), 1 + ListOffset(f.outputs, k), Quoted(f.outputs[k]))
    ensures forall j, k :: 0 <= j < k < |f.outputs| ==>
              ListOffset(f.outputs, j) + |Quoted(f.outputs[j])| < ListOffset(f.outputs, k)
  {
    var q := QuotedList(f.outputs);
    ListValue(f);
    QuotedListed(f.outputs);
    forall k | 0 <= k < |f.outputs| ensures OccursAt(OutputsValue(f), 1 + ListOffset(f.outputs, k), Quoted(f.outputs[k])) {
      OccursBracketed(q, ListOffset(f.outputs, k), Quoted(f.outputs[k]));
    }
  }

  lemma {:induction false} ListValue(f: FunctionInfo)
    requires |f.outputs| > 1
    ensures var v := OutputsValue(f);
      && v == "[" + QuotedList(f.outputs) + "]"
      && v[0] == '[' && v[|v| - 1] == ']'
  {
  }
}
