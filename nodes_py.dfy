/** `generateNodesPyCode`: the text of `nodes.py`, one Python function per
    function record after a fixed module header. */
module NodesPy {
  import opened Wrappers
  import opened Text
  import opened Bindings

  // A fixed line longer than forty characters is written as two adjacent
  // literals; together they are the one line the generator prints (see
  // "Facts about the fixed text" below).

  const HeaderLines: seq<string> := [
    "\"\"\"",
    "This module contains node functions" + " for the pipeline.",
    "Generated by Kedro Pipeline Painter.",
    "\"\"\"",
    "from typing import Dict, Any, List",
    "import pandas as pd",
    "import numpy as np",
    ""]

  /** The module docstring and imports, followed by a blank line. */
  const Header: string := Unlines(HeaderLines)

  /** The docstring summary of a function without a description. */
  const DefaultSummary: string := "Process the input data" + " and return the result."

  /** A dataset's name as a Python parameter or result name. */
  function ParamName(d: DatasetInfo): string { Canonical(d.name) }

  /** The canonical names of some datasets, joined by `, `. */
  function Params(ds: seq<DatasetInfo>): string { Join(MapSeq(ds, ParamName), ", ") }

  function Summary(f: FunctionInfo): string {
    if Truthy(f.description) then f.description.value else DefaultSummary
  }

  function Signature(f: FunctionInfo): string {
    "def " + f.functionName + "(" + Params(f.inputs) + "):"
  }

  function ArgLine(d: DatasetInfo): string {
    "        " + ParamName(d) + ": Input data from " + d.name + "."
  }

  function ReturnLine(d: DatasetInfo): string {
    "        " + ParamName(d) + ": Output data for " + d.name + "."
  }

  const ProcessedLine: string := "        Processed data."

  /** The docstring's quotes, indented into the function. */
  const DocQuotes: string := "    \"\"\""

  /** The docstring's blank lines: four spaces. */
  const DocBlank: string := "    "

  const ArgsLabel: string := "    Args:"

  const ReturnsLabel: string := "    Returns:"

  const ReturnPrefix: string := "    return "

  const TodoLine: string := "    # TODO: Implement the function"

  /** The signature and the docstring up to `Args:` (lines 187-190). */
  function Opening(f: FunctionInfo): string {
    Signature(f) + "\n" + DocQuotes + Summary(f) + "\n" + DocBlank + "\n" + ArgsLabel
  }

  /** The text one input adds to the `Args` section. */
  function ArgDoc(d: DatasetInfo): string { "\n" + ArgLine(d) }

  const ReturnsHead: string := "\n" + DocBlank + "\n" + ReturnsLabel

  /** The text one output adds to the `Returns` section. */
  function ReturnDoc(d: DatasetInfo): string { "\n" + ReturnLine(d) }

  /** The `Returns` section: one generic line for a single output, a line
      per output otherwise. */
  function ReturnsDoc(f: FunctionInfo): string {
    if |f.outputs| == 1 then "\n" + ProcessedLine else ConcatMap(f.outputs, ReturnDoc)
  }

  const DocClose: string := "\n" + DocQuotes

  /** `node.code && node.code.trim()`: the record carries code with a
      character that is not white space. */
  predicate HasCode(f: FunctionInfo) {
    f.code.Some? && Trim(f.code.value) != ""
  }

  /** What the placeholder body returns: the input parameters for a single
      output, the canonical output names otherwise. */
  function Placeholder(f: FunctionInfo): string {
    if |f.outputs| == 1 then Params(f.inputs) else Params(f.outputs)
  }

  /** The function body and the blank line after it (lines 214-231). */
  function Body(f: FunctionInfo): string {
    if HasCode(f) then "\n" + IndentLines(f.code.value) + "\n\n"
    else "\n" + TodoLine + "\n" + ReturnPrefix + Placeholder(f) + "\n\n"
  }

  /** Everything one function record adds to the module. */
  function FunctionText(f: FunctionInfo): string {
    Opening(f) + ConcatMap(f.inputs, ArgDoc) + ReturnsHead + ReturnsDoc(f) + DocClose + Body(f)
  }

  /** The whole module for a list of function records. */
  function NodesText(fs: seq<FunctionInfo>): string {
    Header + ConcatMap(fs, FunctionText)
  }

  /** The `forEach` of lines 180-232. */
  method GenerateNodesPyCode(fs: seq<FunctionInfo>) returns (code: string)
    ensures code == NodesText(fs)
  {
    code := Header;
    for i := 0 to |fs|
      invariant code == NodesText(fs[..i])
    {
      code := AppendFunction(code, fs[i]);
      NodesTextSnoc(fs, i);
    }
    assert fs[..|fs|] == fs;
  }

  lemma {:induction false} NodesTextSnoc(fs: seq<FunctionInfo>, i: nat)
    requires i < |fs|
    ensures NodesText(fs[..i + 1]) == NodesText(fs[..i]) + FunctionText(fs[i])
  {
    PrefixedSnoc(Header, fs, i, FunctionText);
  }

  /** One pass of that loop: the signature and docstring, with inner loops
      over the inputs and the outputs, then the body. */
  method AppendFunction(start: string, f: FunctionInfo) returns (code: string)
    ensures code == start + FunctionText(f)
  {
    code := start + Opening(f);
    for j := 0 to |f.inputs|
      invariant code == start + Opening(f) + ConcatMap(f.inputs[..j], ArgDoc)
    {
      code := code + ArgDoc(f.inputs[j]);
      PrefixedSnoc(start + Opening(f), f.inputs, j, ArgDoc);
    }
    assert f.inputs[..|f.inputs|] == f.inputs;
    code := code + ReturnsHead;
    ghost var docs := code;
    if |f.outputs| == 1 {
      code := code + "\n" + ProcessedLine;
    } else {
      for j := 0 to |f.outputs|
        invariant code == docs + ConcatMap(f.outputs[..j], ReturnDoc)
      {
        code := code + ReturnDoc(f.outputs[j]);
        PrefixedSnoc(docs, f.outputs, j, ReturnDoc);
      }
      assert f.outputs[..|f.outputs|] == f.outputs;
    }
    Associate3(docs, "\n", ProcessedLine);
    assert code == docs + ReturnsDoc(f);
    code := code + DocClose;
    ghost var closed := code;
    var tail: string;
    if f.code.Some? && Trim(f.code.value) != "" {
      var indented := IndentLines(f.code.value);
      tail := "\n" + indented + "\n\n";
    } else if |f.outputs| == 1 {
      tail := "\n" + TodoLine + "\n" + ReturnPrefix + Params(f.inputs) + "\n\n";
    } else {
      var outputs := Params(f.outputs);
      tail := "\n" + TodoLine + "\n" + ReturnPrefix + outputs + "\n\n";
    }
    assert tail == Body(f);
    code := code + tail;
    FunctionTextAfter(start, f);
  }

  lemma {:induction false} FunctionTextAfter(start: string, f: FunctionInfo)
    ensures start + FunctionText(f)
         == start + Opening(f) + ConcatMap(f.inputs, ArgDoc) + ReturnsHead + ReturnsDoc(f) + DocClose + Body(f)
  {
    AssociateSix(start, Opening(f), ConcatMap(f.inputs, ArgDoc), ReturnsHead, ReturnsDoc(f), DocClose, Body(f));
  }

  // ---------------------------------------------------------------------
  // Facts about the fixed text
  // ---------------------------------------------------------------------

  // The lemmas below state, one or two literals at a time, that the fixed
  // lines hold no line break (or start with a space). They carry no idea of
  // their own: a fact about a string literal is checked character by
  // character, and keeping each literal short and each such fact in a small
  // lemma of its own keeps the proofs that use them cheap. For the same
  // reason a fixed line longer than forty characters is written as two
  // adjacent literals; together they are the one line the generator prints.

  lemma {:induction false} IndentLiterals()
    ensures '\n' !in "        " && '\n' !in "."
  {
  }

  lemma {:induction false} ArgLiterals()
    ensures '\n' !in ": Input data from " && '\n' !in ": Output data for "
  {
  }

  lemma {:induction false} DocConstsSingle()
    ensures '\n' !in DocQuotes && '\n' !in DocBlank && '\n' !in ArgsLabel
  {
  }

  lemma {:induction false} ReturnConstsSingle()
    ensures '\n' !in ReturnsLabel && '\n' !in ProcessedLine
  {
  }

  lemma {:induction false} DocConstsIndented()
    ensures !AtMargin(DocQuotes) && !AtMargin(DocBlank) && !AtMargin(ArgsLabel)
    ensures !AtMargin(ReturnsLabel) && !AtMargin(ProcessedLine) && !AtMargin(TodoLine)
  {
  }

  lemma {:induction false} HeaderSingle()
    ensures SingleLines(HeaderLines)
  {
    HeaderSingleFront();
    HeaderSingleBack();
  }

  lemma {:induction false} HeaderSingleFront()
    ensures forall k :: 0 <= k < 4 ==> '\n' !in HeaderLines[k]
  {
    HeaderLineOne();
    assert '\n' !in HeaderLines[0];
    assert '\n' !in HeaderLines[2];
    assert '\n' !in HeaderLines[3];
  }

  lemma {:induction false} HeaderLineOne()
    ensures '\n' !in HeaderLines[1]
  {
    var a, b := "This module contains node functions", " for the pipeline.";
    assert '\n' !in a;
    assert '\n' !in b;
    assert HeaderLines[1] == a + b;
  }

  lemma {:induction false} HeaderSingleBack()
    ensures forall k :: 4 <= k < 8 ==> '\n' !in HeaderLines[k]
  {
    assert '\n' !in HeaderLines[4];
    assert '\n' !in HeaderLines[5];
    assert '\n' !in HeaderLines[6] && '\n' !in HeaderLines[7];
  }

  // ---------------------------------------------------------------------
  // The module, line by line
  // ---------------------------------------------------------------------

  /** The `Returns` section, line by line. */
  function ReturnLines(f: FunctionInfo): seq<string> {
    if |f.outputs| == 1 then [ProcessedLine] else MapSeq(f.outputs, ReturnLine)
  }

  /** The body, line by line: every line of the code indented by four
      spaces, or the placeholder. */
  function BodyLines(f: FunctionInfo): seq<string> {
    if HasCode(f) then IndentEach(Split(f.code.value, '\n'))
    else [TodoLine, ReturnPrefix + Placeholder(f)]
  }

  /** The docstring after its opening quotes' line: a blank line, `Args:`
      with a line per input, a blank line, `Returns:` with its lines, and
      the closing quotes. */
  function DocLines(f: FunctionInfo): seq<string> {
    [DocQuotes + Summary(f), DocBlank, ArgsLabel] + MapSeq(f.inputs, ArgLine)
    + [DocBlank, ReturnsLabel] + ReturnLines(f) + [DocQuotes]
  }

  /** The lines one function record adds: the signature, the docstring,
      the body and a blank line. */
  function FunctionLines(f: FunctionInfo): seq<string> {
    [Signature(f)] + DocLines(f) + BodyLines(f) + [""]
  }

  lemma {:induction false} OpeningLines(f: FunctionInfo)
    ensures Opening(f) == Signature(f) + ConcatMap([DocQuotes + Summary(f), DocBlank, ArgsLabel], NewlineThen)
  {
    var a, b, c := DocQuotes + Summary(f), DocBlank, ArgsLabel;
    ConcatMapAppend([a, b], [c], NewlineThen);
    ConcatMapPair(a, b, NewlineThen);
    ConcatMapOne(c, NewlineThen);
    assert [a, b] + [c] == [a, b, c];
  }

  lemma {:induction false} ReturnsLines(f: FunctionInfo)
    ensures ReturnsHead == ConcatMap([DocBlank, ReturnsLabel], NewlineThen)
    ensures ReturnsDoc(f) == ConcatMap(ReturnLines(f), NewlineThen)
    ensures DocClose == ConcatMap([DocQuotes], NewlineThen)
  {
    ConcatMapPair(DocBlank, ReturnsLabel, NewlineThen);
    ConcatMapOne(DocQuotes, NewlineThen);
    if |f.outputs| == 1 {
      ConcatMapOne(ProcessedLine, NewlineThen);
    } else {
      ConcatMapCompose(f.outputs, ReturnDoc, ReturnLine, NewlineThen);
    }
  }

  lemma {:induction false} DocText(f: FunctionInfo)
    ensures Opening(f) + ConcatMap(f.inputs, ArgDoc) + ReturnsHead + ReturnsDoc(f) + DocClose
         == Signature(f) + ConcatMap(DocLines(f), NewlineThen)
  {
    var t1 := [DocQuotes + Summary(f), DocBlank, ArgsLabel];
    var t2 := MapSeq(f.inputs, ArgLine);
    var t3 := [DocBlank, ReturnsLabel];
    var t4 := ReturnLines(f);
    var t5 := [DocQuotes];
    OpeningLines(f);
    ConcatMapCompose(f.inputs, ArgDoc, ArgLine, NewlineThen);
    ReturnsLines(f);
    ConcatMapFive(t1, t2, t3, t4, t5, NewlineThen);
    AssembleFive(Signature(f), Opening(f), ConcatMap(f.inputs, ArgDoc), ReturnsHead, ReturnsDoc(f), DocClose,
             ConcatMap(t1, NewlineThen), ConcatMap(t2, NewlineThen), ConcatMap(t3, NewlineThen),
             ConcatMap(t4, NewlineThen), ConcatMap(t5, NewlineThen));
  }

  lemma {:induction false} BodyText(f: FunctionInfo)
    ensures Body(f) == ConcatMap(BodyLines(f) + [""], NewlineThen) + "\n"
  {
    ConcatMapAppend(BodyLines(f), [""], NewlineThen);
    ConcatMapOne("", NewlineThen);
    if HasCode(f) {
      ConcatMapNewlineJoin(BodyLines(f));
    } else {
      ConcatMapPair(TodoLine, ReturnPrefix + Placeholder(f), NewlineThen);
    }
  }

  /** The lines after the signature. */
  function RestLines(f: FunctionInfo): seq<string> {
    DocLines(f) + (BodyLines(f) + [""])
  }

  /** A function record's text is its lines, each ended by a line break. */
  lemma {:induction false} FunctionTextLines(f: FunctionInfo)
    ensures FunctionText(f) == Unlines(FunctionLines(f))
  {
    FunctionTextLeading(f);
    LeadingLines(Signature(f), RestLines(f));
    LinesAssociate([Signature(f)], DocLines(f), BodyLines(f), [""]);
  }

  lemma {:induction false} FunctionTextLeading(f: FunctionInfo)
    ensures FunctionText(f) == Signature(f) + ConcatMap(RestLines(f), NewlineThen) + "\n"
  {
    DocText(f);
    BodyText(f);
    ConcatMapAppend(DocLines(f), BodyLines(f) + [""], NewlineThen);
    Splice(FunctionText(f), Opening(f) + ConcatMap(f.inputs, ArgDoc) + ReturnsHead + ReturnsDoc(f) + DocClose,
           Body(f), Signature(f), ConcatMap(DocLines(f), NewlineThen), ConcatMap(BodyLines(f) + [""], NewlineThen),
           ConcatMap(RestLines(f), NewlineThen));
  }

  /** The record fields that are printed inside a line hold no line break. */
  predicate SingleLineRecord(f: FunctionInfo) {
    && '\n' !in f.functionName
    && (f.description.Some? ==> '\n' !in f.description.value)
    && (forall k :: 0 <= k < |f.inputs| ==> '\n' !in f.inputs[k].name)
    && (forall k :: 0 <= k < |f.outputs| ==> '\n' !in f.outputs[k].name)
  }

  lemma {:induction false} ParamsSingleLine(ds: seq<DatasetInfo>)
    ensures '\n' !in Params(ds)
  {
    forall k | 0 <= k < |ds| ensures '\n' !in MapSeq(ds, ParamName)[k] {
      CanonicalSingleLine(ds[k].name);
    }
    JoinAvoids(MapSeq(ds, ParamName), ", ", '\n');
  }

  lemma {:induction false} SummarySingle(f: FunctionInfo)
    requires f.description.Some? ==> '\n' !in f.description.value
    ensures '\n' !in Summary(f)
  {
    if !Truthy(f.description) {
      assert '\n' !in "Process the input data" && '\n' !in " and return the result.";
    }
  }

  lemma {:induction false} ArgLineSingle(d: DatasetInfo)
    requires '\n' !in d.name
    ensures '\n' !in ArgLine(d) && '\n' !in ReturnLine(d)
  {
    CanonicalSingleLine(d.name);
    IndentLiterals();
    ArgLiterals();
    NoBreakJoined("        ", ParamName(d), ": Input data from ", d.name, ".");
    NoBreakJoined("        ", ParamName(d), ": Output data for ", d.name, ".");
  }

  lemma {:induction false} DocLinesSingle(f: FunctionInfo)
    requires SingleLineRecord(f)
    ensures SingleLines(DocLines(f))
  {
    var t1 := [DocQuotes + Summary(f), DocBlank, ArgsLabel];
    var t2 := MapSeq(f.inputs, ArgLine);
    var t3 := [DocBlank, ReturnsLabel];
    var t4 := ReturnLines(f);
    var t5 := [DocQuotes];
    forall k | 0 <= k < |f.inputs| ensures '\n' !in t2[k] {
      ArgLineSingle(f.inputs[k]);
    }
    ReturnConstsSingle();
    forall k | 0 <= k < |t4| ensures '\n' !in t4[k] {
      if |f.outputs| != 1 {
        ArgLineSingle(f.outputs[k]);
      }
    }
    DocConstsSingle();
    SummarySingle(f);
    NoBreakJoined(DocQuotes, Summary(f), "", "", "");
    assert DocQuotes + Summary(f) + "" + "" + "" == DocQuotes + Summary(f);
    SingleLinesFive(t1, t2, t3, t4, t5);
  }

  lemma {:induction false} BodyLinesSingle(f: FunctionInfo)
    requires SingleLineRecord(f)
    ensures SingleLines(BodyLines(f))
  {
    if HasCode(f) {
      var parts := Split(f.code.value, '\n');
      assert forall k :: 0 <= k < |parts| ==> BodyLines(f)[k] == "    " + parts[k];
    } else if |f.outputs| == 1 {
      ParamsSingleLine(f.inputs);
    } else {
      ParamsSingleLine(f.outputs);
    }
  }

  lemma {:induction false} FunctionLinesSingle(f: FunctionInfo)
    requires SingleLineRecord(f)
    ensures SingleLines(FunctionLines(f))
  {
    ParamsSingleLine(f.inputs);
    DocLinesSingle(f);
    BodyLinesSingle(f);
    SingleLinesAppend([Signature(f)], DocLines(f));
    SingleLinesAppend([Signature(f)] + DocLines(f), BodyLines(f));
    SingleLinesAppend([Signature(f)] + DocLines(f) + BodyLines(f), [""]);
  }

  /** Split at line breaks, the module is the header lines followed by
      every function record's lines in record order. */
  lemma {:induction false} NodesTextLines(fs: seq<FunctionInfo>)
    requires forall i :: 0 <= i < |fs| ==> SingleLineRecord(fs[i])
    ensures Split(NodesText(fs), '\n') == HeaderLines + FlatMap(fs, FunctionLines) + [""]
  {
    forall f ensures FunctionText(f) == Unlines(FunctionLines(f)) {
      FunctionTextLines(f);
    }
    ConcatMapUnlines(fs, FunctionText, FunctionLines);
    UnlinesAppend(HeaderLines, FlatMap(fs, FunctionLines));
    forall i | 0 <= i < |fs| ensures SingleLines(FunctionLines(fs[i])) {
      FunctionLinesSingle(fs[i]);
    }
    FlatMapSingleLines(fs, FunctionLines);
    HeaderSingle();
    SingleLinesAppend(HeaderLines, FlatMap(fs, FunctionLines));
    SplitUnlines(HeaderLines + FlatMap(fs, FunctionLines));
  }

  // ---------------------------------------------------------------------
  // Properties of one function's text
  // ---------------------------------------------------------------------

  /** The `Returns` section is the single generic line exactly when the
      function has one output; otherwise it has a line per output, so none
      for a function without outputs. */
  lemma {:induction false} ReturnsSection(f: FunctionInfo)
    ensures ReturnLines(f) == [ProcessedLine] <==> |f.outputs| == 1
    ensures |f.outputs| != 1 ==>
              && |ReturnLines(f)| == |f.outputs|
              && forall k :: 0 <= k < |f.outputs| ==> ReturnLines(f)[k] == ReturnLine(f.outputs[k])
  {
    if |f.outputs| != 1 {
      assert |ReturnLines(f)| == |f.outputs|;
    }
  }

  /** Where the parts of five concatenated line lists sit. */
  lemma {:induction false} FiveParts(t1: seq<string>, t2: seq<string>, t3: seq<string>, t4: seq<string>, t5: seq<string>)
    requires |t1| == 3 && |t3| == 2 && |t5| == 1
    ensures var ls := t1 + t2 + t3 + t4 + t5;
      && |ls| == 6 + |t2| + |t4|
      && ls[0] == t1[0] && ls[1] == t1[1] && ls[2] == t1[2]
      && (forall k :: 0 <= k < |t2| ==> ls[3 + k] == t2[k])
      && ls[3 + |t2|] == t3[0] && ls[4 + |t2|] == t3[1]
      && (forall k :: 0 <= k < |t4| ==> ls[5 + |t2| + k] == t4[k])
      && ls[|ls| - 1] == t5[0]
  {
  }

  /** The docstring opens with the description, or the default summary
      when the description is empty, and has one `Args` line per input, in
      input order, before the `Returns` section. */
  lemma {:induction false} DocLayout(f: FunctionInfo)
    ensures var ls := DocLines(f);
      && |ls| == 6 + |f.inputs| + |ReturnLines(f)|
      && ls[0] == DocQuotes + (if Truthy(f.description) then f.description.value else DefaultSummary)
      && ls[1] == DocBlank && ls[2] == ArgsLabel
      && (forall k :: 0 <= k < |f.inputs| ==> ls[3 + k] == ArgLine(f.inputs[k]))
      && ls[3 + |f.inputs|] == DocBlank && ls[4 + |f.inputs|] == ReturnsLabel
      && (forall k :: 0 <= k < |ReturnLines(f)| ==> ls[5 + |f.inputs| + k] == ReturnLines(f)[k])
      && ls[|ls| - 1] == DocQuotes
  {
    FiveParts([DocQuotes + Summary(f), DocBlank, ArgsLabel], MapSeq(f.inputs, ArgLine),
              [DocBlank, ReturnsLabel], ReturnLines(f), [DocQuotes]);
  }

  /** The record has code to print exactly when it has code that is not all
      white space; that code is printed with four spaces before it and
      four more after each line break. Without it the body is the
      placeholder. */
  lemma {:induction false} FunctionBody(f: FunctionInfo)
    ensures HasCode(f) <==> f.code.Some? && !AllWhitespace(f.code.value)
    ensures HasCode(f) ==> Body(f) == "\n    " + IndentAfterBreaks(f.code.value) + "\n\n"
    ensures HasCode(f) ==>
              var ls := Split(f.code.value, '\n');
              && |BodyLines(f)| == |ls|
              && forall k :: 0 <= k < |ls| ==> BodyLines(f)[k] == "    " + ls[k]
    ensures !HasCode(f) ==>
              BodyLines(f) == [TodoLine, ReturnPrefix + (if |f.outputs| == 1 then Params(f.inputs) else Params(f.outputs))]
  {
    if f.code.Some? {
      TrimEmpty(f.code.value);
      IndentLinesSpec(f.code.value);
    }
  }

  // ---------------------------------------------------------------------
  // The top level of the module
  // ---------------------------------------------------------------------

  /** A line that starts at the left margin. */
  predicate AtMargin(line: string) {
    line != [] && line[0] != ' '
  }

  /** The lines that start at the left margin, in order. */
  function MarginLines(ls: seq<string>): seq<string> {
    if ls == [] then []
    else MarginLines(ls[..|ls| - 1]) + (if AtMargin(ls[|ls| - 1]) then [ls[|ls| - 1]] else [])
  }

  lemma {:induction false} MarginLinesAppend(a: seq<string>, b: seq<string>)
    ensures MarginLines(a + b) == MarginLines(a) + MarginLines(b)
  {
    if b == [] {
      assert a + b == a;
    } else {
      var init := b[..|b| - 1];
      MarginLinesAppend(a, init);
      assert (a + b)[..|a + b| - 1] == a + init;
    }
  }

  lemma {:induction false} MarginLinesNone(ls: seq<string>)
    requires forall k :: 0 <= k < |ls| ==> !AtMargin(ls[k])
    ensures MarginLines(ls) == []
  {
    if ls != [] {
      MarginLinesNone(ls[..|ls| - 1]);
    }
  }

  /** A line that starts with a space stays off the margin whatever follows. */
  lemma {:induction false} IndentedOff(p: string, rest: string)
    requires !AtMargin(p) && p != []
    ensures !AtMargin(p + rest)
  {
    assert (p + rest)[0] == p[0];
  }

  lemma {:induction false} IndentedFive(a: string, b: string, c: string, d: string, e: string)
    requires a != [] && a[0] == ' '
    ensures !AtMargin(a + b + c + d + e)
  {
    assert (a + b + c + d + e)[0] == a[0];
  }

  lemma {:induction false} ArgLineIndented(d: DatasetInfo)
    ensures !AtMargin(ArgLine(d)) && !AtMargin(ReturnLine(d))
  {
    var ind := "        ";
    assert ind[0] == ' ';
    IndentedFive(ind, ParamName(d), ": Input data from ", d.name, ".");
    IndentedFive(ind, ParamName(d), ": Output data for ", d.name, ".");
  }

  lemma {:induction false} MarginLinesFive(t1: seq<string>, t2: seq<string>, t3: seq<string>,
                                           t4: seq<string>, t5: seq<string>)
    requires MarginLines(t1) == [] && MarginLines(t2) == [] && MarginLines(t3) == []
    requires MarginLines(t4) == [] && MarginLines(t5) == []
    ensures MarginLines(t1 + t2 + t3 + t4 + t5) == []
  {
    MarginLinesAppend(t1, t2);
    MarginLinesAppend(t1 + t2, t3);
    MarginLinesAppend(t1 + t2 + t3, t4);
    MarginLinesAppend(t1 + t2 + t3 + t4, t5);
  }

  lemma {:induction false} DocOffMargin(f: FunctionInfo)
    ensures MarginLines(DocLines(f)) == []
  {
    var t1 := [DocQuotes + Summary(f), DocBlank, ArgsLabel];
    var t2 := MapSeq(f.inputs, ArgLine);
    var t3 := [DocBlank, ReturnsLabel];
    var t4 := ReturnLines(f);
    var t5 := [DocQuotes];
    DocConstsIndented();
    IndentedOff(DocQuotes, Summary(f));
    MarginLinesNone(t1);
    MarginLinesNone(t3);
    MarginLinesNone(t5);
    forall k | 0 <= k < |t2| ensures !AtMargin(t2[k]) {
      ArgLineIndented(f.inputs[k]);
    }
    MarginLinesNone(t2);
    forall k | 0 <= k < |t4| ensures !AtMargin(t4[k]) {
      if |f.outputs| != 1 {
        ArgLineIndented(f.outputs[k]);
      }
    }
    MarginLinesNone(t4);
    MarginLinesFive(t1, t2, t3, t4, t5);
  }

  lemma {:induction false} BodyOffMargin(f: FunctionInfo)
    ensures MarginLines(BodyLines(f) + [""]) == []
  {
    DocConstsIndented();
    forall k | 0 <= k < |BodyLines(f)| ensures !AtMargin(BodyLines(f)[k]) {
      if HasCode(f) {
        IndentedOff(DocBlank, Split(f.code.value, '\n')[k]);
      } else if k == 1 {
        IndentedOff(ReturnPrefix, Placeholder(f));
      }
    }
    MarginLinesNone(BodyLines(f) + [""]);
  }

  /** Of one function's lines only the signature starts at the margin:
      the docstring and the body are indented, and the last line is blank. */
  lemma {:induction false} FunctionMargin(f: FunctionInfo)
    ensures MarginLines(FunctionLines(f)) == [Signature(f)]
  {
    var rest := RestLines(f);
    DocOffMargin(f);
    BodyOffMargin(f);
    MarginLinesAppend(DocLines(f), BodyLines(f) + [""]);
    MarginLinesAppend([Signature(f)], rest);
    assert MarginLines([Signature(f)]) == [Signature(f)] by {
      assert [Signature(f)][..0] == [];
    }
    LinesAssociate([Signature(f)], DocLines(f), BodyLines(f), [""]);
  }

  lemma {:induction false} FunctionsMargin(fs: seq<FunctionInfo>)
    ensures MarginLines(FlatMap(fs, FunctionLines)) == MapSeq(fs, Signature)
  {
    if fs != [] {
      var init := fs[..|fs| - 1];
      FunctionsMargin(init);
      MarginLinesAppend(FlatMap(init, FunctionLines), FunctionLines(fs[|fs| - 1]));
      FunctionMargin(fs[|fs| - 1]);
    }
  }

  /** At the left margin the module holds its header lines and then one
      `def` line per function record, in record order: no docstring or
      body line escapes its function. */
  lemma {:induction false} NodesMargin(fs: seq<FunctionInfo>)
    requires forall i :: 0 <= i < |fs| ==> SingleLineRecord(fs[i])
    ensures MarginLines(Split(NodesText(fs), '\n')) == HeaderLines[..7] + MapSeq(fs, Signature)
  {
    NodesTextLines(fs);
    MarginLinesAppend(HeaderLines + FlatMap(fs, FunctionLines), [""]);
    MarginLinesAppend(HeaderLines, FlatMap(fs, FunctionLines));
    FunctionsMargin(fs);
    assert MarginLines([""]) == [] by {
      assert [""][..0] == [];
    }
    HeaderMargin();
  }

  lemma {:induction false} HeaderMargin()
    ensures MarginLines(HeaderLines) == HeaderLines[..7]
  {
    var h := HeaderLines;
    assert h[..7] == h[..6] + [h[6]];
    assert h[..8] == h;
    assert !AtMargin(h[7]);
    assert AtMargin(h[0]) && AtMargin(h[1]) && AtMargin(h[2]) && AtMargin(h[3]);
    assert AtMargin(h[4]) && AtMargin(h[5]) && AtMargin(h[6]);
    assert MarginLines(h[..1]) == h[..1] by {
      assert h[..1][..0] == [];
    }
    assert MarginLines(h[..2]) == h[..2] by {
      assert h[..2][..1] == h[..1];
    }
    assert MarginLines(h[..3]) == h[..3] by {
      assert h[..3][..2] == h[..2];
    }
    assert MarginLines(h[..4]) == h[..4] by {
      assert h[..4][..3] == h[..3];
    }
    assert MarginLines(h[..5]) == h[..5] by {
      assert h[..5][..4] == h[..4];
    }
    assert MarginLines(h[..6]) == h[..6] by {
      assert h[..6][..5] == h[..5];
    }
    assert MarginLines(h[..7]) == h[..7] by {
      assert h[..7][..6] == h[..6];
    }
    assert h[..8][..7] == h[..7];
  }
}
