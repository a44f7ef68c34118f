/** `generateCatalogYaml`: the text of `catalog.yml`, one block per catalog
    entry after a two-line comment header. */
module CatalogYaml {
  import opened Wrappers
  import opened Text
  import opened Bindings

  const HeaderLines: seq<string> :=
    ["# Catalog entries for the pipeline", "# Generated by Kedro Pipeline Painter"]

  /** The header text: the two comment lines, each ending in a line break. */
  const Header: string := Unlines(HeaderLines)

  /** The two header lines hold no line break. Like every fact about a
      string literal it is checked character by character, so it is stated
      once here and used where the file is split into lines. */
  lemma {:induction false} HeaderSingle()
    ensures SingleLines(HeaderLines)
  {
  }

  /** The name, `type` and `filepath` lines every entry appends. */
  function EntryHead(e: CatalogEntry): string {
    "\n" + Canonical(e.name) + ":\n  type: " + Show(e.dataType) + "\n  filepath: " + Show(e.filepath) + "\n"
  }

  /** The comment line an entry with a description appends. */
  function EntryComment(e: CatalogEntry): string {
    if Truthy(e.description) then "  # " + e.description.value + "\n" else ""
  }

  /** The block one entry appends. */
  function EntryText(e: CatalogEntry): string {
    EntryHead(e) + EntryComment(e)
  }

  /** The whole file for a list of entries. */
  function CatalogText(es: seq<CatalogEntry>): string {
    Header + ConcatMap(es, EntryText)
  }

  /** The loop of lines 299-307, appending each entry's block to the header. */
  method GenerateCatalogYaml(es: seq<CatalogEntry>) returns (yaml: string)
    ensures yaml == CatalogText(es)
  {
    yaml := Header;
    for i := 0 to |es|
      invariant yaml == CatalogText(es[..i])
    {
      var e := es[i];
      ghost var before := yaml;
      yaml := yaml + EntryHead(e);
      if Truthy(e.description) {
        yaml := yaml + EntryComment(e);
      }
      CatalogTextSnoc(es, i);
    }
    assert es[..|es|] == es;
  }

  lemma {:induction false} CatalogTextSnoc(es: seq<CatalogEntry>, i: nat)
    requires i < |es|
    ensures CatalogText(es[..i + 1]) == CatalogText(es[..i]) + EntryHead(es[i]) + EntryComment(es[i])
  {
    ConcatMapSnoc(es, i, EntryText);
    Associate(Header, ConcatMap(es[..i], EntryText), EntryHead(es[i]), EntryComment(es[i]));
  }

  // ---------------------------------------------------------------------
  // The file, line by line
  // ---------------------------------------------------------------------

  /** The lines of one entry's block: a blank line, `<name>:`,
      `  type: <type>`, `  filepath: <filepath>`, and `  # <description>`
      exactly when the description is not empty. */
  function EntryLines(e: CatalogEntry): seq<string> {
    ["", Canonical(e.name) + ":", "  type: " + Show(e.dataType), "  filepath: " + Show(e.filepath)]
    + (if Truthy(e.description) then ["  # " + e.description.value] else [])
  }

  /** An entry's block has the comment line exactly when its description
      is not empty, and that line prints the description. */
  lemma {:induction false} EntryDescribed(e: CatalogEntry)
    ensures |EntryLines(e)| == 5 <==> Truthy(e.description)
    ensures |EntryLines(e)| == 4 <==> !Truthy(e.description)
    ensures Truthy(e.description) ==> EntryLines(e)[4] == "  # " + e.description.value
  {
  }

  lemma {:induction false} HeadLines(n: string, t: string, f: string)
    ensures "\n" + n + ":\n  type: " + t + "\n  filepath: " + f + "\n"
         == Unlines(["", n + ":", "  type: " + t, "  filepath: " + f])
  {
    var a, b, c := n + ":", "  type: " + t, "  filepath: " + f;
    FourLines("", a, b, c);
    assert "\n" + n + ":\n  type: " + t + "\n  filepath: " + f + "\n" == "" + "\n" + a + "\n" + b + "\n" + c + "\n";
  }

  lemma {:induction false} FourLines(a: string, b: string, c: string, d: string)
    ensures Unlines([a, b, c, d]) == a + "\n" + b + "\n" + c + "\n" + d + "\n"
  {
    UnlinesCons(a, [b, c, d]);
    UnlinesCons(b, [c, d]);
    UnlinesCons(c, [d]);
    UnlinesCons(d, []);
    assert [a, b, c, d] == [a] + [b, c, d];
    assert [b, c, d] == [b] + [c, d];
    assert [c, d] == [c] + [d];
    assert [d] == [d] + [];
  }

  lemma {:induction false} EntryTextLines(e: CatalogEntry)
    ensures EntryText(e) == Unlines(EntryLines(e))
  {
    var n, t, f := Canonical(e.name), Show(e.dataType), Show(e.filepath);
    var fixed := ["", n + ":", "  type: " + t, "  filepath: " + f];
    var extra := if Truthy(e.description) then ["  # " + e.description.value] else [];
    UnlinesAppend(fixed, extra);
    HeadLines(n, t, f);
    if Truthy(e.description) {
      UnlinesCons("  # " + e.description.value, []);
      assert extra == [extra[0]] + [];
    }
    assert Unlines(extra) == EntryComment(e);
  }

  /** The entry fields that are printed on a line of their own hold no line break. */
  predicate SingleLineEntry(e: CatalogEntry) {
    && '\n' !in Show(e.dataType) && '\n' !in Show(e.filepath)
    && (e.description.Some? ==> '\n' !in e.description.value)
  }

  lemma {:induction false} EntryLinesSingle(e: CatalogEntry)
    requires SingleLineEntry(e)
    ensures SingleLines(EntryLines(e))
  {
    CanonicalShape(e.name);
    assert '\n' !in Canonical(e.name) + ":" by {
      assert forall i :: 0 <= i < |Canonical(e.name)| ==> Canonical(e.name)[i] != '\n';
    }
  }

  /** Split at line breaks, the file is the header lines followed by every
      entry's lines in entry order. */
  lemma {:induction false} CatalogTextLines(es: seq<CatalogEntry>)
    requires forall i :: 0 <= i < |es| ==> SingleLineEntry(es[i])
    ensures Split(CatalogText(es), '\n') == HeaderLines + FlatMap(es, EntryLines) + [""]
  {
    forall e ensures EntryText(e) == Unlines(EntryLines(e)) {
      EntryTextLines(e);
    }
    ConcatMapUnlines(es, EntryText, EntryLines);
    UnlinesAppend(HeaderLines, FlatMap(es, EntryLines));
    forall i | 0 <= i < |es| ensures SingleLines(EntryLines(es[i])) {
      EntryLinesSingle(es[i]);
    }
    FlatMapSingleLines(es, EntryLines);
    HeaderSingle();
    SingleLinesAppend(HeaderLines, FlatMap(es, EntryLines));
    SplitUnlines(HeaderLines + FlatMap(es, EntryLines));
  }

  // ---------------------------------------------------------------------
  // Reading the file back
  // ---------------------------------------------------------------------

  /** The entry-block lines read back into entries; `None` when they do not
      have the shape the generator writes. */
  function ParseEntries(ls: seq<string>): Option<seq<CatalogEntry>>
    decreases |ls|
  {
    if ls == [] then Some([])
    else if |ls| >= 4 && ls[0] == "" && |ls[1]| >= 1 && ls[1][|ls[1]| - 1] == ':'
            && "  type: " <= ls[2] && "  filepath: " <= ls[3] then
      var described := |ls| >= 5 && "  # " <= ls[4];
      var e := CatalogEntry(ls[1][..|ls[1]| - 1], Some(ls[2][8..]), Some(ls[3][12..]),
                            if described then Some(ls[4][4..]) else None);
      match ParseEntries(ls[if described then 5 else 4..])
      case None => None
      case Some(rest) => Some([e] + rest)
    else None
  }

  /** Reads a catalog file back into its entries. */
  function ParseCatalog(text: string): Option<seq<CatalogEntry>> {
    ParseLines(Split(text, '\n'))
  }

  /** The lines of a catalog file read back: the header, the entry blocks,
      and the empty remainder after the last line break. */
  function ParseLines(ls: seq<string>): Option<seq<CatalogEntry>> {
    if |ls| >= 3 && ls[..2] == HeaderLines && ls[|ls| - 1] == "" then ParseEntries(ls[2..|ls| - 1])
    else None
  }

  lemma {:induction false} ParseLinesFramed(body: seq<string>)
    ensures ParseLines(HeaderLines + body + [""]) == ParseEntries(body)
  {
    var ls := HeaderLines + body + [""];
    assert ls[..2] == HeaderLines;
    assert ls[2..|ls| - 1] == body;
  }

  /** What the file keeps of an entry: an empty description leaves no trace. */
  function Written(e: CatalogEntry): CatalogEntry {
    e.(description := if Truthy(e.description) then e.description else None)
  }

  function WrittenAll(es: seq<CatalogEntry>): (r: seq<CatalogEntry>)
    ensures |r| == |es|
    ensures forall i :: 0 <= i < |es| ==> r[i] == Written(es[i])
  {
    if es == [] then [] else [Written(es[0])] + WrittenAll(es[1..])
  }

  /** An entry whose fields survive a trip through the file. */
  predicate Readable(e: CatalogEntry) {
    && SingleLineEntry(e) && e.dataType.Some? && e.filepath.Some?
    && Canonical(e.name) == e.name
  }

  lemma {:induction false} ParseEntry(e: CatalogEntry, rest: seq<string>)
    requires Readable(e)
    requires rest == [] || rest[0] == ""
    ensures ParseEntries(EntryLines(e) + rest) ==
      match ParseEntries(rest) case None => None case Some(es) => Some([Written(e)] + es)
  {
    var ls := EntryLines(e) + rest;
    var n := |EntryLines(e)|;
    assert ls[0] == "" && ls[1] == e.name + ":" && ls[2] == "  type: " + e.dataType.value
        && ls[3] == "  filepath: " + e.filepath.value;
    assert ls[1][..|ls[1]| - 1] == e.name;
    assert ls[2][8..] == e.dataType.value;
    assert ls[3][12..] == e.filepath.value;
    if Truthy(e.description) {
      assert ls[4] == "  # " + e.description.value;
      assert ls[4][4..] == e.description.value;
    } else {
      assert !(|ls| >= 5 && "  # " <= ls[4]);
    }
    assert ls[n..] == rest;
  }

  lemma {:induction false} FlatMapFront<T>(xs: seq<T>, g: T -> seq<string>)
    requires xs != []
    ensures FlatMap(xs, g) == g(xs[0]) + FlatMap(xs[1..], g)
  {
    FlatMapAppend([xs[0]], xs[1..], g);
    assert [xs[0]] + xs[1..] == xs;
    assert [xs[0]][..0] == [];
  }

  lemma {:induction false} ParseEntriesWritten(es: seq<CatalogEntry>)
    requires forall i :: 0 <= i < |es| ==> Readable(es[i])
    ensures ParseEntries(FlatMap(es, EntryLines)) == Some(WrittenAll(es))
  {
    if es != [] {
      FlatMapFront(es, EntryLines);
      ParseEntriesWritten(es[1..]);
      var rest := FlatMap(es[1..], EntryLines);
      if es[1..] != [] {
        FlatMapFront(es[1..], EntryLines);
      }
      ParseEntry(es[0], rest);
    }
  }

  /** Reading the generated file gives back the entries it was written
      from, with an empty description read as none. */
  lemma {:induction false} CatalogRoundTrip(es: seq<CatalogEntry>)
    requires forall i :: 0 <= i < |es| ==> Readable(es[i])
    ensures ParseCatalog(CatalogText(es)) == Some(WrittenAll(es))
  {
    forall i | 0 <= i < |es| ensures SingleLineEntry(es[i]) {
    }
    CatalogTextLines(es);
    ParseLinesFramed(FlatMap(es, EntryLines));
    ParseEntriesWritten(es);
  }
}
