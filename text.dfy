/** String operations shared by every generator: JavaScript's white-space
    class, ASCII lower-casing, the label canonicaliser
    `label.toLowerCase().replace(/\s+/g, '_')`, and the JavaScript string
    methods `split`, `join` and `trim` that the generators rely on. */
module Text {

  // ---------------------------------------------------------------------
  // Characters
  // ---------------------------------------------------------------------

  /** The characters matched by JavaScript's `\s`; `String.prototype.trim`
      strips exactly the same set. */
  predicate IsWhitespace(c: char) {
    || c == '\t' || c == '\n' || c == '\U{B}' || c == '\U{C}' || c == '\r'
    || c == ' ' || c == '\U{A0}' || c == '\U{1680}'
    || ('\U{2000}' <= c <= '\U{200A}')
    || c == '\U{2028}' || c == '\U{2029}' || c == '\U{202F}' || c == '\U{205F}'
    || c == '\U{3000}' || c == '\U{FEFF}'
  }

  predicate IsUpper(c: char) { 'A' <= c <= 'Z' }

  /** ASCII lower-casing of one character. */
  function LowerChar(c: char): (r: char)
    ensures !IsUpper(r)
    ensures IsWhitespace(r) <==> IsWhitespace(c)
    ensures !IsUpper(c) ==> r == c
  {
    if IsUpper(c) then (c as int - 'A' as int + 'a' as int) as char else c
  }

  predicate NoWhitespace(s: string) {
    forall i :: 0 <= i < |s| ==> !IsWhitespace(s[i])
  }

  predicate NoUpper(s: string) {
    forall i :: 0 <= i < |s| ==> !IsUpper(s[i])
  }

  predicate AllWhitespace(s: string) {
    forall i :: 0 <= i < |s| ==> IsWhitespace(s[i])
  }

  /** `s.toLowerCase()`, restricted to ASCII letters. */
  function Lower(s: string): string {
    seq(|s|, i requires 0 <= i < |s| => LowerChar(s[i]))
  }

  lemma {:induction false} LowerAppend(a: string, b: string)
    ensures Lower(a + b) == Lower(a) + Lower(b)
  {
    assert forall i :: 0 <= i < |a + b| ==> Lower(a + b)[i] == (Lower(a) + Lower(b))[i];
  }

  lemma {:induction false} LowerOfLower(s: string)
    requires NoUpper(s)
    ensures Lower(s) == s
  {
  }

  // ---------------------------------------------------------------------
  // Canonical names
  // ---------------------------------------------------------------------

  /** The suffix of `s` left after its leading white-space run. */
  function SkipWhitespace(s: string): (r: string)
    ensures |r| <= |s| && r == s[|s| - |r|..]
    ensures r == [] || !IsWhitespace(r[0])
  {
    if s != [] && IsWhitespace(s[0]) then SkipWhitespace(s[1..]) else s
  }

  /** What `SkipWhitespace` drops is white space, and all of it when `s` is
      white space only. */
  lemma {:induction false} SkipWhitespaceDrops(s: string)
    ensures AllWhitespace(s[..|s| - |SkipWhitespace(s)|])
    ensures AllWhitespace(s) ==> SkipWhitespace(s) == []
  {
    if s != [] && IsWhitespace(s[0]) {
      SkipWhitespaceDrops(s[1..]);
      var n := |s| - |SkipWhitespace(s)|;
      assert forall i :: 1 <= i < n ==> s[..n][i] == s[1..][..n - 1][i - 1];
    }
  }

  /** `s.replace(/\s+/g, '_')`: each maximal run of white space becomes one `_`. */
  function ReplaceRuns(s: string): string
    decreases |s|
  {
    if s == [] then []
    else if IsWhitespace(s[0]) then "_" + ReplaceRuns(SkipWhitespace(s[1..]))
    else [s[0]] + ReplaceRuns(s[1..])
  }

  /** The canonical dataset/function name of a label:
      `label.toLowerCase().replace(/\s+/g, '_')`. */
  function Canonical(lbl: string): string {
    ReplaceRuns(Lower(lbl))
  }

  lemma {:induction false} ReplaceRunsShape(s: string)
    ensures NoWhitespace(ReplaceRuns(s))
    ensures NoUpper(s) ==> NoUpper(ReplaceRuns(s))
    decreases |s|
  {
    if s == [] {
    } else if IsWhitespace(s[0]) {
      var t := SkipWhitespace(s[1..]);
      ReplaceRunsShape(t);
      NoUpperSuffix(s, |s| - |t|);
      assert s[|s| - |t|..] == t;
      ShapePrepend('_', ReplaceRuns(t));
    } else {
      ReplaceRunsShape(s[1..]);
      NoUpperSuffix(s, 1);
      ShapePrepend(s[0], ReplaceRuns(s[1..]));
    }
  }

  lemma {:induction false} NoUpperSuffix(s: string, k: nat)
    requires k <= |s|
    ensures NoUpper(s) ==> NoUpper(s[k..])
  {
    if NoUpper(s) {
      forall i | 0 <= i < |s[k..]| ensures !IsUpper(s[k..][i]) {
        assert s[k..][i] == s[k + i];
      }
    }
  }

  lemma {:induction false} ShapePrepend(c: char, r: string)
    requires !IsWhitespace(c) && NoWhitespace(r)
    ensures NoWhitespace([c] + r)
    ensures !IsUpper(c) && NoUpper(r) ==> NoUpper([c] + r)
  {
    assert forall i :: 1 <= i < |[c] + r| ==> ([c] + r)[i] == r[i - 1];
  }

  lemma {:induction false} ReplaceRunsOfPlain(s: string)
    requires NoWhitespace(s)
    ensures ReplaceRuns(s) == s
  {
    if s != [] {
      ReplaceRunsOfPlain(s[1..]);
    }
  }

  /** A white-space-free prefix passes through `ReplaceRuns` unchanged. */
  lemma {:induction false} ReplaceRunsPlainPrefix(a: string, b: string)
    requires NoWhitespace(a)
    ensures ReplaceRuns(a + b) == a + ReplaceRuns(b)
  {
    if a == [] {
      assert a + b == b;
    } else {
      assert (a + b)[0] == a[0] && !IsWhitespace(a[0]);
      assert (a + b)[1..] == a[1..] + b;
      ReplaceRunsPlainPrefix(a[1..], b);
    }
  }

  lemma {:induction false} SkipWhitespaceRun(w: string, b: string)
    requires AllWhitespace(w)
    requires b == [] || !IsWhitespace(b[0])
    ensures SkipWhitespace(w + b) == b
  {
    if w != [] {
      assert (w + b)[1..] == w[1..] + b;
      SkipWhitespaceRun(w[1..], b);
    }
  }

  /** The result of canonicalisation holds no white space and no upper-case letter. */
  lemma {:induction false} CanonicalShape(lbl: string)
    ensures NoWhitespace(Canonical(lbl))
    ensures NoUpper(Canonical(lbl))
  {
    ReplaceRunsShape(Lower(lbl));
  }

  /** A canonical name holds no line break. */
  lemma {:induction false} CanonicalSingleLine(lbl: string)
    ensures '\n' !in Canonical(lbl)
  {
    CanonicalShape(lbl);
    assert IsWhitespace('\n');
  }

  /** Canonicalising a canonical name changes nothing. */
  lemma {:induction false} CanonicalIdempotent(lbl: string)
    ensures Canonical(Canonical(lbl)) == Canonical(lbl)
  {
    var t := Canonical(lbl);
    CanonicalShape(lbl);
    LowerOfLower(t);
    ReplaceRunsOfPlain(t);
  }

  /** A label without white space is only lower-cased. */
  lemma {:induction false} CanonicalOfPlain(lbl: string)
    requires NoWhitespace(lbl)
    ensures Canonical(lbl) == Lower(lbl)
  {
    ReplaceRunsOfPlain(Lower(lbl));
  }

  /** A non-empty run of white space before a suffix that does not start
      with white space becomes one `_`. */
  lemma {:induction false} ReplaceRunsRun(w: string, b: string)
    requires w != [] && AllWhitespace(w)
    requires b == [] || !IsWhitespace(b[0])
    ensures ReplaceRuns(w + b) == "_" + ReplaceRuns(b)
  {
    assert (w + b)[0] == w[0];
    assert (w + b)[1..] == w[1..] + b;
    SkipWhitespaceRun(w[1..], b);
  }

  /** Lower-casing keeps every character's white-space class. */
  lemma {:induction false} LowerKeepsSpaces(s: string)
    ensures NoWhitespace(s) ==> NoWhitespace(Lower(s))
    ensures AllWhitespace(s) ==> AllWhitespace(Lower(s))
    ensures s != [] ==> (IsWhitespace(Lower(s)[0]) <==> IsWhitespace(s[0]))
  {
  }

  /** A maximal white-space run `w` between a plain prefix `a` and a suffix `b`
      that does not start with white space turns into exactly one `_`. */
  lemma {:induction false} CanonicalRun(a: string, w: string, b: string)
    requires NoWhitespace(a)
    requires w != [] && AllWhitespace(w)
    requires b == [] || !IsWhitespace(b[0])
    ensures Canonical(a + w + b) == Lower(a) + "_" + Canonical(b)
  {
    var la, lw, lb := Lower(a), Lower(w), Lower(b);
    LowerThree(a, w, b);
    LowerKeepsSpaces(a);
    LowerKeepsSpaces(w);
    LowerKeepsSpaces(b);
    ReplaceRunsPlainPrefix(la, lw + lb);
    ReplaceRunsRun(lw, lb);
    assert ReplaceRuns(la + (lw + lb)) == la + ("_" + ReplaceRuns(lb));
  }

  lemma {:induction false} LowerThree(a: string, w: string, b: string)
    ensures Lower(a + w + b) == Lower(a) + (Lower(w) + Lower(b))
  {
    LowerAppend(a + w, b);
    LowerAppend(a, w);
  }

  // ---------------------------------------------------------------------
  // trim, split, join
  // ---------------------------------------------------------------------

  /** `s.trimEnd()`. */
  function TrimEnd(s: string): (r: string)
    ensures |r| <= |s| && r == s[..|r|]
    ensures AllWhitespace(s[|r|..])
    ensures r == [] || !IsWhitespace(r[|r| - 1])
  {
    if s != [] && IsWhitespace(s[|s| - 1]) then
      var r := TrimEnd(s[..|s| - 1]);
      assert s[|r|..] == s[..|s| - 1][|r|..] + [s[|s| - 1]];
      r
    else s
  }

  /** `s.trim()`. */
  function Trim(s: string): string {
    TrimEnd(SkipWhitespace(s))
  }

  /** `s.trim()` is empty exactly when `s` is white space only. */
  lemma {:induction false} TrimEmpty(s: string)
    ensures Trim(s) == [] <==> AllWhitespace(s)
  {
    var t := SkipWhitespace(s);
    SkipWhitespaceDrops(s);
    if Trim(s) == [] {
      assert t[0..] == t;
      assert t == [];
      assert s[..|s|] == s;
    }
  }

  /** `s.split(sep)` for a one-character separator: always at least one part,
      and no part contains the separator. */
  function Split(s: string, sep: char): (r: seq<string>)
    ensures |r| >= 1
    ensures forall k :: 0 <= k < |r| ==> sep !in r[k]
  {
    if s == [] then [""]
    else if s[0] == sep then [""] + Split(s[1..], sep)
    else
      var rest := Split(s[1..], sep);
      [[s[0]] + rest[0]] + rest[1..]
  }

  /** `parts.join(sep)`. */
  function Join(parts: seq<string>, sep: string): string {
    if |parts| == 0 then ""
    else if |parts| == 1 then parts[0]
    else parts[0] + sep + Join(parts[1..], sep)
  }

  /** Joining the parts of a split with the separator gives the text back. */
  lemma {:induction false} JoinSplit(s: string, sep: char)
    ensures Join(Split(s, sep), [sep]) == s
  {
    if s != [] {
      JoinSplit(s[1..], sep);
      var rest := Split(s[1..], sep);
      if s[0] != sep && |rest| > 1 {
        assert ([[s[0]] + rest[0]] + rest[1..])[1..] == rest[1..];
      }
    }
  }

  lemma {:induction false} SplitPlain(p: string, sep: char)
    requires sep !in p
    ensures Split(p, sep) == [p]
  {
    if p != [] {
      SplitPlain(p[1..], sep);
      assert p[0] != sep;
      assert [p[0]] + p[1..] == p;
    }
  }

  lemma {:induction false} SplitAfterPart(p: string, sep: char, t: string)
    requires sep !in p
    ensures Split(p + [sep] + t, sep) == [p] + Split(t, sep)
  {
    var s := p + [sep] + t;
    if p != [] {
      assert s[0] == p[0] != sep;
      assert s[1..] == p[1..] + [sep] + t;
      SplitAfterPart(p[1..], sep, t);
      assert [p[0]] + p[1..] == p;
    } else {
      assert s[0] == sep;
      assert s[1..] == t;
    }
  }

  /** Splitting a join of separator-free parts gives the parts back. */
  lemma {:induction false} SplitJoin(parts: seq<string>, sep: char)
    requires |parts| >= 1
    requires forall k :: 0 <= k < |parts| ==> sep !in parts[k]
    ensures Split(Join(parts, [sep]), sep) == parts
  {
    if |parts| == 1 {
      SplitPlain(parts[0], sep);
    } else {
      SplitJoin(parts[1..], sep);
      SplitAfterPart(parts[0], sep, Join(parts[1..], [sep]));
    }
  }

  // ---------------------------------------------------------------------
  // Lines
  // ---------------------------------------------------------------------

  /** No part contains a line break. */
  predicate SingleLines(ls: seq<string>) {
    forall k :: 0 <= k < |ls| ==> '\n' !in ls[k]
  }

  lemma {:induction false} SingleLinesAppend(a: seq<string>, b: seq<string>)
    requires SingleLines(a) && SingleLines(b)
    ensures SingleLines(a + b)
  {
    assert forall k :: |a| <= k < |a + b| ==> (a + b)[k] == b[k - |a|];
  }

  /** Joining texts without line breaks gives a text without line breaks. */
  lemma {:induction false} NoBreakJoined(a: string, b: string, c: string, d: string, e: string)
    requires '\n' !in a && '\n' !in b && '\n' !in c && '\n' !in d && '\n' !in e
    ensures '\n' !in a + b + c + d + e
  {
  }

  lemma {:induction false} SingleLinesFive(t1: seq<string>, t2: seq<string>, t3: seq<string>,
                                           t4: seq<string>, t5: seq<string>)
    requires SingleLines(t1) && SingleLines(t2) && SingleLines(t3) && SingleLines(t4) && SingleLines(t5)
    ensures SingleLines(t1 + t2 + t3 + t4 + t5)
  {
    SingleLinesAppend(t1, t2);
    SingleLinesAppend(t1 + t2, t3);
    SingleLinesAppend(t1 + t2 + t3, t4);
    SingleLinesAppend(t1 + t2 + t3 + t4, t5);
  }

  /** The text made of the given lines, each terminated by `\n`. */
  function Unlines(ls: seq<string>): string {
    if ls == [] then "" else ls[0] + "\n" + Unlines(ls[1..])
  }

  lemma {:induction false} UnlinesCons(l: string, rest: seq<string>)
    ensures Unlines([l] + rest) == l + "\n" + Unlines(rest)
  {
    assert ([l] + rest)[1..] == rest;
  }

  lemma {:induction false} UnlinesAppend(a: seq<string>, b: seq<string>)
    ensures Unlines(a + b) == Unlines(a) + Unlines(b)
  {
    if a != [] {
      assert (a + b)[1..] == a[1..] + b;
      UnlinesAppend(a[1..], b);
    } else {
      assert a + b == b;
    }
  }

  lemma {:induction false} UnlinesIsJoin(ls: seq<string>)
    ensures Unlines(ls) == Join(ls + [""], "\n")
  {
    if ls != [] {
      UnlinesIsJoin(ls[1..]);
      assert (ls + [""])[1..] == ls[1..] + [""];
    }
  }

  /** Splitting newline-terminated single lines at `\n` gives the lines back,
      followed by the empty remainder after the last `\n`. */
  lemma {:induction false} SplitUnlines(ls: seq<string>)
    requires SingleLines(ls)
    ensures Split(Unlines(ls), '\n') == ls + [""]
  {
    UnlinesIsJoin(ls);
    SplitJoin(ls + [""], '\n');
  }

  /** `xs.forEach(x => text += f(x))` seen as a value: the texts of the
      elements, concatenated in order. */
  function ConcatMap<T>(xs: seq<T>, f: T -> string): string {
    if xs == [] then "" else ConcatMap(xs[..|xs| - 1], f) + f(xs[|xs| - 1])
  }

  /** The lines of the elements, concatenated in order. */
  function FlatMap<T>(xs: seq<T>, g: T -> seq<string>): seq<string> {
    if xs == [] then [] else FlatMap(xs[..|xs| - 1], g) + g(xs[|xs| - 1])
  }

  lemma {:induction false} Associate(a: string, b: string, c: string, d: string)
    ensures a + (b + (c + d)) == a + b + c + d
  {
  }

  // Regroupings of concatenations over abstract texts, which the
  // generators' proofs instantiate.

  lemma {:induction false} Associate3(a: string, b: string, c: string)
    ensures a + b + c == a + (b + c)
  {
  }

  lemma {:induction false} AssociateSix(s: string, a: string, b: string, c: string, d: string, e: string, g: string)
    ensures s + (a + b + c + d + e + g) == s + a + b + c + d + e + g
  {
  }

  lemma {:induction false} AssembleFive(s: string, a: string, b: string, c: string, d: string, e: string,
                 a': string, b': string, c': string, d': string, e': string)
    requires a == s + a' && b == b' && c == c' && d == d' && e == e'
    ensures a + b + c + d + e == s + (a' + b' + c' + d' + e')
  {
  }

  lemma {:induction false} LinesAssociate(a: seq<string>, b: seq<string>, c: seq<string>, d: seq<string>)
    ensures a + (b + (c + d)) == a + b + c + d
  {
  }

  lemma {:induction false} Splice(text: string, doc: string, body: string, sig: string, docs: string, bodies: string, all: string)
    requires text == doc + body && doc == sig + docs && body == bodies + "\n"
    requires all == docs + bodies
    ensures text == sig + all + "\n"
  {
  }

  lemma {:induction false} RegroupLines(x: string, d: string, e: string, g: string, n: string)
    ensures x + d + n + e + n + g + n == x + (d + n + e + n + g + n)
  {
  }

  lemma {:induction false} RegroupFive(a: string, b: string, c: string, d: string, e: string, q: string)
    ensures a + q + b + q + c + q + d + q + e == a + q + (b + q + (c + q + (d + q + e)))
  {
  }

  lemma {:induction false} ConcatMapSnoc<T>(xs: seq<T>, i: nat, f: T -> string)
    requires i < |xs|
    ensures ConcatMap(xs[..i + 1], f) == ConcatMap(xs[..i], f) + f(xs[i])
  {
    assert xs[..i + 1][..i] == xs[..i];
  }

  /** The same step after a fixed prefix: the loop invariant of a string
      builder that starts from a header. */
  lemma {:induction false} PrefixedSnoc<T>(h: string, xs: seq<T>, i: nat, f: T -> string)
    requires i < |xs|
    ensures h + ConcatMap(xs[..i + 1], f) == h + ConcatMap(xs[..i], f) + f(xs[i])
  {
    ConcatMapSnoc(xs, i, f);
  }

  lemma {:induction false} ConcatMapAppend<T>(a: seq<T>, b: seq<T>, f: T -> string)
    ensures ConcatMap(a + b, f) == ConcatMap(a, f) + ConcatMap(b, f)
    decreases |b|
  {
    if b == [] {
      assert a + b == a;
    } else {
      var b' := b[..|b| - 1];
      assert (a + b)[..|a + b| - 1] == a + b';
      ConcatMapAppend(a, b', f);
    }
  }

  lemma {:induction false} FlatMapAppend<T>(a: seq<T>, b: seq<T>, g: T -> seq<string>)
    ensures FlatMap(a + b, g) == FlatMap(a, g) + FlatMap(b, g)
    decreases |b|
  {
    if b == [] {
      assert a + b == a;
    } else {
      var b' := b[..|b| - 1];
      assert (a + b)[..|a + b| - 1] == a + b';
      FlatMapAppend(a, b', g);
    }
  }

  /** When each element renders as the lines `g` gives it, the concatenated
      rendering is the text of the concatenated lines. */
  lemma {:induction false} ConcatMapUnlines<T>(xs: seq<T>, f: T -> string, g: T -> seq<string>)
    requires forall x :: f(x) == Unlines(g(x))
    ensures ConcatMap(xs, f) == Unlines(FlatMap(xs, g))
  {
    if xs != [] {
      ConcatMapUnlines(xs[..|xs| - 1], f, g);
      UnlinesAppend(FlatMap(xs[..|xs| - 1], g), g(xs[|xs| - 1]));
    }
  }

  lemma {:induction false} FlatMapSingleLines<T>(xs: seq<T>, g: T -> seq<string>)
    requires forall i :: 0 <= i < |xs| ==> SingleLines(g(xs[i]))
    ensures SingleLines(FlatMap(xs, g))
  {
    if xs != [] {
      FlatMapSingleLines(xs[..|xs| - 1], g);
    }
  }

  /** Elements that each give `n` lines give `n` lines apiece. */
  lemma {:induction false} FlatMapUniform<T>(xs: seq<T>, g: T -> seq<string>, n: nat)
    requires forall i :: 0 <= i < |xs| ==> |g(xs[i])| == n
    ensures |FlatMap(xs, g)| == n * |xs|
  {
    if xs != [] {
      var init := xs[..|xs| - 1];
      assert forall i :: 0 <= i < |init| ==> init[i] == xs[i];
      FlatMapUniform(init, g, n);
      assert n * |xs| == n * |init| + n;
    }
  }

  /** The lines of element `i` sit between those of the elements before it
      and those of the elements after it. */
  lemma {:induction false} FlatMapSplitAt<T>(xs: seq<T>, g: T -> seq<string>, i: nat)
    requires i < |xs|
    ensures FlatMap(xs, g) == FlatMap(xs[..i], g) + g(xs[i]) + FlatMap(xs[i + 1..], g)
  {
    assert xs == xs[..i] + xs[i..];
    assert xs[i..] == [xs[i]] + xs[i + 1..];
    FlatMapAppend(xs[..i], xs[i..], g);
    FlatMapAppend([xs[i]], xs[i + 1..], g);
    assert [xs[i]][..0] == [];
  }

  /** Each element contributes its own lines, and nothing else: with `n`
      lines apiece, line `j` of element `i` is line `n * i + j`. */
  lemma {:induction false} FlatMapBlock<T>(xs: seq<T>, g: T -> seq<string>, n: nat, i: nat, j: nat)
    requires forall k :: 0 <= k < |xs| ==> |g(xs[k])| == n
    requires i < |xs| && j < n
    ensures n * i + j < |FlatMap(xs, g)| && FlatMap(xs, g)[n * i + j] == g(xs[i])[j]
  {
    FlatMapSplitAt(xs, g, i);
    var pre := xs[..i];
    assert forall k :: 0 <= k < |pre| ==> pre[k] == xs[k];
    FlatMapUniform(pre, g, n);
    var before := FlatMap(pre, g);
    var p := |before|;
    assert p == n * i;
    var all := FlatMap(xs, g);
    assert all == before + g(xs[i]) + FlatMap(xs[i + 1..], g);
    assert all[p + j] == g(xs[i])[j];
  }

  /** A line preceded by its line break, as the templates that start with
      `\n` append it. */
  function NewlineThen(line: string): string { "\n" + line }

  /** `xs.map(g)`. */
  function MapSeq<T>(xs: seq<T>, g: T -> string): (r: seq<string>)
    ensures |r| == |xs|
    ensures forall i :: 0 <= i < |xs| ==> r[i] == g(xs[i])
  {
    if xs == [] then [] else MapSeq(xs[..|xs| - 1], g) + [g(xs[|xs| - 1])]
  }

  /** The images of a non-empty sequence: the first image, then the rest. */
  lemma {:induction false} MapSeqFront<T>(xs: seq<T>, g: T -> string, tail: seq<string>)
    requires xs != []
    ensures MapSeq(xs, g) + tail == [g(xs[0])] + (MapSeq(xs[1..], g) + tail)
  {
    var l, r := MapSeq(xs, g) + tail, [g(xs[0])] + (MapSeq(xs[1..], g) + tail);
    assert |l| == |r|;
    forall i | 0 <= i < |l| ensures l[i] == r[i] {
      if i == 0 {
      } else if i < |xs| {
        assert r[i] == MapSeq(xs[1..], g)[i - 1];
      } else {
        assert l[i] == tail[i - |xs|];
      }
    }
  }

  /** Rendering each element is rendering the element's image. */
  lemma {:induction false} ConcatMapCompose<T>(xs: seq<T>, f: T -> string, g: T -> string, h: string -> string)
    requires forall x :: f(x) == h(g(x))
    ensures ConcatMap(xs, f) == ConcatMap(MapSeq(xs, g), h)
  {
    if xs != [] {
      var init := xs[..|xs| - 1];
      ConcatMapCompose(init, f, g, h);
      assert MapSeq(xs, g)[..|xs| - 1] == MapSeq(init, g);
    }
  }

  /** Text written as a first line followed by lines that each start with a
      line break, plus a final line break, is the text of all those lines. */
  lemma {:induction false} LeadingLines(first: string, ls: seq<string>)
    ensures first + ConcatMap(ls, NewlineThen) + "\n" == Unlines([first] + ls)
  {
    if ls == [] {
      UnlinesCons(first, []);
    } else {
      var n := |ls| - 1;
      var init := ls[..n];
      LeadingLines(first, init);
      ConcatMapSnoc(ls, n, NewlineThen);
      assert ls[..n + 1] == ls;
      assert [first] + ls == ([first] + init) + [ls[n]];
      LeadingStep(first, ConcatMap(init, NewlineThen), Unlines([first] + init), [first] + init, ls[n]);
    }
  }

  lemma {:induction false} LeadingStep(first: string, c: string, u: string, us: seq<string>, x: string)
    requires first + c + "\n" == u && u == Unlines(us)
    ensures first + (c + NewlineThen(x)) + "\n" == Unlines(us + [x])
  {
    UnlinesAppend(us, [x]);
    UnlinesCons(x, []);
    assert [x] + [] == [x];
    Associate(first, c, "\n" + x, "\n");
  }

  /** Lines each preceded by a line break are the line break followed by
      the lines joined with line breaks. */
  lemma {:induction false} ConcatMapNewlineJoin(ls: seq<string>)
    requires ls != []
    ensures ConcatMap(ls, NewlineThen) == "\n" + Join(ls, "\n")
  {
    var n := |ls| - 1;
    ConcatMapSnoc(ls, n, NewlineThen);
    assert ls[..n + 1] == ls;
    if n > 0 {
      var init := ls[..n];
      ConcatMapNewlineJoin(init);
      JoinSnoc(init, ls[n], "\n");
      assert init + [ls[n]] == ls;
      NewlineStep(ConcatMap(init, NewlineThen), Join(init, "\n"), ls[n]);
    } else {
      assert ls[..0] == [];
      assert Join(ls, "\n") == ls[0];
    }
  }

  lemma {:induction false} NewlineStep(c: string, j: string, x: string)
    requires c == "\n" + j
    ensures c + NewlineThen(x) == "\n" + (j + "\n" + x)
  {
    Associate("\n", j, "\n", x);
  }

  lemma {:induction false} JoinSnoc(ls: seq<string>, x: string, sep: string)
    requires ls != []
    ensures Join(ls + [x], sep) == Join(ls, sep) + sep + x
  {
    if |ls| > 1 {
      JoinSnoc(ls[1..], x, sep);
      assert (ls + [x])[1..] == ls[1..] + [x];
    } else {
      assert (ls + [x])[1..] == [x];
    }
  }

  lemma {:induction false} ConcatMapFive<T>(t1: seq<T>, t2: seq<T>, t3: seq<T>, t4: seq<T>, t5: seq<T>, f: T -> string)
    ensures ConcatMap(t1 + t2 + t3 + t4 + t5, f)
         == ConcatMap(t1, f) + ConcatMap(t2, f) + ConcatMap(t3, f) + ConcatMap(t4, f) + ConcatMap(t5, f)
  {
    ConcatMapAppend(t1 + t2 + t3 + t4, t5, f);
    ConcatMapAppend(t1 + t2 + t3, t4, f);
    ConcatMapAppend(t1 + t2, t3, f);
    ConcatMapAppend(t1, t2, f);
  }

  /** Rendering each element as one line is the text of the rendered lines. */
  lemma {:induction false} ConcatMapLines<T>(xs: seq<T>, f: T -> string, g: T -> string)
    requires forall x :: f(x) == g(x) + "\n"
    ensures ConcatMap(xs, f) == Unlines(MapSeq(xs, g))
  {
    if xs != [] {
      var init := xs[..|xs| - 1];
      ConcatMapLines(init, f, g);
      UnlinesAppend(MapSeq(init, g), [g(xs[|xs| - 1])]);
      UnlinesCons(g(xs[|xs| - 1]), []);
    }
  }

  lemma {:induction false} ConcatMapOne<T>(x: T, f: T -> string)
    ensures ConcatMap([x], f) == f(x)
  {
    assert [x][..0] == [];
  }

  lemma {:induction false} ConcatMapPair<T>(x: T, y: T, f: T -> string)
    ensures ConcatMap([x, y], f) == f(x) + f(y)
  {
    assert [x, y][..1] == [x];
    ConcatMapOne(x, f);
  }

  /** A character in none of the parts and not in the separator is not in the join. */
  lemma {:induction false} JoinAvoids(parts: seq<string>, sep: string, c: char)
    requires forall k :: 0 <= k < |parts| ==> c !in parts[k]
    requires c !in sep
    ensures c !in Join(parts, sep)
  {
    if |parts| > 1 {
      JoinAvoids(parts[1..], sep, c);
    }
  }

  // ---------------------------------------------------------------------
  // Indentation
  // ---------------------------------------------------------------------

  function Indent4(line: string): string { "    " + line }

  /** `code.split('\n').map(line => `    ${line}`).join('\n')`. */
  function IndentLines(code: string): string {
    Join(IndentEach(Split(code, '\n')), "\n")
  }

  function IndentEach(ls: seq<string>): (r: seq<string>)
    ensures |r| == |ls|
    ensures forall k :: 0 <= k < |ls| ==> r[k] == Indent4(ls[k])
  {
    if ls == [] then [] else [Indent4(ls[0])] + IndentEach(ls[1..])
  }

  /** Reference definition of indentation: four spaces before the text,
      and four more after every line break. */
  function IndentAfterBreaks(s: string): string {
    if s == [] then ""
    else if s[0] == '\n' then "\n    " + IndentAfterBreaks(s[1..])
    else [s[0]] + IndentAfterBreaks(s[1..])
  }

  /** Where part `k` of a join starts: every earlier part and its separator
      come before it. */
  function JoinOffset(parts: seq<string>, sep: string, k: nat): nat
    requires k <= |parts|
  {
    if k == 0 then 0 else JoinOffset(parts, sep, k - 1) + |parts[k - 1]| + |sep|
  }

  lemma {:induction false} JoinOffsetTail(parts: seq<string>, sep: string, k: nat)
    requires 1 <= k <= |parts|
    ensures JoinOffset(parts, sep, k) == |parts[0]| + |sep| + JoinOffset(parts[1..], sep, k - 1)
  {
    if k > 1 {
      JoinOffsetTail(parts, sep, k - 1);
      assert parts[1..][k - 2] == parts[k - 1];
    }
  }

  /** `w` occurs in `s` starting at `at`. */
  predicate OccursAt(s: string, at: nat, w: string) {
    at + |w| <= |s| && s[at..at + |w|] == w
  }

  lemma {:induction false} OccursFront(w: string, tail: string)
    ensures OccursAt(w + tail, 0, w)
  {
    assert (w + tail)[..|w|] == w;
  }

  /** An occurrence moves right by the length of a prefix. */
  lemma {:induction false} OccursShift(h: string, rest: string, at: nat, w: string)
    requires OccursAt(rest, at, w)
    ensures OccursAt(h + rest, |h| + at, w)
  {
    assert (h + rest)[|h| + at..|h| + at + |w|] == rest[at..at + |w|];
  }

  /** An occurrence stays where it is when text is appended. */
  lemma {:induction false} OccursExtend(s: string, tail: string, at: nat, w: string)
    requires OccursAt(s, at, w)
    ensures OccursAt(s + tail, at, w)
  {
    assert (s + tail)[at..at + |w|] == s[at..at + |w|];
  }

  /** Bracketing a text keeps its occurrences, one place to the right. */
  lemma {:induction false} OccursBracketed(q: string, at: nat, w: string)
    requires OccursAt(q, at, w)
    ensures OccursAt("[" + q + "]", 1 + at, w)
  {
    OccursExtend(q, "]", at, w);
    OccursShift("[", q + "]", at, w);
    assert "[" + q + "]" == "[" + (q + "]");
  }

  /** Every part of a join occurs in it, at its offset. */
  lemma {:induction false} JoinAt(parts: seq<string>, sep: string, k: nat)
    requires k < |parts|
    ensures OccursAt(Join(parts, sep), JoinOffset(parts, sep, k), parts[k])
  {
    if k == 0 {
      if |parts| > 1 {
        OccursFront(parts[0], sep + Join(parts[1..], sep));
        assert Join(parts, sep) == parts[0] + (sep + Join(parts[1..], sep));
      } else {
        OccursFront(parts[0], "");
        assert Join(parts, sep) == parts[0] + "";
      }
    } else {
      JoinAt(parts[1..], sep, k - 1);
      JoinOffsetTail(parts, sep, k);
      assert parts[1..][k - 1] == parts[k];
      OccursShift(parts[0] + sep, Join(parts[1..], sep), JoinOffset(parts[1..], sep, k - 1), parts[k]);
    }
  }

  /** The parts of a join come in order: part `j` and its separator end
      before any later part starts. */
  lemma {:induction false} JoinOrdered(parts: seq<string>, sep: string, j: nat, k: nat)
    requires j < k <= |parts|
    ensures JoinOffset(parts, sep, j) + |parts[j]| + |sep| <= JoinOffset(parts, sep, k)
  {
    if k > j + 1 {
      JoinOrdered(parts, sep, j, k - 1);
    }
  }

  lemma {:induction false} JoinFirst(x: string, tail: seq<string>, sep: string)
    ensures Join([x] + tail, sep) == x + (if tail == [] then "" else sep + Join(tail, sep))
  {
    assert ([x] + tail)[1..] == tail;
  }

  lemma {:induction false} IndentEachCons(x: string, ls: seq<string>)
    ensures IndentEach([x] + ls) == [Indent4(x)] + IndentEach(ls)
  {
    assert ([x] + ls)[1..] == ls;
  }

  lemma {:induction false} SplitAtBreak(s: string)
    requires s != [] && s[0] == '\n'
    ensures Split(s, '\n') == [""] + Split(s[1..], '\n')
  {
  }

  lemma {:induction false} BlankIndent(x: string)
    ensures "    " + ("\n" + x) == "    \n" + x
  {
    assert "    " + "\n" == "    \n";
  }

  lemma {:induction false} IndentLinesBreak(s: string)
    requires s != [] && s[0] == '\n'
    ensures IndentLines(s) == "    \n" + IndentLines(s[1..])
  {
    var rest := Split(s[1..], '\n');
    SplitAtBreak(s);
    IndentEachCons("", rest);
    assert Indent4("") == "    ";
    JoinFirst("    ", IndentEach(rest), "\n");
    BlankIndent(IndentLines(s[1..]));
  }

  lemma {:induction false} IndentLinesChar(s: string)
    requires s != [] && s[0] != '\n'
    ensures |IndentLines(s[1..])| >= 4
    ensures IndentLines(s) == "    " + [s[0]] + IndentLines(s[1..])[4..]
  {
    var rest := Split(s[1..], '\n');
    var tail := IndentEach(rest[1..]);
    var j := if tail == [] then "" else "\n" + Join(tail, "\n");
    IndentEachCons(rest[0], rest[1..]);
    assert [rest[0]] + rest[1..] == rest;
    IndentEachCons([s[0]] + rest[0], rest[1..]);
    JoinFirst(Indent4(rest[0]), tail, "\n");
    JoinFirst(Indent4([s[0]] + rest[0]), tail, "\n");
    IndentShift(s[0], rest[0], j);
  }

  lemma {:induction false} IndentShift(c: char, x: string, j: string)
    ensures |Indent4(x) + j| >= 4 && (Indent4(x) + j)[4..] == x + j
    ensures Indent4([c] + x) + j == "    " + [c] + (x + j)
  {
    assert |"    "| == 4;
  }

  /** Indenting line by line is the same as prefixing four spaces to the
      text and to every line that follows a line break. */
  lemma {:induction false} IndentLinesSpec(s: string)
    ensures IndentLines(s) == "    " + IndentAfterBreaks(s)
  {
    if s != [] {
      IndentLinesSpec(s[1..]);
      if s[0] == '\n' {
        IndentLinesBreak(s);
      } else {
        IndentLinesChar(s);
        assert IndentLines(s[1..])[4..] == IndentAfterBreaks(s[1..]);
      }
    }
  }
}
