/**
 * The export-stripping step of the bundler (scripts/build.py, `process_exports`):
 * split the module text at newlines, drop `export default` lines, remove the first
 * `export ` from other export lines, and join the lines again.
 */
module BuildExports {
  import opened Wrappers
  import JsArray

  // ---------------------------------------------------------------- Python string primitives

  /** `str.isspace()` for one character: the characters Python's `strip()` removes by default. */
  predicate IsSpace(c: char) {
    || ('\t' <= c <= '\r') || ('\U{1c}' <= c <= '\U{1f}') || c == ' '
    || c == '\U{85}' || c == '\U{a0}' || c == '\U{1680}' || ('\U{2000}' <= c <= '\U{200a}')
    || c == '\U{2028}' || c == '\U{2029}' || c == '\U{202f}' || c == '\U{205f}' || c == '\U{3000}'
  }

  /** The length of the leading run of whitespace. */
  function LeadingSpace(s: string): (n: nat)
    ensures n <= |s|
    ensures forall i :: 0 <= i < n ==> IsSpace(s[i])
    ensures n < |s| ==> !IsSpace(s[n])
  {
    if s == [] || !IsSpace(s[0]) then 0 else 1 + LeadingSpace(s[1..])
  }

  /** `s.lstrip()`. */
  function LStrip(s: string): string {
    s[LeadingSpace(s)..]
  }

  /** `s.rstrip()`: always a prefix of `s`. */
  function RStrip(s: string): (r: string)
    ensures r <= s
    ensures r == [] || !IsSpace(r[|r| - 1])
    ensures forall i :: |r| <= i < |s| ==> IsSpace(s[i])
  {
    if s == [] || !IsSpace(s[|s| - 1]) then s else RStrip(s[..|s| - 1])
  }

  /** `s.strip()`. */
  function Strip(s: string): string {
    RStrip(LStrip(s))
  }

  /** `s.startswith(prefix)`. */
  predicate StartsWith(s: string, prefix: string) {
    |prefix| <= |s| && s[..|prefix|] == prefix
  }

  /** `pattern` occurs in `s` at index `i`. */
  predicate OccursAt(s: string, pattern: string, i: nat) {
    i + |pattern| <= |s| && s[i..i + |pattern|] == pattern
  }

  /** `s.find(pattern)`, with `None` for -1. */
  function FindFirst(s: string, pattern: string): (r: Option<nat>)
    ensures r.Some? ==> OccursAt(s, pattern, r.value) && forall j :: 0 <= j < r.value ==> !OccursAt(s, pattern, j)
    ensures r.None? ==> forall j :: 0 <= j <= |s| ==> !OccursAt(s, pattern, j)
    decreases |s|
  {
    if |s| < |pattern| then None
    else if s[..|pattern|] == pattern then Some(0)
    else
      assert forall j :: 1 <= j <= |s| ==> (OccursAt(s, pattern, j) <==> OccursAt(s[1..], pattern, j - 1));
      match FindFirst(s[1..], pattern)
      case None => None
      case Some(i) => Some(i + 1)
  }

  /** `s.replace(pattern, replacement, 1)`. */
  function ReplaceFirst(s: string, pattern: string, replacement: string): string {
    match FindFirst(s, pattern)
    case None => s
    case Some(i) => s[..i] + replacement + s[i + |pattern|..]
  }

  /** `s.split('\n')`: always at least one line, none containing a newline. */
  function Split(s: string): (lines: seq<string>)
    ensures |lines| >= 1
    ensures forall i :: 0 <= i < |lines| ==> '\n' !in lines[i]
  {
    if s == [] then [[]]
    else
      var rest := Split(s[1..]);
      if s[0] == '\n' then [[]] + rest
      else [[s[0]] + rest[0]] + rest[1..]
  }

  /** `'\n'.join(lines)`. */
  function Join(lines: seq<string>): string {
    if |lines| == 0 then ""
    else if |lines| == 1 then lines[0]
    else lines[0] + "\n" + Join(lines[1..])
  }

  /** Extending the first line extends the joined text at the front. */
  lemma JoinExtendsFirst(c: char, first: string, tail: seq<string>)
    ensures Join([[c] + first] + tail) == [c] + Join([first] + tail)
  {
    if tail != [] {
      assert ([[c] + first] + tail)[1..] == tail;
      assert ([first] + tail)[1..] == tail;
    }
  }

  /** Splitting at newlines and joining with newlines gives the text back. */
  lemma {:induction false} JoinSplit(s: string)
    ensures Join(Split(s)) == s
  {
    if s != [] {
      var rest := Split(s[1..]);
      JoinSplit(s[1..]);
      if s[0] == '\n' {
        assert ([[]] + rest)[1..] == rest;
      } else {
        JoinExtendsFirst(s[0], rest[0], rest[1..]);
        assert [rest[0]] + rest[1..] == rest;
      }
    }
  }

  // ---------------------------------------------------------------- process_exports

  /** A line `process_exports` skips: its stripped form starts with `export default`. */
  predicate Dropped(line: string) {
    StartsWith(Strip(line), "export default")
  }

  predicate Kept(line: string) {
    !Dropped(line)
  }

  /** An export declaration: its stripped form starts with `export `. */
  predicate IsExportLine(line: string) {
    StartsWith(Strip(line), "export ")
  }

  /** The rewrite of a kept line. */
  function Rewrite(line: string): string {
    if IsExportLine(line) then ReplaceFirst(line, "export ", "") else line
  }

  /** What one line contributes to the result: nothing if it is dropped, else its rewrite. */
  function LineOutput(line: string): seq<string> {
    if Dropped(line) then [] else [Rewrite(line)]
  }

  /** The outputs of `f` for each line, concatenated in line order. */
  function ConcatMap(lines: seq<string>, f: string -> seq<string>): seq<string> {
    if lines == [] then [] else f(lines[0]) + ConcatMap(lines[1..], f)
  }

  lemma {:induction false} ConcatMapAppend(a: seq<string>, b: seq<string>, f: string -> seq<string>)
    ensures ConcatMap(a + b, f) == ConcatMap(a, f) + ConcatMap(b, f)
  {
    if a == [] {
      assert a + b == b;
    } else {
      assert (a + b)[0] == a[0];
      assert (a + b)[1..] == a[1..] + b;
      ConcatMapAppend(a[1..], b, f);
    }
  }

  /** The loop of `process_exports` over the lines, as a function. */
  function ProcessLines(lines: seq<string>): seq<string> {
    ConcatMap(lines, LineOutput)
  }

  /** `process_exports`. */
  method ProcessExports(jsContent: string) returns (out: string)
    ensures out == Join(ProcessLines(Split(jsContent)))
  {
    var lines := Split(jsContent);
    var result: seq<string> := [];
    for i := 0 to |lines|
      invariant result == ProcessLines(lines[..i])
    {
      var line := lines[i];
      ProcessLinesAppend(lines[..i], [line]);
      assert lines[..i + 1] == lines[..i] + [line];
      assert [line][1..] == [];
      assert ProcessLines([line]) == LineOutput(line) + [];
      if Dropped(line) {
        continue;
      }
      if IsExportLine(line) {
        line := ReplaceFirst(line, "export ", "");
      }
      result := result + [line];
    }
    assert lines[..|lines|] == lines;
    out := Join(result);
  }

  // ---------------------------------------------------------------- properties

  /** The lines are processed independently: processing distributes over concatenation. */
  lemma ProcessLinesAppend(a: seq<string>, b: seq<string>)
    ensures ProcessLines(a + b) == ProcessLines(a) + ProcessLines(b)
  {
    ConcatMapAppend(a, b, LineOutput);
  }

  /** `seq(|ls|, i => Rewrite(ls[i]))`. */
  function RewriteAll(lines: seq<string>): (r: seq<string>)
    ensures |r| == |lines| && forall i :: 0 <= i < |lines| ==> r[i] == Rewrite(lines[i])
  {
    if lines == [] then [] else [Rewrite(lines[0])] + RewriteAll(lines[1..])
  }

  /**
   * The result is the kept lines, in their original order, each rewritten; so
   * exactly the `export default` lines disappear and the count drops by theirs.
   */
  lemma {:induction false} ProcessLinesIsFilterThenRewrite(lines: seq<string>)
    ensures ProcessLines(lines) == RewriteAll(JsArray.Filter(lines, Kept))
    ensures |ProcessLines(lines)| == |lines| - |JsArray.Filter(lines, Dropped)|
  {
    if lines != [] {
      ProcessLinesIsFilterThenRewrite(lines[1..]);
      var head := if Kept(lines[0]) then [lines[0]] else [];
      assert RewriteAll(head + JsArray.Filter(lines[1..], Kept)) == RewriteAll(head) + RewriteAll(JsArray.Filter(lines[1..], Kept));
    }
  }

  /** A line that is not an export declaration is kept and left exactly as it is. */
  lemma NonExportLineUnchanged(line: string)
    requires !IsExportLine(line)
    ensures Kept(line) && Rewrite(line) == line
  {
  }

  /** Stripping can only cut a prefix of what follows the leading whitespace. */
  lemma StripIsPrefixAfterIndent(line: string)
    ensures Strip(line) <= line[LeadingSpace(line)..]
  {
  }

  /** An export declaration has `export ` right after its indentation. */
  lemma ExportAfterIndent(line: string)
    requires IsExportLine(line)
    ensures OccursAt(line, "export ", LeadingSpace(line))
  {
    var w := LeadingSpace(line);
    StripIsPrefixAfterIndent(line);
    var t := Strip(line);
    assert line[w..][..|t|] == t;
    assert line[w..w + 7] == t[..7];
  }

  /** Indentation cannot hold an occurrence: `e` is not whitespace. */
  lemma NoOccurrenceInIndent(line: string)
    ensures forall j :: 0 <= j < LeadingSpace(line) ==> !OccursAt(line, "export ", j)
  {
    forall j | 0 <= j < LeadingSpace(line) ensures !OccursAt(line, "export ", j) {
      assert IsSpace(line[j]);
    }
  }

  /**
   * An export declaration loses exactly the `export ` right after its indentation:
   * the indentation is kept, and the line is 7 characters shorter.
   */
  lemma ExportLineLosesPrefix(line: string)
    requires IsExportLine(line)
    ensures var w := LeadingSpace(line);
      && w + 7 <= |line|
      && Rewrite(line) == line[..w] + line[w + 7..]
      && |Rewrite(line)| == |line| - 7
  {
    ExportAfterIndent(line);
    NoOccurrenceInIndent(line);
    var w := LeadingSpace(line);
    DeleteFirst(line, "export ", w);
  }

  /** Replacing the first occurrence by nothing deletes it, wherever it is. */
  lemma DeleteFirst(s: string, pattern: string, w: nat)
    requires OccursAt(s, pattern, w)
    requires forall j :: 0 <= j < w ==> !OccursAt(s, pattern, j)
    ensures ReplaceFirst(s, pattern, "") == s[..w] + s[w + |pattern|..]
  {
    var f := FindFirst(s, pattern);
    assert f.Some?;
    assert s[..w] + "" == s[..w];
  }

  /** Lines with no export declaration pass through untouched. */
  lemma {:induction false} NoExportLinesUnchanged(lines: seq<string>)
    requires forall i :: 0 <= i < |lines| ==> !IsExportLine(lines[i])
    ensures ProcessLines(lines) == lines
  {
    if lines != [] {
      NonExportLineUnchanged(lines[0]);
      NoExportLinesUnchanged(lines[1..]);
    }
  }

  /** A module with no export lines comes back exactly as it was, since split and join round-trip. */
  lemma NoExportsUnchanged(jsContent: string)
    requires forall i :: 0 <= i < |Split(jsContent)| ==> !IsExportLine(Split(jsContent)[i])
    ensures Join(ProcessLines(Split(jsContent))) == jsContent
  {
    NoExportLinesUnchanged(Split(jsContent));
    JoinSplit(jsContent);
  }
}
