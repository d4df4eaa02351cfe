/** The second pass of the script: every file is read again in manifest order
    and written to the output, with the table-of-contents marker expanded and
    level-1 headings given anchors. */
module Assembler {
  import opened Wrappers
  import opened Numerals
  import opened Markdown
  import opened Chapters
  import opened Scanner

  /** One line of the generated table of contents: `<id>. [<name>](#<tag>)`. */
  function TocEntry(c: Chapter): string {
    Decimal(c.id) + ". [" + c.name + "](#" + c.TagName() + ")\n"
  }

  /** The generated table of contents: one entry per chapter, in list order. */
  function TocText(toc: seq<Chapter>): string {
    if toc == [] then "" else TocText(toc[..|toc| - 1]) + TocEntry(toc[|toc| - 1])
  }

  /** A heading rewritten with its anchor: `# <a name="<tag>"></a><name>`. */
  function AnchoredHeading(c: Chapter): string {
    "# <a name=\"" + c.TagName() + "\"></a>" + c.name + "\n"
  }

  /** The chapter the search over the chapter list settles on: it does not stop
      at the first match, so it is the last chapter with that name. */
  function Lookup(toc: seq<Chapter>, title: string): Option<Chapter> {
    if toc == [] then None
    else if toc[|toc| - 1].name == title then Some(toc[|toc| - 1])
    else Lookup(toc[..|toc| - 1], title)
  }

  /** What the assembly writes for one input line, tests in the script's order:
      marker first, then heading, else the line itself. */
  function RewriteLine(toc: seq<Chapter>, line: string): string {
    if IsTocMarker(line) then line + TocText(toc)
    else
      match FindChapterTitle(line)
      case None => line
      case Some(title) =>
        match Lookup(toc, title)
        case Some(c) => AnchoredHeading(c)
        case None => line
  }

  /** What the assembly writes for the lines of one file. */
  function RewriteLines(toc: seq<Chapter>, lines: seq<string>): string {
    if lines == [] then ""
    else RewriteLines(toc, lines[..|lines| - 1]) + RewriteLine(toc, lines[|lines| - 1])
  }

  /** The texts written for the files, in order, each followed by "\n". */
  function Stitch(texts: seq<string>): string {
    if texts == [] then "" else Stitch(texts[..|texts| - 1]) + texts[|texts| - 1] + "\n"
  }

  /** What the assembly writes for each file of the manifest. */
  function RewriteFiles(toc: seq<Chapter>, files: seq<seq<string>>): seq<string> {
    seq(|files|, i requires 0 <= i < |files| => RewriteLines(toc, files[i]))
  }

  /** The output document: each file's rewritten lines followed by "\n". */
  function Assemble(toc: seq<Chapter>, files: seq<seq<string>>): string {
    Stitch(RewriteFiles(toc, files))
  }

  /** The search loop of the assembly: `chapter` is reassigned at every
      chapter whose name matches. */
  method FindChapter(toc: seq<Chapter>, title: string) returns (chapter: Option<Chapter>)
    ensures chapter == Lookup(toc, title)
  {
    chapter := None;
    for i := 0 to |toc|
      invariant chapter == Lookup(toc[..i], title)
    {
      assert toc[..i + 1][..i] == toc[..i];
      if toc[i].name == title {
        chapter := Some(toc[i]);
      }
    }
    assert toc[..|toc|] == toc;
  }

  /** The table-of-contents loop: one entry per chapter appended to out. */
  method WriteToc(out: string, toc: seq<Chapter>) returns (written: string)
    ensures written == out + TocText(toc)
  {
    written := out;
    for i := 0 to |toc|
      invariant written == out + TocText(toc[..i])
    {
      assert toc[..i + 1][..i] == toc[..i];
      written := written + TocEntry(toc[i]);
    }
    assert toc[..|toc|] == toc;
  }

  lemma RewriteLinesStep(out: string, toc: seq<Chapter>, lines: seq<string>, j: nat)
    requires j < |lines|
    ensures out + RewriteLines(toc, lines[..j + 1]) ==
            (out + RewriteLines(toc, lines[..j])) + RewriteLine(toc, lines[j])
  {
    assert lines[..j + 1][..j] == lines[..j];
  }

  lemma AssembleStep(toc: seq<Chapter>, files: seq<seq<string>>, f: nat)
    requires f < |files|
    ensures Assemble(toc, files[..f + 1]) == Assemble(toc, files[..f]) + RewriteLines(toc, files[f]) + "\n"
  {
    assert RewriteFiles(toc, files[..f + 1])[..f] == RewriteFiles(toc, files[..f]);
  }

  /** The body of the assembly loop for one line: the marker test first, then
      the heading test and the search, else the line is copied. */
  method WriteLine(out: string, toc: seq<Chapter>, line: string) returns (written: string)
    ensures written == out + RewriteLine(toc, line)
  {
    if IsTocMarker(line) {
      written := out + line;
      written := WriteToc(written, toc);
      assert written == out + (line + TocText(toc));
    } else {
      var title := FindChapterTitle(line);
      if title.None? {
        written := out + line;
      } else {
        var chapter := FindChapter(toc, title.value);
        assert RewriteLine(toc, line) == if chapter.Some? then AnchoredHeading(chapter.value) else line;
        if chapter.Some? {
          written := out + AnchoredHeading(chapter.value);
        } else {
          written := out + line;
        }
      }
    }
  }

  /** The loop over the lines of one file in the assembly. */
  method WriteLines(out: string, toc: seq<Chapter>, lines: seq<string>) returns (written: string)
    ensures written == out + RewriteLines(toc, lines)
  {
    written := out;
    for j := 0 to |lines|
      invariant written == out + RewriteLines(toc, lines[..j])
    {
      RewriteLinesStep(out, toc, lines, j);
      written := WriteLine(written, toc, lines[j]);
    }
    assert lines[..|lines|] == lines;
  }

  /** The assembly loop of the script: the output buffer receives every
      line of every file, rewritten, and "\n" after each file. */
  method AssembleDocument(toc: seq<Chapter>, files: seq<seq<string>>) returns (out: string)
    ensures out == Assemble(toc, files)
  {
    out := "";
    for f := 0 to |files|
      invariant out == Assemble(toc, files[..f])
    {
      AssembleStep(toc, files, f);
      out := WriteLines(out, toc, files[f]);
      out := out + "\n";
    }
    assert files[..|files|] == files;
  }

  /** The chapter at index k is the last one in the list named title. */
  ghost predicate LastWithName(toc: seq<Chapter>, title: string, k: int) {
    0 <= k < |toc| && toc[k].name == title &&
    forall j :: k < j < |toc| ==> toc[j].name != title
  }

  /** The search finds nothing exactly when no chapter has the name. */
  lemma {:induction false} LookupNone(toc: seq<Chapter>, title: string)
    ensures Lookup(toc, title).None? <==> forall k :: 0 <= k < |toc| ==> toc[k].name != title
  {
    if toc != [] && toc[|toc| - 1].name != title {
      var prev := toc[..|toc| - 1];
      LookupNone(prev, title);
      assert forall k :: 0 <= k < |prev| ==> prev[k] == toc[k];
    }
  }

  /** When the search finds a chapter, it is the last one with the name. */
  lemma {:induction false} LookupLast(toc: seq<Chapter>, title: string) returns (k: nat)
    requires Lookup(toc, title).Some?
    ensures LastWithName(toc, title, k) && toc[k] == Lookup(toc, title).value
  {
    var n := |toc|;
    if toc[n - 1].name == title {
      k := n - 1;
    } else {
      var prev := toc[..n - 1];
      k := LookupLast(prev, title);
      assert prev[k] == toc[k];
    }
  }

  lemma StitchOne(x: string)
    ensures Stitch([x]) == x + "\n"
  {
    assert [x][..0] == [];
  }

  /** Stitching two lists of texts back to back is stitching their
      concatenation. */
  lemma {:induction false} StitchAppend(x: seq<string>, y: seq<string>)
    ensures Stitch(x + y) == Stitch(x) + Stitch(y)
    decreases |y|
  {
    if y == [] {
      assert x + y == x;
    } else {
      var n := |y|;
      assert (x + y)[..|x + y| - 1] == x + y[..n - 1];
      StitchAppend(x, y[..n - 1]);
    }
  }

  /** Assembling two manifests back to back is assembling their
      concatenation: each file is written independently of the others. */
  lemma AssembleAppend(toc: seq<Chapter>, a: seq<seq<string>>, b: seq<seq<string>>)
    ensures Assemble(toc, a + b) == Assemble(toc, a) + Assemble(toc, b)
  {
    var x, y := RewriteFiles(toc, a), RewriteFiles(toc, b);
    forall k | 0 <= k < |a + b|
      ensures RewriteFiles(toc, a + b)[k] == (x + y)[k]
    {
      if k < |a| {
        assert (a + b)[k] == a[k];
      } else {
        assert (a + b)[k] == b[k - |a|];
      }
    }
    assert RewriteFiles(toc, a + b) == x + y;
    StitchAppend(RewriteFiles(toc, a), RewriteFiles(toc, b));
  }

  /** A heading line is written with the anchor of the chapter the search
      finds, and unchanged when the search finds none. */
  lemma HeadingRewritten(toc: seq<Chapter>, line: string, title: string)
    requires FindChapterTitle(line) == Some(title)
    ensures Lookup(toc, title).Some? ==> RewriteLine(toc, line) == AnchoredHeading(Lookup(toc, title).value)
    ensures Lookup(toc, title).None? ==> RewriteLine(toc, line) == line
  {
    if IsTocMarker(line) {
      MarkerIsNotHeading(line);
      assert false;
    }
  }

  /** The anchored heading spelled out: the anchor name is "chapter-" and the
      decimal id. */
  lemma AnchoredHeadingText(c: Chapter)
    ensures AnchoredHeading(c) == "# <a name=\"chapter-" + Decimal(c.id) + "\"></a>" + c.name + "\n"
  {
    assert "# <a name=\"" + "chapter-" == "# <a name=\"chapter-";
  }

  /** The text of a file: its lines one after another. */
  function Joined(lines: seq<string>): string {
    if lines == [] then "" else Joined(lines[..|lines| - 1]) + lines[|lines| - 1]
  }

  /** A line that is neither a marker nor a level-1 heading. */
  predicate IsPlain(line: string) {
    !IsTocMarker(line) && FindChapterTitle(line).None?
  }

  /** A file without markers and headings is written byte for byte. */
  lemma {:induction false} PlainLinesUnchanged(toc: seq<Chapter>, lines: seq<string>)
    requires forall i :: 0 <= i < |lines| ==> IsPlain(lines[i])
    ensures RewriteLines(toc, lines) == Joined(lines)
  {
    if lines != [] {
      PlainLinesUnchanged(toc, lines[..|lines| - 1]);
    }
  }

  /** The number of line feeds in s, that is, the number of lines it ends. */
  function NewlineCount(s: string): nat {
    if s == [] then 0
    else NewlineCount(s[..|s| - 1]) + (if s[|s| - 1] == '\n' then 1 else 0)
  }

  lemma {:induction false} NewlineCountAppend(a: string, b: string)
    ensures NewlineCount(a + b) == NewlineCount(a) + NewlineCount(b)
    decreases |b|
  {
    if b != [] {
      assert (a + b)[..|a + b| - 1] == a + b[..|b| - 1];
      assert (a + b)[|a + b| - 1] == b[|b| - 1];
      NewlineCountAppend(a, b[..|b| - 1]);
    } else {
      assert a + b == a;
    }
  }

  lemma {:induction false} NoNewline(s: string)
    requires '\n' !in s
    ensures NewlineCount(s) == 0
  {
    if s != [] {
      assert s[..|s| - 1] <= s;
      NoNewline(s[..|s| - 1]);
    }
  }

  /** An anchor name holds no line feed. */
  lemma TagNameOneLine(c: Chapter)
    ensures '\n' !in c.TagName()
  {
    var d := Decimal(c.id);
    assert c.TagName() == TagPrefix + d;
    assert forall i :: 0 <= i < |d| ==> d[i] != '\n';
  }

  /** A table-of-contents entry is one line, when the chapter name is. */
  lemma TocEntryIsOneLine(c: Chapter)
    requires '\n' !in c.name
    ensures NewlineCount(TocEntry(c)) == 1
    ensures TocEntry(c)[|TocEntry(c)| - 1] == '\n'
  {
    var d := Decimal(c.id);
    TagNameOneLine(c);
    assert forall i :: 0 <= i < |d| ==> d[i] != '\n';
    var body := d + ". [" + c.name + "](#" + c.TagName() + ")";
    assert TocEntry(c) == body + "\n";
    assert '\n' !in body;
    NoNewline(body);
    NewlineCountAppend(body, "\n");
  }

  /** A rewritten heading is still one line, when the chapter name is. */
  lemma AnchoredHeadingIsOneLine(c: Chapter)
    requires '\n' !in c.name
    ensures NewlineCount(AnchoredHeading(c)) == 1
    ensures AnchoredHeading(c)[|AnchoredHeading(c)| - 1] == '\n'
  {
    TagNameOneLine(c);
    var body := "# <a name=\"" + c.TagName() + "\"></a>" + c.name;
    assert AnchoredHeading(c) == body + "\n";
    assert '\n' !in body;
    NoNewline(body);
    NewlineCountAppend(body, "\n");
  }

  /** The table of contents of two chapter lists back to back is the first's
      entries followed by the second's: entries come in list order. */
  lemma {:induction false} TocTextAppend(a: seq<Chapter>, b: seq<Chapter>)
    ensures TocText(a + b) == TocText(a) + TocText(b)
    decreases |b|
  {
    if b == [] {
      assert a + b == a;
    } else {
      var n := |b|;
      var last := TocEntry(b[n - 1]);
      assert (a + b)[..|a + b| - 1] == a + b[..n - 1];
      assert (a + b)[|a + b| - 1] == b[n - 1];
      calc {
        TocText(a + b);
        TocText(a + b[..n - 1]) + last;
        { TocTextAppend(a, b[..n - 1]); }
        (TocText(a) + TocText(b[..n - 1])) + last;
        TocText(a) + (TocText(b[..n - 1]) + last);
        TocText(a) + TocText(b);
      }
    }
  }

  /** The table of contents has exactly one line per chapter. */
  lemma {:induction false} TocLineCount(toc: seq<Chapter>)
    requires forall k :: 0 <= k < |toc| ==> '\n' !in toc[k].name
    ensures NewlineCount(TocText(toc)) == |toc|
  {
    if toc != [] {
      var n := |toc|;
      TocLineCount(toc[..n - 1]);
      TocEntryIsOneLine(toc[n - 1]);
      NewlineCountAppend(TocText(toc[..n - 1]), TocEntry(toc[n - 1]));
    }
  }
}
