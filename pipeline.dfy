/** The two passes put together, as the script runs them once the manifest
    has been read, and what the assembly achieves on a chapter list that
    comes from scanning the same files. */
module Pipeline {
  import opened Wrappers
  import opened Numerals
  import opened Markdown
  import opened Chapters
  import opened Scanner
  import opened Assembler

  /** The output document for the files of a manifest. */
  function Render(files: seq<seq<string>>): string {
    Assemble(Scan(files), files)
  }

  /** The scan pass, then the assembly pass over the same files. */
  method Generate(files: seq<seq<string>>) returns (out: string)
    ensures out == Render(files)
  {
    var toc := ScanChapters(files);
    out := AssembleDocument(toc, files);
  }

  /** Line j of file f is line i of the flattened manifest. */
  lemma {:induction false} FlattenMember(files: seq<seq<string>>, f: nat, j: nat) returns (i: nat)
    requires f < |files| && j < |files[f]|
    ensures i < |Flatten(files)| && Flatten(files)[i] == files[f][j]
  {
    var n := |files|;
    var prev := Flatten(files[..n - 1]);
    if f == n - 1 {
      i := |prev| + j;
    } else {
      i := FlattenMember(files[..n - 1], f, j);
    }
  }

  /** No chapter name holds a line feed. */
  lemma {:induction false} ScanNamesOneLine(lines: seq<string>)
    ensures forall k :: 0 <= k < |ScanLines(lines)| ==> '\n' !in ScanLines(lines)[k].name
  {
    if lines != [] {
      ScanNamesOneLine(lines[..|lines| - 1]);
      if FindChapterTitle(lines[|lines| - 1]).Some? {
        TitleIsOneLine(lines[|lines| - 1]);
      }
    }
  }

  /** The generated table of contents has exactly one line per heading of the
      manifest's files. */
  lemma ScannedTocLineCount(files: seq<seq<string>>)
    ensures NewlineCount(TocText(Scan(files))) == |Scan(files)|
  {
    ScanNamesOneLine(Flatten(files));
    TocLineCount(Scan(files));
  }

  /** Both passes classify headings alike, so every heading line of the
      manifest's files gets an anchor: the "not found" case of the search
      never happens. The anchor is that of the last chapter with the same
      title, so headings with a repeated title all link to the last one. */
  lemma ScannedHeadingAnchored(files: seq<seq<string>>, f: nat, j: nat, title: string)
    requires f < |files| && j < |files[f]|
    requires FindChapterTitle(files[f][j]) == Some(title)
    ensures exists k :: (LastWithName(Scan(files), title, k) &&
                         RewriteLine(Scan(files), files[f][j]) ==
                           "# <a name=\"chapter-" + Decimal(k + 1) + "\"></a>" + title + "\n")
  {
    var toc := Scan(files);
    var line := files[f][j];
    var i := FlattenMember(files, f, j);
    ScanPosition(Flatten(files), i, title);
    LookupNone(toc, title);
    var k := LookupLast(toc, title);
    var c := toc[k];
    HeadingRewritten(toc, line, title);
    AnchoredHeadingText(c);
  }

  /** How the lines of the example below are classified. */
  lemma ExampleHeadings()
    ensures FindChapterTitle("# One\n") == Some("One")
    ensures FindChapterTitle("# Two\n") == Some("Two")
  {
    ExampleHeading("One");
    ExampleHeading("Two");
    assert "# " + "One" + "\n" == "# One\n";
    assert "# " + "Two" + "\n" == "# Two\n";
  }

  lemma ExampleHeading(t: string)
    requires t == "One" || t == "Two"
    ensures FindChapterTitle("# " + t + "\n") == Some(t)
  {
    HeadingRoundTrip(" ", t);
    assert "#" + " " + t + "\n" == "# " + t + "\n";
  }

  lemma ExampleMarker()
    ensures IsTocMarker("<!-- toc -->\n")
  {
    assert "<!-- toc -->\n" == MarkerText(" ", " ") + "\n";
    MarkerOfLayout("<!-- toc -->\n", " ", " ");
  }

  lemma ExamplePlain()
    ensures !IsTocMarker("# One\n") && !IsTocMarker("# Two\n") && !IsTocMarker("body\n")
    ensures FindChapterTitle("body\n") == None && FindChapterTitle("<!-- toc -->\n") == None
  {
  }

  lemma FourLineScan(a: string, b: string, c: string, d: string, ta: string, tc: string)
    requires FindChapterTitle(a) == Some(ta) && FindChapterTitle(c) == Some(tc)
    requires FindChapterTitle(b) == None && FindChapterTitle(d) == None
    ensures ScanLines([a, b, c, d]) == [Chapter(1, ta), Chapter(2, tc)]
  {
    assert [a][..0] == [];
    assert ScanLines([a]) == [Chapter(1, ta)];
    assert [a, b][..1] == [a];
    assert ScanLines([a, b]) == [Chapter(1, ta)];
    assert [a, b, c][..2] == [a, b];
    assert ScanLines([a, b, c]) == [Chapter(1, ta), Chapter(2, tc)];
    assert [a, b, c, d][..3] == [a, b, c];
  }

  lemma TocTextOfTwo(c0: Chapter, c1: Chapter)
    ensures TocText([c0, c1]) == TocEntry(c0) + TocEntry(c1)
  {
    assert [c0, c1][..1] == [c0] && [c0][..0] == [];
    assert TocText([c0]) == TocEntry(c0);
  }

  lemma RewriteLinesOfTwo(toc: seq<Chapter>, x: string, y: string)
    ensures RewriteLines(toc, [x, y]) == RewriteLine(toc, x) + RewriteLine(toc, y)
  {
    assert [x, y][..1] == [x] && [x][..0] == [];
    assert RewriteLines(toc, [x]) == RewriteLine(toc, x);
  }

  lemma AssembleOfOne(toc: seq<Chapter>, f0: seq<string>)
    ensures Assemble(toc, [f0]) == RewriteLines(toc, f0) + "\n"
  {
    assert RewriteFiles(toc, [f0]) == [RewriteLines(toc, f0)];
    StitchOne(RewriteLines(toc, f0));
  }

  lemma AssembleOfTwo(toc: seq<Chapter>, f0: seq<string>, f1: seq<string>)
    ensures Assemble(toc, [f0, f1]) == RewriteLines(toc, f0) + "\n" + (RewriteLines(toc, f1) + "\n")
  {
    var x, y := RewriteLines(toc, f0), RewriteLines(toc, f1);
    assert RewriteFiles(toc, [f0, f1]) == [x] + [y];
    StitchAppend([x], [y]);
    StitchOne(x);
    StitchOne(y);
  }

  lemma FlattenOfTwo(f0: seq<string>, f1: seq<string>)
    ensures Flatten([f0, f1]) == f0 + f1
  {
    assert [f0, f1][..1] == [f0] && [f0][..0] == [];
    assert Flatten([f0]) == f0;
  }

  /** The chapter list of the example below, over arbitrary lines. */
  lemma TwoFileScan(a: string, b: string, c: string, d: string, ta: string, tc: string)
    requires FindChapterTitle(a) == Some(ta) && FindChapterTitle(c) == Some(tc)
    requires IsPlain(b) && IsTocMarker(d)
    ensures Scan([[a, b], [c, d]]) == [Chapter(1, ta), Chapter(2, tc)]
  {
    FlattenOfTwo([a, b], [c, d]);
    assert [a, b] + [c, d] == [a, b, c, d];
    MarkerIsNotHeading(d);
    FourLineScan(a, b, c, d, ta, tc);
  }

  /** How each line of the example below is rewritten, over arbitrary lines. */
  lemma TwoFileLines(a: string, b: string, c: string, d: string, ta: string, tc: string)
    requires FindChapterTitle(a) == Some(ta) && FindChapterTitle(c) == Some(tc) && ta != tc
    requires IsPlain(b) && IsTocMarker(d)
    ensures RewriteLine([Chapter(1, ta), Chapter(2, tc)], a) == AnchoredHeading(Chapter(1, ta))
    ensures RewriteLine([Chapter(1, ta), Chapter(2, tc)], b) == b
    ensures RewriteLine([Chapter(1, ta), Chapter(2, tc)], c) == AnchoredHeading(Chapter(2, tc))
    ensures RewriteLine([Chapter(1, ta), Chapter(2, tc)], d) == d + TocText([Chapter(1, ta), Chapter(2, tc)])
  {
    var toc := [Chapter(1, ta), Chapter(2, tc)];
    assert Lookup(toc, ta) == Some(toc[0]) by {
      assert toc[..1] == [toc[0]];
    }
    HeadingRewritten(toc, a, ta);
    HeadingRewritten(toc, c, tc);
  }

  /** The shape of the example below, over arbitrary lines: a heading and a
      plain line, then a heading and a marker. */
  lemma TwoFileShape(a: string, b: string, c: string, d: string, ta: string, tc: string)
    requires FindChapterTitle(a) == Some(ta) && FindChapterTitle(c) == Some(tc) && ta != tc
    requires IsPlain(b) && IsTocMarker(d)
    ensures Render([[a, b], [c, d]]) ==
      AnchoredHeading(Chapter(1, ta)) + b + "\n" + AnchoredHeading(Chapter(2, tc)) + d +
      TocEntry(Chapter(1, ta)) + TocEntry(Chapter(2, tc)) + "\n"
  {
    var toc := [Chapter(1, ta), Chapter(2, tc)];
    TwoFileScan(a, b, c, d, ta, tc);
    TwoFileLines(a, b, c, d, ta, tc);
    TocTextOfTwo(toc[0], toc[1]);
    RewriteLinesOfTwo(toc, a, b);
    RewriteLinesOfTwo(toc, c, d);
    AssembleOfTwo(toc, [a, b], [c, d]);
    Regroup(AnchoredHeading(toc[0]), b, AnchoredHeading(toc[1]), d, TocEntry(toc[0]), TocEntry(toc[1]));
  }

  /** Reassociation of the example's output pieces. */
  lemma Regroup(p: string, q: string, r: string, s: string, t: string, u: string)
    ensures p + q + "\n" + (r + (s + (t + u)) + "\n") == p + q + "\n" + r + s + t + u + "\n"
  {
  }

  lemma ExampleEntry1()
    ensures TocEntry(Chapter(1, "One")) == "1. [One](#chapter-1)\n"
  {
    assert Decimal(1) == "1";
    assert Chapter(1, "One").TagName() == "chapter-1";
  }

  lemma ExampleEntry2()
    ensures TocEntry(Chapter(2, "Two")) == "2. [Two](#chapter-2)\n"
  {
    assert Decimal(2) == "2";
    assert Chapter(2, "Two").TagName() == "chapter-2";
  }

  lemma ExampleAnchor1()
    ensures AnchoredHeading(Chapter(1, "One")) == "# <a name=\"chapter-1\"></a>One\n"
  {
    assert Decimal(1) == "1";
    assert Chapter(1, "One").TagName() == "chapter-1";
  }

  lemma ExampleAnchor2()
    ensures AnchoredHeading(Chapter(2, "Two")) == "# <a name=\"chapter-2\"></a>Two\n"
  {
    assert Decimal(2) == "2";
    assert Chapter(2, "Two").TagName() == "chapter-2";
  }

  /** Two files, a heading and a body line in the first, a heading and the
      marker in the second: both headings are anchored, the marker is kept and
      followed by the two entries, and each file is followed by a blank line. */
  lemma TwoFileExample()
    ensures Render([["# One\n", "body\n"], ["# Two\n", "<!-- toc -->\n"]]) ==
      "# <a name=\"chapter-1\"></a>One\n" + "body\n" + "\n" +
      "# <a name=\"chapter-2\"></a>Two\n" + "<!-- toc -->\n" +
      "1. [One](#chapter-1)\n" + "2. [Two](#chapter-2)\n" + "\n"
  {
    ExampleHeadings();
    ExampleMarker();
    ExamplePlain();
    TwoFileShape("# One\n", "body\n", "# Two\n", "<!-- toc -->\n", "One", "Two");
    ExampleEntry1();
    ExampleEntry2();
    ExampleAnchor1();
    ExampleAnchor2();
  }
}
