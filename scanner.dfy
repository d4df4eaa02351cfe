/** The first pass of the script: every file is read in manifest order and
    every level-1 heading line becomes the next chapter. */
module Scanner {
  import opened Wrappers
  import opened Markdown
  import opened Chapters

  /** All lines of all files, files in manifest order, lines in file order. */
  function Flatten(files: seq<seq<string>>): seq<string> {
    if files == [] then [] else Flatten(files[..|files| - 1]) + files[|files| - 1]
  }

  /** The chapter list after the scan has seen `lines`: each heading line
      appends Chapter(len + 1, title). */
  function ScanLines(lines: seq<string>): (toc: seq<Chapter>)
    ensures |toc| <= |lines|
    ensures forall k :: 0 <= k < |toc| ==> toc[k].id == k + 1
  {
    if lines == [] then []
    else
      var toc := ScanLines(lines[..|lines| - 1]);
      match FindChapterTitle(lines[|lines| - 1])
      case Some(title) => toc + [Chapter(|toc| + 1, title)]
      case None => toc
  }

  /** The chapter list the scan of the manifest's files produces. */
  function Scan(files: seq<seq<string>>): seq<Chapter> {
    ScanLines(Flatten(files))
  }

  /** Scanning one more line extends the chapter list by that line's heading. */
  lemma ScanAppend(lines: seq<string>, line: string)
    ensures ScanLines(lines + [line]) ==
      match FindChapterTitle(line)
      case Some(title) => ScanLines(lines) + [Chapter(|ScanLines(lines)| + 1, title)]
      case None => ScanLines(lines)
  {
    assert (lines + [line])[..|lines|] == lines;
  }

  /** One step of the scan: the chapter list after one more line. */
  lemma ScanStep(before: seq<string>, lines: seq<string>, j: nat)
    requires j < |lines|
    ensures ScanLines(before + lines[..j + 1]) ==
      match FindChapterTitle(lines[j])
      case Some(title) => ScanLines(before + lines[..j]) + [Chapter(|ScanLines(before + lines[..j])| + 1, title)]
      case None => ScanLines(before + lines[..j])
  {
    assert before + lines[..j + 1] == (before + lines[..j]) + [lines[j]];
    ScanAppend(before + lines[..j], lines[j]);
  }

  /** The inner scan loop, over the lines of one file: `before` are the lines
      of the files already scanned. */
  method ScanFile(toc: seq<Chapter>, lines: seq<string>, ghost before: seq<string>)
    returns (extended: seq<Chapter>)
    requires toc == ScanLines(before)
    ensures extended == ScanLines(before + lines)
  {
    extended := toc;
    assert before + lines[..0] == before;
    for j := 0 to |lines|
      invariant extended == ScanLines(before + lines[..j])
    {
      ScanStep(before, lines, j);
      var title := FindChapterTitle(lines[j]);
      if title.Some? {
        extended := extended + [Chapter(|extended| + 1, title.value)];
      }
    }
    assert lines[..|lines|] == lines;
  }

  /** The scan loop of the script: nested loops over files and lines that
      append to the chapter list. */
  method ScanChapters(files: seq<seq<string>>) returns (toc: seq<Chapter>)
    ensures toc == Scan(files)
  {
    toc := [];
    for f := 0 to |files|
      invariant toc == ScanLines(Flatten(files[..f]))
    {
      assert files[..f + 1][..f] == files[..f];
      toc := ScanFile(toc, files[f], Flatten(files[..f]));
    }
    assert files[..|files|] == files;
  }

  /** Chapters are never renumbered: the list after a prefix of the lines is a
      prefix of the final list. */
  lemma {:induction false} ScanPrefix(lines: seq<string>, i: nat)
    requires i <= |lines|
    ensures ScanLines(lines[..i]) <= ScanLines(lines)
    decreases |lines| - i
  {
    if i < |lines| {
      var n := |lines|;
      ScanPrefix(lines[..n - 1], i);
      assert lines[..n - 1][..i] == lines[..i];
      var a, b, c := ScanLines(lines[..i]), ScanLines(lines[..n - 1]), ScanLines(lines);
      assert b == c[..|b|];
      assert a == b[..|a|] == c[..|b|][..|a|] == c[..|a|];
    } else {
      assert lines[..i] == lines;
    }
  }

  /** The heading on line i becomes chapter k + 1, where k is the number of
      heading lines before it, and its name is that line's title. */
  lemma ScanPosition(lines: seq<string>, i: nat, title: string)
    requires i < |lines| && FindChapterTitle(lines[i]) == Some(title)
    ensures var k := |ScanLines(lines[..i])|;
      k < |ScanLines(lines)| && ScanLines(lines)[k] == Chapter(k + 1, title)
  {
    assert lines[..i + 1][..i] == lines[..i];
    ScanPrefix(lines, i + 1);
  }

  /** Every chapter comes from a heading line: chapter k + 1 is the title of
      the heading line preceded by exactly k heading lines. */
  lemma {:induction false} ScanOrigin(lines: seq<string>, k: nat)
    requires k < |ScanLines(lines)|
    ensures exists i :: 0 <= i < |lines| && |ScanLines(lines[..i])| == k &&
                        FindChapterTitle(lines[i]) == Some(ScanLines(lines)[k].name)
  {
    var n := |lines|;
    var prev := ScanLines(lines[..n - 1]);
    if k < |prev| {
      ScanOrigin(lines[..n - 1], k);
      var i :| 0 <= i < n - 1 && |ScanLines(lines[..n - 1][..i])| == k &&
        FindChapterTitle(lines[..n - 1][i]) == Some(prev[k].name);
      assert lines[..n - 1][..i] == lines[..i];
    } else {
      assert FindChapterTitle(lines[n - 1]).Some?;
    }
  }
}
