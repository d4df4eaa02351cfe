/** Classification of one input line: the level-1 heading pattern
    `^#[\s]+(?P<title>.*)` of findChapterTitle and the table-of-contents marker
    pattern `^<!--[\s]+(toc)[\s]+-->$` of isTableOfContentsMarker, both written
    out by hand for Python's `re.match` semantics. */
module Markdown {
  import opened Wrappers

  /** The characters the pattern class `\s` stands for here: space, tab,
      line feed, carriage return, form feed and vertical tab. */
  predicate IsSpace(c: char) {
    c == ' ' || c == '\t' || c == '\n' || c == '\r' || c == '\U{C}' || c == '\U{B}'
  }

  predicate AllSpace(s: string) {
    forall i :: 0 <= i < |s| ==> IsSpace(s[i])
  }

  /** Where `[\s]+` (or `[\s]*`) stops when it starts at index i of s: it
      consumes whitespace greedily, so this is the end of the run. */
  function SpaceRunEnd(s: string, i: nat): (j: nat)
    requires i <= |s|
    ensures i <= j <= |s|
    ensures j == |s| || !IsSpace(s[j])
    decreases |s| - i
  {
    if i < |s| && IsSpace(s[i]) then SpaceRunEnd(s, i + 1) else i
  }

  /** Everything SpaceRunEnd skips is whitespace. */
  lemma {:induction false} SpaceRun(s: string, i: nat)
    requires i <= |s|
    ensures AllSpace(s[i..SpaceRunEnd(s, i)])
    decreases |s| - i
  {
    if i < |s| && IsSpace(s[i]) {
      SpaceRun(s, i + 1);
      assert s[i..SpaceRunEnd(s, i)] == [s[i]] + s[i + 1..SpaceRunEnd(s, i + 1)];
    }
  }

  /** A run of n whitespace characters from index i, not followed by more
      whitespace, ends at i + n. */
  lemma {:induction false} SpaceRunEndAt(s: string, i: nat, n: nat)
    requires i + n <= |s| && AllSpace(s[i..i + n])
    requires i + n == |s| || !IsSpace(s[i + n])
    ensures SpaceRunEnd(s, i) == i + n
    decreases n
  {
    if n > 0 {
      assert s[i..i + n][0] == s[i];
      assert s[i + 1..i + 1 + (n - 1)] == s[i..i + n][1..];
      SpaceRunEndAt(s, i + 1, n - 1);
    }
  }

  /** Where `.*` stops when it starts at index i of s: `.` matches anything
      except a line feed, so this is the first line feed, or the end. */
  function LineEnd(s: string, i: nat): (j: nat)
    requires i <= |s|
    ensures i <= j <= |s|
    ensures j == |s| || s[j] == '\n'
    decreases |s| - i
  {
    if i == |s| || s[i] == '\n' then i else LineEnd(s, i + 1)
  }

  /** What LineEnd skips holds no line feed. */
  lemma {:induction false} NoNewlineBeforeLineEnd(s: string, i: nat)
    requires i <= |s|
    ensures '\n' !in s[i..LineEnd(s, i)]
    decreases |s| - i
  {
    if i < |s| && s[i] != '\n' {
      NoNewlineBeforeLineEnd(s, i + 1);
      assert s[i..LineEnd(s, i)] == [s[i]] + s[i + 1..LineEnd(s, i + 1)];
    }
  }

  /** n characters from index i without a line feed, then a line feed or the
      end: the match of `.*` ends at i + n. */
  lemma {:induction false} LineEndAt(s: string, i: nat, n: nat)
    requires i + n <= |s| && '\n' !in s[i..i + n]
    requires i + n == |s| || s[i + n] == '\n'
    ensures LineEnd(s, i) == i + n
    decreases n
  {
    if n > 0 {
      assert s[i..i + n][0] == s[i];
      assert s[i + 1..i + 1 + (n - 1)] == s[i..i + n][1..];
      LineEndAt(s, i + 1, n - 1);
    }
  }

  /** findChapterTitle: the title of a level-1 heading line, None for any
      other line. `#` must be followed at once by whitespace, so `##`,
      `## Title` and `#Title` are not headings. */
  function FindChapterTitle(line: string): (title: Option<string>)
    ensures title.Some? <==> |line| >= 2 && line[0] == '#' && IsSpace(line[1])
  {
    if |line| >= 2 && line[0] == '#' && IsSpace(line[1]) then
      var j := SpaceRunEnd(line, 1);
      Some(line[j..LineEnd(line, j)])
    else
      None
  }

  /** A title never holds a line feed. */
  lemma TitleIsOneLine(line: string)
    requires FindChapterTitle(line).Some?
    ensures '\n' !in FindChapterTitle(line).value
  {
    NoNewlineBeforeLineEnd(line, SpaceRunEnd(line, 1));
  }

  /** A heading line laid out as `#`, a maximal non-empty whitespace run w,
      the title t (no line feed in it), and the rest of the line, which is
      empty or starts at a line feed. */
  ghost predicate HeadingLayout(line: string, w: string, t: string, rest: string) {
    line == "#" + w + t + rest &&
    w != [] && AllSpace(w) &&
    (t + rest == [] || !IsSpace((t + rest)[0])) &&
    '\n' !in t &&
    (rest == [] || rest[0] == '\n')
  }

  lemma LayoutOfTitle(line: string, t: string)
    requires FindChapterTitle(line) == Some(t)
    ensures exists w, rest :: HeadingLayout(line, w, t, rest)
  {
    var j := SpaceRunEnd(line, 1);
    var e := LineEnd(line, j);
    SpaceRun(line, 1);
    NoNewlineBeforeLineEnd(line, j);
    var w, rest := line[1..j], line[e..];
    assert line == line[..1] + w + t + rest;
    assert line[..1] == "#";
    assert t + rest == line[j..];
    assert HeadingLayout(line, w, t, rest);
  }

  lemma TitleOfLayout(line: string, w: string, t: string, rest: string)
    requires HeadingLayout(line, w, t, rest)
    ensures FindChapterTitle(line) == Some(t)
  {
    var j := 1 + |w|;
    var e := j + |t|;
    assert line[1..j] == w && line[j..e] == t && line[e..] == rest;
    assert line[j..] == t + rest;
    SpaceRunEndAt(line, 1, |w|);
    LineEndAt(line, j, |t|);
  }

  /** The heading pattern matches exactly the lines with a heading layout, and
      the title it captures is the title of that layout. */
  lemma HeadingLayoutIff(line: string, t: string)
    ensures FindChapterTitle(line) == Some(t) <==> exists w, rest :: HeadingLayout(line, w, t, rest)
  {
    if FindChapterTitle(line) == Some(t) {
      LayoutOfTitle(line, t);
    }
    if exists w, rest :: HeadingLayout(line, w, t, rest) {
      var w, rest :| HeadingLayout(line, w, t, rest);
      TitleOfLayout(line, w, t, rest);
    }
  }

  /** Writing a title back as a heading and reading it again gives the title:
      with or without the final line feed, and whatever whitespace run
      separates it from the `#`. */
  lemma HeadingRoundTrip(w: string, t: string)
    requires w != [] && AllSpace(w)
    requires '\n' !in t && (t == [] || !IsSpace(t[0]))
    ensures FindChapterTitle("#" + w + t + "\n") == Some(t)
    ensures FindChapterTitle("#" + w + t) == Some(t)
  {
    if t == [] {
      assert HeadingLayout("#" + w + t + "\n", w + "\n", t, []);
      assert HeadingLayout("#" + w + t, w, t, []);
    } else {
      assert HeadingLayout("#" + w + t + "\n", w, t, "\n");
      assert HeadingLayout("#" + w + t, w, t, []);
    }
    TitleOfLayout("#" + w + t + "\n", if t == [] then w + "\n" else w, t, if t == [] then [] else "\n");
    TitleOfLayout("#" + w + t, w, t, []);
  }

  /** Edge cases of the heading pattern: the whitespace run may swallow the
      line feed, leaving an empty title; characters before the line feed,
      a carriage return included, stay in the title; `##` and `#Title` are
      not level-1 headings. */
  lemma HeadingExamples()
    ensures FindChapterTitle("#\n") == Some("")
    ensures FindChapterTitle("# \n") == Some("")
    ensures FindChapterTitle("# A \r\n") == Some("A \r")
    ensures FindChapterTitle("## A\n") == None && FindChapterTitle("#A\n") == None
  {
    TitleOfLayout("#\n", "\n", "", "");
    TitleOfLayout("# \n", " \n", "", "");
    TitleOfLayout("# A \r\n", " ", "A \r", "\n");
  }

  /** isTableOfContentsMarker, with the script's None result read as false. */
  predicate IsTocMarker(line: string) {
    |line| >= 4 && line[..4] == "<!--" &&
    var j := SpaceRunEnd(line, 4);
    4 < j && j + 3 <= |line| && line[j..j + 3] == "toc" &&
    var k := SpaceRunEnd(line, j + 3);
    j + 3 < k && (line[k..] == "-->" || line[k..] == "-->\n")
  }

  /** The marker text without the optional final line feed. */
  function MarkerText(w1: string, w2: string): string {
    "<!--" + w1 + "toc" + w2 + "-->"
  }

  /** A line laid out as a marker around the whitespace runs w1 and w2. */
  ghost predicate MarkerLayout(line: string, w1: string, w2: string) {
    w1 != [] && w2 != [] && AllSpace(w1) && AllSpace(w2) &&
    (line == MarkerText(w1, w2) || line == MarkerText(w1, w2) + "\n")
  }

  lemma LayoutOfMarker(line: string)
    requires IsTocMarker(line)
    ensures exists w1, w2 :: MarkerLayout(line, w1, w2)
  {
    var j := SpaceRunEnd(line, 4);
    var k := SpaceRunEnd(line, j + 3);
    SpaceRun(line, 4);
    SpaceRun(line, j + 3);
    var w1, w2, tail := line[4..j], line[j + 3..k], line[k..];
    assert line == line[..4] + w1 + line[j..j + 3] + w2 + tail;
    if tail == "-->" {
      assert line == MarkerText(w1, w2);
      assert MarkerLayout(line, w1, w2);
    } else {
      assert line == MarkerText(w1, w2) + "\n";
      assert MarkerLayout(line, w1, w2);
    }
  }

  lemma MarkerOfLayout(line: string, w1: string, w2: string)
    requires MarkerLayout(line, w1, w2)
    ensures IsTocMarker(line)
  {
    var j := 4 + |w1|;
    var k := j + 3 + |w2|;
    assert line[..4] == "<!--";
    assert line[4..j] == w1;
    assert line[j..j + 3] == "toc";
    assert line[j + 3..k] == w2;
    assert line[k..] == "-->" || line[k..] == "-->\n";
    SpaceRunEndAt(line, 4, |w1|);
    SpaceRunEndAt(line, j + 3, |w2|);
  }

  /** A line is a marker exactly when it is `<!--`, a non-empty whitespace run,
      `toc`, a non-empty whitespace run and `-->`, followed by at most one line
      feed (the pattern's `$` also matches before a final line feed). */
  lemma MarkerIff(line: string)
    ensures IsTocMarker(line) <==> exists w1, w2 :: MarkerLayout(line, w1, w2)
  {
    if IsTocMarker(line) {
      LayoutOfMarker(line);
    }
    if exists w1, w2 :: MarkerLayout(line, w1, w2) {
      var w1, w2 :| MarkerLayout(line, w1, w2);
      MarkerOfLayout(line, w1, w2);
    }
  }

  /** Marker lines: any non-empty whitespace runs, with or without the final
      line feed. */
  lemma MarkerExamples()
    ensures IsTocMarker("<!-- toc -->") && IsTocMarker("<!--\ttoc  -->\n")
  {
    MarkerOfLayout("<!-- toc -->", " ", " ");
    assert "<!--\ttoc  -->\n" == MarkerText("\t", "  ") + "\n";
    MarkerOfLayout("<!--\ttoc  -->\n", "\t", "  ");
  }

  /** Not a marker: the whitespace run before `toc` is required. */
  lemma NoSpaceBeforeKeyword()
    ensures !IsTocMarker("<!--toc -->\n")
  {
    assert SpaceRunEnd("<!--toc -->\n", 4) == 4;
  }

  /** Not a marker: the whitespace run after `toc` is required. */
  lemma NoSpaceAfterKeyword()
    ensures !IsTocMarker("<!-- toc-->\n")
  {
    assert SpaceRunEnd("<!-- toc-->\n", 4) == 5;
    assert SpaceRunEnd("<!-- toc-->\n", 8) == 8;
  }

  /** Not a marker: the keyword is lower case. */
  lemma UpperCaseKeyword()
    ensures !IsTocMarker("<!-- TOC -->\n")
  {
    assert SpaceRunEnd("<!-- TOC -->\n", 4) == 5;
    assert "<!-- TOC -->\n"[5] != 't';
  }

  /** Not a marker: nothing but one line feed may follow `-->`. */
  lemma SpaceAfterMarker()
    ensures !IsTocMarker("<!-- toc --> \n")
  {
    assert SpaceRunEnd("<!-- toc --> \n", 4) == 5;
    assert SpaceRunEnd("<!-- toc --> \n", 8) == 9;
    assert "<!-- toc --> \n"[12] == ' ';
  }

  /** The marker test comes first in the assembly, but no line is both: a
      marker starts with `<`, a heading with `#`. */
  lemma MarkerIsNotHeading(line: string)
    requires IsTocMarker(line)
    ensures FindChapterTitle(line) == None
  {
    assert line[0] == "<!--"[0];
  }
}
