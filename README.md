# MDDoc in Dafny

MDDoc merges the Markdown files listed in a YAML manifest into one document.
It does this in two passes over the files. The **scan** collects every level-1
heading line (`#`, whitespace, title) as a numbered `Chapter`. The
**assembly** reads every file again and writes each line to the output:

- a table-of-contents marker line (`<!-- toc -->`) is kept and followed by one
  link line per chapter;
- a level-1 heading is replaced by the same heading carrying an HTML anchor
  named after its chapter;
- any other line is copied;
- a `"\n"` is written after each file.

This project models those two passes and the three small functions they rely
on (`findChapterTitle`, `isTableOfContentsMarker`, `Chapter.tagName`). The
model works on the text the script reads and writes. Each file is given as
the sequence of lines that Python's file iteration yields. The output file is
the string the script writes.

Layout, module by module:

- `wrappers.dfy`: `Wrappers`, the `Option` type, which stands for Python's
  `None` or a value.
- `numerals.dfy`: `Numerals`, the decimal text of a chapter number as
  `format` writes it, with its inverse.
- `markdown.dfy`: `Markdown`, the two line patterns, written out by hand with
  Python's `re.match` semantics:
  - `\s`: the fixed set space, `\t`, `\n`, `\r`, `\f`, `\v`;
  - `.`: anything except a line feed;
  - `$`: the end of the line, or just before a final line feed.
- `chapters.dfy`: `Chapters`, the `Chapter` record and its anchor name.
- `scanner.dfy`: `Scanner`:
  - the specification function `ScanLines`, which builds the chapter list
    line by line;
  - the imperative scan loops `ScanFile` and `ScanChapters`, proved equal to
    it;
  - what the chapter list holds.
- `assembler.dfy`: `Assembler`:
  - the specification functions `RewriteLine`, `RewriteLines` and
    `Assemble`;
  - the imperative assembly loops (`AssembleDocument`, `WriteLines`,
    `WriteLine`, `WriteToc`, `FindChapter`), each proved equal to its
    function;
  - the properties of the rewriting.
- `pipeline.dfy`: `Pipeline`:
  - both passes in sequence (`Generate` and `Render`);
  - the properties that need both passes, such as every heading being
    anchored;
  - a worked two-file example.

Notes on what the script does:

- Titles keep trailing whitespace. The pattern `.*` (MDDoc.py:39) stops only
  at a line feed, so spaces and a carriage return before it stay in the title:
  `"# A \r\n"` has the title `"A \r"`.
- The search over the chapter list (MDDoc.py:106-109) does not stop at the
  first hit. With repeated titles, every heading of that title gets the
  anchor of the last chapter with it.
- The separator written after each file (MDDoc.py:116) is one `"\n"`. It is a
  blank line only when the file's last line ends in a line feed.

## Model

| member | source | states |
|---|---|---|
| Numerals.Decimal | MDDoc.py:31 | the text `format` gives a chapter number is a non-empty run of decimal digits without a leading zero |
| Numerals.DecimalRoundTrip | MDDoc.py:31 | reading the digits back gives the number |
| Numerals.DecimalInjective | MDDoc.py:31 | two numbers have the same decimal text exactly when they are equal |
| Chapters.TagNameDigits | MDDoc.py:29-31 | the anchor name is `chapter-` followed by digits that read back as the chapter id |
| Chapters.TagNameInjective | MDDoc.py:29-31 | two chapters have the same anchor name exactly when they have the same id |
| Markdown.SpaceRunEnd | MDDoc.py:39 | the position where `[\s]+` stops is at or after its start and holds a non-whitespace character, or is the end of the line (that everything before it is whitespace is `SpaceRun`) |
| Markdown.SpaceRun | MDDoc.py:39 | every character `[\s]+` consumes is whitespace |
| Markdown.SpaceRunEndAt | MDDoc.py:51 | a whitespace run of n characters followed by a non-whitespace character (or the end) is exactly what `[\s]+` consumes |
| Markdown.LineEnd | MDDoc.py:39 | the position where `.*` stops is at or after its start and holds a line feed, or is the end of the line (that nothing before it is a line feed is `NoNewlineBeforeLineEnd`) |
| Markdown.NoNewlineBeforeLineEnd | MDDoc.py:39 | what `.*` consumes holds no line feed |
| Markdown.LineEndAt | MDDoc.py:39 | n characters without a line feed, followed by a line feed or the end, are exactly what `.*` consumes |
| Markdown.FindChapterTitle | MDDoc.py:36-42 | a line has a title exactly when its first character is `#` and its second is whitespace |
| Markdown.TitleIsOneLine | MDDoc.py:39-42 | a title never contains a line feed |
| Markdown.LayoutOfTitle | MDDoc.py:39-42 | a title comes from a line laid out as `#`, a maximal non-empty whitespace run, the title, then nothing or a line feed and the rest |
| Markdown.TitleOfLayout | MDDoc.py:39-42 | every line with that layout has exactly that title |
| Markdown.HeadingLayoutIff | MDDoc.py:39-42 | the title of a line is t exactly when the line has a heading layout around t |
| Markdown.HeadingRoundTrip | MDDoc.py:39-42 | `#`, any whitespace run and a title t, with or without the final line feed, gives back t |
| Markdown.HeadingExamples | MDDoc.py:39-42 | `#\n` and `# \n` have the empty title; `# A \r\n` keeps the carriage return in its title; `## A` and `#A` are not headings |
| Markdown.LayoutOfMarker | MDDoc.py:51-54 | a marker line is `<!--`, whitespace, `toc`, whitespace, `-->`, and at most one line feed |
| Markdown.MarkerOfLayout | MDDoc.py:51-54 | every line of that form is a marker |
| Markdown.MarkerIff | MDDoc.py:48-54 | a line is a marker exactly when it has that form |
| Markdown.MarkerExamples | MDDoc.py:51-54 | `<!-- toc -->` and a tab-and-spaces variant ending in a line feed are markers |
| Markdown.NoSpaceBeforeKeyword | MDDoc.py:51-54 | `<!--toc -->` is not a marker: whitespace before `toc` is required |
| Markdown.NoSpaceAfterKeyword | MDDoc.py:51-54 | `<!-- toc-->` is not a marker: whitespace after `toc` is required |
| Markdown.UpperCaseKeyword | MDDoc.py:51-54 | `<!-- TOC -->` is not a marker: the keyword is lower case |
| Markdown.SpaceAfterMarker | MDDoc.py:51-54 | `<!-- toc --> ` with a trailing space is not a marker: only one line feed may follow `-->` |
| Markdown.MarkerIsNotHeading | MDDoc.py:94-100 | a marker line has no title, so testing the marker first never hides a heading |
| Scanner.ScanLines | MDDoc.py:78-86 | the chapter list holds at most one chapter per line, and chapter k (from 0) has id k + 1 |
| Scanner.ScanFile | MDDoc.py:82-86 | the loop over one file's lines extends the chapter list exactly as the scan of those lines does |
| Scanner.ScanChapters | MDDoc.py:78-86 | the nested scan loops produce the scan of all files' lines in manifest order |
| Scanner.ScanPrefix | MDDoc.py:85-86 | the chapter list only grows at the end: the list after some lines is a prefix of the final list |
| Scanner.ScanPosition | MDDoc.py:83-86 | the heading on a line becomes chapter k + 1, named by its title, where k is the number of headings before it |
| Scanner.ScanOrigin | MDDoc.py:83-86 | every chapter comes from a heading line with its title, preceded by exactly as many headings as the chapter's index |
| Assembler.FindChapter | MDDoc.py:106-109 | the search loop ends with the chapter `Lookup` describes |
| Assembler.LookupNone | MDDoc.py:106-110 | the search finds nothing exactly when no chapter has the title |
| Assembler.LookupLast | MDDoc.py:106-109 | when the search finds a chapter, it is the last chapter with the title |
| Assembler.WriteToc | MDDoc.py:97-98 | the table-of-contents loop appends one entry per chapter, in list order |
| Assembler.WriteLine | MDDoc.py:94-115 | one line is written as `RewriteLine` says: marker, then heading, then copy |
| Assembler.WriteLines | MDDoc.py:93-115 | the loop over one file's lines appends the rewriting of each line, in order |
| Assembler.AssembleDocument | MDDoc.py:89-116 | the output buffer ends with every file's rewritten lines, each file followed by `"\n"` |
| Assembler.StitchAppend | MDDoc.py:90-116 | the output for two runs of file texts is the first's output followed by the second's |
| Assembler.AssembleAppend | MDDoc.py:90-116 | assembling two manifests back to back gives the concatenation of their outputs: files are written independently |
| Assembler.HeadingRewritten | MDDoc.py:99-115 | a heading is replaced by the anchored heading of the chapter the search finds, and copied when it finds none |
| Assembler.PlainLinesUnchanged | MDDoc.py:99-103 | a file without markers and level-1 headings is written unchanged |
| Assembler.TocEntryIsOneLine | MDDoc.py:98 | a table-of-contents entry is exactly one line, ending in a line feed, when the chapter name has no line feed |
| Assembler.AnchoredHeadingIsOneLine | MDDoc.py:112 | a rewritten heading is exactly one line, ending in a line feed, when the chapter name has no line feed |
| Assembler.TocTextAppend | MDDoc.py:97-98 | the table of contents of two chapter lists back to back is the first's entries followed by the second's, so entries come in list order |
| Assembler.TocLineCount | MDDoc.py:97-98 | the table of contents has exactly one line per chapter |
| Pipeline.Generate | MDDoc.py:78-116 | the two passes in sequence produce `Render` of the manifest's files |
| Pipeline.FlattenMember | MDDoc.py:79-82 | every line of every file is a line the scan sees |
| Pipeline.ScanNamesOneLine | MDDoc.py:83-86 | no chapter name contains a line feed |
| Pipeline.ScannedTocLineCount | MDDoc.py:97-98 | with the chapters scanned from the same files, the table of contents has one line per heading |
| Pipeline.ScannedHeadingAnchored | MDDoc.py:99-115 | with the chapters scanned from the same files, every heading gets the anchor of the last chapter with its title, so the not-found branch never runs |
| Pipeline.FourLineScan | MDDoc.py:78-86 | a heading, a plain line, a heading and a marker scan to chapters 1 and 2 |
| Pipeline.TwoFileShape | MDDoc.py:78-116 | two files, each a heading then a plain line or a marker, render as two anchored headings, the lines, the marker and two entries, each file followed by `"\n"` |
| Pipeline.TwoFileExample | MDDoc.py:78-116 | the files `# One`/`body` and `# Two`/`<!-- toc -->` render to the exact expected document |

## Left out

- Command-line parsing with `argparse` (MDDoc.py:11-22, 58) is library plumbing. The output directory is not modelled.
- YAML loading (MDDoc.py:60) is a foreign library call. The manifest's content list is an input: the files, in manifest order, as sequences of lines.
- The existence and regular-file checks, the progress messages and `sys.exit` (MDDoc.py:61-72) are file-system I/O and process exit. The model assumes every listed file exists.
- Output directory creation and path joining (MDDoc.py:74-76, 80, 91) are operating-system calls.
- Opening, reading and writing files (MDDoc.py:81-82, 89-93, 96, 98, 103, 112, 115-116) are file I/O. The model covers:
  - each file as the lines Python's iteration yields;
  - the output file as a string that the assembly methods append to.

  Splitting a file's text into lines, and text-mode newline translation, are not modelled.
- Both passes are given the same files. The script reads every content file twice (MDDoc.py:81 and 92), and opens the output file for writing between the two reads (MDDoc.py:89). The model does not capture a file that changes between the passes. That includes an output file that is also one of the content files, which the script truncates before reading it again. `Pipeline.ScannedHeadingAnchored` relies on both passes seeing identical lines.
- The image directory copy (MDDoc.py:117-125) is a file-system side effect.
- `type(text) is not str` guards (MDDoc.py:37-38, 49-50) cannot fail in a typed model.
- Markdown.IsSpace: it models `\s` as the six ASCII whitespace characters. Python's `\s` on `str` also matches other Unicode whitespace (for example U+00A0 and U+2028).
- Markdown.IsTocMarker: it is a `bool`. The script returns `None` instead of `False` on a non-matching line, and callers only test truthiness.
- The search for a chapter (MDDoc.py:106-109) is a separate method, `FindChapter`, rather than a loop inlined in `WriteLine`. Its result is the same.
