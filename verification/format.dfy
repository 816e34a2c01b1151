/**
  `format_docstring`: the canonical text of one docstring literal. The body
  is stripped of its delimiters and split into a summary and a
  description; the summary is normalised into one sentence and wrapped,
  the description lines are re-indented and right-stripped, and the whole
  is put between triple double quotes.
 */
module Format {
  import opened Wrappers
  import opened Text
  import opened Docstring
  import opened Wrap

  /** The formatter's options. A wrap length of zero or less disables
      summary wrapping. */
  datatype Config = Config(summaryWrapLength: int, preSummaryNewline: bool, postDescriptionBlank: bool)

  /** The options of the unit tests that pass none: summary wrapping off,
      no newline before the summary, a blank line before the closing
      quotes. */
  const Defaults: Config := Config(0, false, true)

  /** The words of `text` wrapped at `width`, every line counted together
      with `indent` and every continuation line printed after it. */
  function WrapText(text: string, width: int, indent: string): string {
    Render(WrapWords(Words(text), width, indent), indent)
  }

  /** A description line that does not start with whitespace is given the
      indentation; one that does is left as it is. */
  function IndentLine(line: string, indent: string): string {
    if |line| > 0 && IsSpace(line[0]) then line else indent + line
  }

  /** The description lines, indented where they were not and stripped of
      trailing whitespace. */
  function Reindent(lines: seq<string>, indent: string): (r: seq<string>)
    ensures |r| == |lines|
    ensures forall k :: 0 <= k < |lines| ==> r[k] == TrimRight(IndentLine(lines[k], indent))
  {
    if |lines| == 0 then [] else [TrimRight(IndentLine(lines[0], indent))] + Reindent(lines[1..], indent)
  }

  /** The opening quotes and the normalised summary, wrapped. Without a
      newline before the summary the quotes are glued to the first word,
      so they count toward the width of the first line. */
  function SummaryBlock(summary: string, indent: string, config: Config): string {
    var n := NormalizeSummary(summary);
    if config.preSummaryNewline then
      TripleDouble + "\n" + indent + WrapText(n, config.summaryWrapLength, indent)
    else
      WrapText(TripleDouble + n, config.summaryWrapLength, indent)
  }

  /** The text that closes a docstring with a description: an optional
      blank line, then the closing quotes at the indentation. */
  function Closing(indent: string, config: Config): string {
    (if config.postDescriptionBlank then "\n" else "") + indent + TripleDouble
  }

  /** `Closing` as lines. */
  function ClosingLines(indent: string, config: Config): seq<string> {
    (if config.postDescriptionBlank then [""] else []) + [indent + TripleDouble]
  }

  /** What follows the summary block when there is a description: a
      blank line, the re-indented description, an optional blank line and
      the closing quotes at the indentation. */
  function DescriptionTail(description: string, indent: string, config: Config): string {
    "\n" + Join(Reindent(Split(description, '\n'), indent), "\n") + "\n" + Closing(indent, config)
  }

  /** The reformatted literal for a split body. A lone summary is wrapped
      between the quotes; a description follows the summary after a blank
      line. */
  function Layout(parts: Parts, indent: string, config: Config): (r: string)
    ensures parts.description != "" ==>
      StartsWith(r, SummaryBlock(parts.summary, indent, config) + "\n\n")
      && EndsWith(r, "\n" + indent + TripleDouble)
  {
    if parts.description == "" then
      WrapText(TripleDouble + NormalizeSummary(parts.summary) + TripleDouble, config.summaryWrapLength, indent)
    else
      var block := SummaryBlock(parts.summary, indent, config);
      var tail := DescriptionTail(parts.description, indent, config);
      TailOpensBlank(parts.description, indent, config);
      BlankLineAfter(block, tail);
      TailCloses(parts.description, indent, config);
      EndsWithAppend(block + "\n", tail, "\n" + indent + TripleDouble);
      block + "\n" + tail
  }

  /** `format_docstring`: `None` where stripping the delimiters fails; a
      body holding triple double quotes cannot be re-quoted and the literal
      comes back unchanged. */
  function FormatDocstring(indentation: string, docstring: string, config: Config): (r: Option<string>)
    ensures r.Some? <==> StripDocstring(docstring).Some?
    ensures r.Some? && Contains(StripDocstring(docstring).value, TripleDouble) ==> r.value == docstring
  {
    match StripDocstring(docstring)
    case None => None
    case Some(contents) =>
      if Contains(contents, TripleDouble) then Some(docstring)
      else Some(Layout(SplitSummary(contents), indentation, config))
  }

  // ---------------------------------------------------------------------
  // Quotes glued to words

  /** The words of `ws` once `p` is glued before the first and `q` after
      the last; with no words, the single word `p + q`. */
  function Attach(ws: seq<string>, p: string, q: string): (r: seq<string>)
    ensures |r| > 0
  {
    if |ws| == 0 then [p + q]
    else
      var f := [p + ws[0]] + ws[1..];
      f[..|f| - 1] + [f[|f| - 1] + q]
  }

  /** Gluing blank-free text to both ends of single-spaced words glues it
      to the first and last word. */
  lemma QuotedWords(p: string, ws: seq<string>, q: string)
    requires |p| > 0 && NoSpace(p) && NoSpace(q) && ValidWords(ws)
    ensures ValidWords(Attach(ws, p, q))
    ensures Join(Attach(ws, p, q), " ") == p + Join(ws, " ") + q
    ensures Words(p + Join(ws, " ") + q) == Attach(ws, p, q)
    ensures StartsWith(Attach(ws, p, q)[0], p)
    ensures EndsWith(Attach(ws, p, q)[|Attach(ws, p, q)| - 1], q)
  {
    var r := Attach(ws, p, q);
    if |ws| == 0 {
      NoSpaceConcat(p, q);
      assert p + Join(ws, " ") + q == p + q;
    } else {
      var f := [p + ws[0]] + ws[1..];
      JoinPrefixFirst(ws, " ", p);
      NoSpaceConcat(p, ws[0]);
      assert ValidWords(f) by {
        forall k | 0 <= k < |f| ensures |f[k]| > 0 && NoSpace(f[k]) {
          if k > 0 { assert f[k] == ws[k]; }
        }
      }
      JoinExtendLast(f, " ", q);
      NoSpaceConcat(f[|f| - 1], q);
      assert ValidWords(r) by {
        forall k | 0 <= k < |r| ensures |r[k]| > 0 && NoSpace(r[k]) {
          if k < |r| - 1 { assert r[k] == f[k]; }
        }
      }
      assert StartsWith(r[0], p) by {
        if |f| > 1 {
          assert r[0] == f[0];
        } else {
          assert r[0] == p + ws[0] + q;
        }
        assert r[0][..|p|] == p;
      }
      assert EndsWith(r[|r| - 1], q) by {
        assert r[|r| - 1] == f[|f| - 1] + q;
      }
    }
    WordsJoin(r);
  }

  /** Text that is already single-spaced words is left alone when
      wrapping is off. */
  lemma SingleSpacedUnwrapped(t: string, width: int, indent: string)
    requires width <= 0 && Join(Words(t), " ") == t
    ensures WrapText(t, width, indent) == t
  {
    if |Words(t)| > 0 {
      RenderUnwrapped(Words(t), width, indent);
    }
  }

  /** The words of a normalised summary between two blank-free texts. */
  lemma QuotedSummary(p: string, s: string, q: string)
    requires |p| > 0 && NoSpace(p) && NoSpace(q)
    ensures var n := NormalizeSummary(s);
      Words(p + n + q) == Attach(Words(n), p, q) &&
      Join(Words(p + n + q), " ") == p + n + q
  {
    NormalizeSingleSpaced(s);
    QuotedWords(p, Words(NormalizeSummary(s)), q);
  }

  lemma TripleDoubleNoSpace()
    ensures NoSpace(TripleDouble) && NoSpace("")
  {
  }

  // ---------------------------------------------------------------------
  // The empty docstring

  /** A docstring with an empty body formats to the empty literal
      `""""""`, whatever the options. */
  lemma EmptyBody(indentation: string, docstring: string, config: Config)
    requires StripDocstring(docstring) == Some("")
    ensures FormatDocstring(indentation, docstring, config) == Some(TripleDouble + TripleDouble)
  {
    assert !StartsWith("", TripleDouble);
    assert SplitSummary("") == Parts("", "");
    assert NormalizeSummary("") == "";
    var x := TripleDouble + TripleDouble;
    TripleDoubleNoSpace();
    QuotedWords(TripleDouble, [], TripleDouble);
    assert TripleDouble + "" + TripleDouble == x;
    var w := config.summaryWrapLength;
    if w > 0 {
      assert Fill([x], [], w, indentation) == [[x]];
      assert [] + [x] == [x] && [x][1..] == [];
      assert Fill([], [x], w, indentation) == Fill([x], [], w, indentation);
    }
    assert WrapWords([x], w, indentation) == [[x]];
    assert LineTexts([[x]]) == [x];
  }

  /** Fixed point: the empty literal `""""""` formats to itself. */
  lemma EmptyFixedPoint(indentation: string, config: Config)
    ensures FormatDocstring(indentation, TripleDouble + TripleDouble, config) == Some(TripleDouble + TripleDouble)
  {
    EmptyStrips();
    EmptyBody(indentation, TripleDouble + TripleDouble, config);
  }

  lemma EmptyStrips()
    ensures StripDocstring(TripleDouble + TripleDouble) == Some("")
  {
    StripQuoted("", TripleDouble, "", "", "", "");
    assert "" + TripleDouble + "" + "" + "" + TripleDouble + "" == TripleDouble + TripleDouble;
  }

  // ---------------------------------------------------------------------
  // A lone summary

  /** Without wrapping, a body with no boundary renders on one line as the
      normalised summary between triple double quotes, whichever quotes
      the input used. */
  lemma SummaryOnly(indentation: string, docstring: string, config: Config)
    requires StripDocstring(docstring).Some?
    requires !Contains(StripDocstring(docstring).value, TripleDouble)
    requires NoCut(StripDocstring(docstring).value)
    requires config.summaryWrapLength <= 0
    ensures FormatDocstring(indentation, docstring, config)
      == Some(TripleDouble + NormalizeSummary(StripDocstring(docstring).value) + TripleDouble)
  {
    var contents := StripDocstring(docstring).value;
    TripleDoubleNoSpace();
    QuotedSummary(TripleDouble, contents, TripleDouble);
    SingleSpacedUnwrapped(TripleDouble + NormalizeSummary(contents) + TripleDouble, config.summaryWrapLength, indentation);
  }

  /** With or without wrapping, a lone summary keeps exactly the words of
      the body, the last one terminated, with the quotes glued to the
      first and the last word. */
  lemma SummaryOnlyWords(indentation: string, docstring: string, config: Config)
    requires StripDocstring(docstring).Some?
    requires !Contains(StripDocstring(docstring).value, TripleDouble)
    requires NoCut(StripDocstring(docstring).value)
    requires AllSpace(indentation)
    ensures FormatDocstring(indentation, docstring, config).Some?
    ensures Words(FormatDocstring(indentation, docstring, config).value)
      == Attach(TerminateLast(Words(StripDocstring(docstring).value)), TripleDouble, TripleDouble)
  {
    var contents := StripDocstring(docstring).value;
    var x := TripleDouble + NormalizeSummary(contents) + TripleDouble;
    TripleDoubleNoSpace();
    QuotedSummary(TripleDouble, contents, TripleDouble);
    NormalizeWords(contents);
    WrapKeepsWords(Words(x), config.summaryWrapLength, indentation);
  }

  /** Wrap bound for a lone summary: with the indentation printed in front,
      every output line holding more than one word is at most the wrap
      length long. */
  lemma SummaryOnlyWrapBound(indentation: string, docstring: string, config: Config)
    requires StripDocstring(docstring).Some?
    requires !Contains(StripDocstring(docstring).value, TripleDouble)
    requires NoCut(StripDocstring(docstring).value)
    requires config.summaryWrapLength > 0
    requires AllSpace(indentation) && '\n' !in indentation
    ensures FormatDocstring(indentation, docstring, config).Some?
    ensures MultiWordLinesFit(Split(indentation + FormatDocstring(indentation, docstring, config).value, '\n'),
                              config.summaryWrapLength)
  {
    var contents := StripDocstring(docstring).value;
    var x := TripleDouble + NormalizeSummary(contents) + TripleDouble;
    WrapBound(Words(x), config.summaryWrapLength, indentation);
  }

  /** Summary termination for a lone summary: at any wrap length the
      character right before the closing quotes is `.`, `?` or `!`. */
  lemma SummaryOnlyTerminated(indentation: string, docstring: string, config: Config)
    requires StripDocstring(docstring).Some?
    requires !Contains(StripDocstring(docstring).value, TripleDouble)
    requires NoCut(StripDocstring(docstring).value)
    requires Words(StripDocstring(docstring).value) != []
    ensures FormatDocstring(indentation, docstring, config).Some?
    ensures var r := FormatDocstring(indentation, docstring, config).value;
      |r| >= 4 && IsTerminator(r[|r| - 4]) && EndsWith(r, TripleDouble)
  {
    var contents := StripDocstring(docstring).value;
    var n := NormalizeSummary(contents);
    assert FormatDocstring(indentation, docstring, config)
      == Some(WrapText(TripleDouble + n + TripleDouble, config.summaryWrapLength, indentation));
    NormalizeSingleSpaced(contents);
    QuotedEndTerminated(n, config.summaryWrapLength, indentation);
  }

  /** Wrapping a terminated sentence between triple double quotes keeps
      the terminator right before the closing quotes. */
  lemma QuotedEndTerminated(n: string, w: int, indent: string)
    requires n != "" && IsTerminator(n[|n| - 1])
    requires Join(Words(n), " ") == n && ValidWords(Words(n))
    ensures var r := WrapText(TripleDouble + n + TripleDouble, w, indent);
      |r| >= 4 && IsTerminator(r[|r| - 4]) && EndsWith(r, TripleDouble)
  {
    var x := TripleDouble + n + TripleDouble;
    var r := WrapText(x, w, indent);
    TripleDoubleNoSpace();
    QuotedWords(TripleDouble, Words(n), TripleDouble);
    var ws := Words(x);
    AttachLastLong(Words(n), TripleDouble, TripleDouble);
    WrapEnds(ws, w, indent);
    JoinEndsWithLast(ws, " ");
    SameEnd(r, ws[|ws| - 1], x, 4);
    EndsWithTrans(r, ws[|ws| - 1], TripleDouble);
  }

  /** Summary termination before a description: the summary block, at
      any wrap length and with or without the newline after the opening
      quotes, ends in `.`, `?` or `!`, and a blank line follows it. */
  lemma DescribedSummaryTerminated(indentation: string, docstring: string, config: Config)
    requires StripDocstring(docstring).Some?
    requires !Contains(StripDocstring(docstring).value, TripleDouble)
    requires !NoCut(StripDocstring(docstring).value)
    ensures FormatDocstring(indentation, docstring, config).Some?
    ensures var b := SummaryBlock(SplitSummary(StripDocstring(docstring).value).summary, indentation, config);
      |b| > 0 && IsTerminator(b[|b| - 1]) && StartsWith(FormatDocstring(indentation, docstring, config).value, b + "\n\n")
  {
    var contents := StripDocstring(docstring).value;
    var parts := SplitSummary(contents);
    SplitTrimmed(contents);
    TrimmedWords(parts.summary);
    SummaryBlockTerminated(parts.summary, indentation, config);
    assert FormatDocstring(indentation, docstring, config) == Some(Layout(parts, indentation, config));
  }

  /** Regrouping of an indented two-line block; a lemma of its own keeps
      the wrap-bound proof small. */
  lemma LineAssoc(i: string, t: string, nl: string, x: string)
    ensures i + (t + nl + i + x) == (i + t) + nl + (i + x)
  {
  }

  /** The description part opens with a line break. */
  lemma TailOpensBlank(description: string, indent: string, config: Config)
    ensures var t := DescriptionTail(description, indent, config); |t| > 0 && t[0] == '\n'
  {
  }

  /** The last glued word is longer than what was glued to it. */
  lemma AttachLastLong(ws: seq<string>, p: string, q: string)
    requires |ws| > 0 && |ws[|ws| - 1]| > 0
    ensures |Attach(ws, p, q)[|Attach(ws, p, q)| - 1]| > |q|
  {
  }

  /** Regrouping of the two line breaks between the opening and the
      description; a lemma of its own keeps the layout proofs small. */
  lemma NewlinePair(o: string, j: string, c: string)
    ensures o + "\n" + ("\n" + j + "\n" + c) == o + "\n\n" + j + "\n" + c
  {
  }

  /** The closing quotes of a described docstring sit on a line of their
      own, after the indentation. */
  lemma TailCloses(description: string, indent: string, config: Config)
    ensures EndsWith(DescriptionTail(description, indent, config), "\n" + indent + TripleDouble)
  {
    var front := "\n" + Join(Reindent(Split(description, '\n'), indent), "\n");
    var close := "\n" + indent + TripleDouble;
    assert close[|close| - |close|..] == close;
    if config.postDescriptionBlank {
      assert DescriptionTail(description, indent, config) == (front + "\n") + close;
    } else {
      assert DescriptionTail(description, indent, config) == front + close;
    }
    EndsWithAppend(front + "\n", close, close);
    EndsWithAppend(front, close, close);
  }

  lemma BlankLineAfter(b: string, tail: string)
    requires |tail| > 0 && tail[0] == '\n'
    ensures StartsWith(b + "\n" + tail, b + "\n\n")
  {
    var r := b + "\n" + tail;
    assert r[..|b| + 2] == b + "\n\n";
  }

  /** A non-empty trimmed text has a word. */
  lemma TrimmedWords(s: string)
    requires Trimmed(s) && s != ""
    ensures Words(s) != []
  {
  }

  /** The summary block ends with the terminator of the normalised
      summary. */
  lemma SummaryBlockTerminated(summary: string, indent: string, config: Config)
    requires Words(summary) != []
    ensures var b := SummaryBlock(summary, indent, config); |b| > 0 && IsTerminator(b[|b| - 1])
  {
    var n := NormalizeSummary(summary);
    var w := config.summaryWrapLength;
    NormalizeSingleSpaced(summary);
    assert Words(n) != [];
    var b := SummaryBlock(summary, indent, config);
    if config.preSummaryNewline {
      var ws := Words(n);
      var t := WrapText(n, w, indent);
      WrapEnds(ws, w, indent);
      JoinEndsWithLast(ws, " ");
      SameEnd(t, ws[|ws| - 1], n, 1);
      assert b == (TripleDouble + "\n" + indent) + t;
      assert b[|b| - 1] == t[|t| - 1];
    } else {
      TripleDoubleNoSpace();
      QuotedWords(TripleDouble, Words(n), "");
      assert TripleDouble + n + "" == TripleDouble + n;
      var x := TripleDouble + n;
      var ws := Words(x);
      WrapEnds(ws, w, indent);
      JoinEndsWithLast(ws, " ");
      SameEnd(b, ws[|ws| - 1], x, 1);
      assert x[|x| - 1] == n[|n| - 1];
    }
  }

  /** Two texts ending with the same word agree on their last `k`
      characters of it. */
  lemma SameEnd(r: string, l: string, x: string, k: int)
    requires EndsWith(r, l) && EndsWith(x, l) && 1 <= k <= |l|
    ensures |r| >= k && |x| >= k && r[|r| - k] == x[|x| - k]
  {
    assert r[|r| - k] == r[|r| - |l|..][|l| - k];
    assert x[|x| - k] == x[|x| - |l|..][|l| - k];
  }

  // ---------------------------------------------------------------------
  // Quotes

  /** A reformatted docstring opens and closes with triple double quotes,
      whatever the input used. */
  lemma DoubleQuotes(indentation: string, docstring: string, config: Config)
    requires StripDocstring(docstring).Some?
    requires !Contains(StripDocstring(docstring).value, TripleDouble)
    ensures FormatDocstring(indentation, docstring, config).Some?
    ensures StartsWith(FormatDocstring(indentation, docstring, config).value, TripleDouble)
    ensures EndsWith(FormatDocstring(indentation, docstring, config).value, TripleDouble)
  {
    var parts := SplitSummary(StripDocstring(docstring).value);
    assert FormatDocstring(indentation, docstring, config) == Some(Layout(parts, indentation, config));
    LayoutQuotes(parts, indentation, config);
  }

  lemma LayoutQuotes(parts: Parts, indent: string, config: Config)
    ensures StartsWith(Layout(parts, indent, config), TripleDouble)
    ensures EndsWith(Layout(parts, indent, config), TripleDouble)
  {
    var r := Layout(parts, indent, config);
    var w := config.summaryWrapLength;
    TripleDoubleNoSpace();
    if parts.description == "" {
      var ws := Words(TripleDouble + NormalizeSummary(parts.summary) + TripleDouble);
      ClosedWords(parts.summary);
      WrapEnds(ws, w, indent);
      StartsWithTrans(r, ws[0], TripleDouble);
      EndsWithTrans(r, ws[|ws| - 1], TripleDouble);
    } else {
      var block := SummaryBlock(parts.summary, indent, config);
      var tail := DescriptionTail(parts.description, indent, config);
      SummaryBlockQuotes(parts.summary, indent, config);
      StartsWithAppend(block, "\n", TripleDouble);
      StartsWithAppend(block + "\n", tail, TripleDouble);
      var front := "\n" + Join(Reindent(Split(parts.description, '\n'), indent), "\n") + "\n";
      var close := Closing(indent, config);
      var blank := if config.postDescriptionBlank then "\n" else "";
      EndsWithAppend(blank + indent, TripleDouble, TripleDouble);
      EndsWithAppend(front, close, TripleDouble);
      EndsWithAppend(block + "\n", tail, TripleDouble);
    }
  }

  lemma SummaryBlockQuotes(summary: string, indent: string, config: Config)
    ensures StartsWith(SummaryBlock(summary, indent, config), TripleDouble)
  {
    if !config.preSummaryNewline {
      var block := SummaryBlock(summary, indent, config);
      var ws := Words(TripleDouble + NormalizeSummary(summary));
      OpeningWords(summary);
      WrapEnds(ws, config.summaryWrapLength, indent);
      StartsWithTrans(block, ws[0], TripleDouble);
    }
  }

  /** Quotes around a lone summary are glued to its first and last word. */
  lemma ClosedWords(summary: string)
    ensures var ws := Words(TripleDouble + NormalizeSummary(summary) + TripleDouble);
      |ws| > 0 && StartsWith(ws[0], TripleDouble) && EndsWith(ws[|ws| - 1], TripleDouble)
  {
    TripleDoubleNoSpace();
    QuotedSummary(TripleDouble, summary, TripleDouble);
    QuotedWords(TripleDouble, Words(NormalizeSummary(summary)), TripleDouble);
  }

  /** The opening quotes are glued to the first word of the summary. */
  lemma OpeningWords(summary: string)
    ensures var ws := Words(TripleDouble + NormalizeSummary(summary));
      |ws| > 0 && StartsWith(ws[0], TripleDouble)
  {
    var x := TripleDouble + NormalizeSummary(summary);
    TripleDoubleNoSpace();
    QuotedSummary(TripleDouble, summary, "");
    QuotedWords(TripleDouble, Words(NormalizeSummary(summary)), "");
    assert x + "" == x;
  }

  // ---------------------------------------------------------------------
  // A summary with a description

  lemma ReindentNoNewline(lines: seq<string>, indent: string)
    requires forall k :: 0 <= k < |lines| ==> '\n' !in lines[k]
    requires '\n' !in indent
    ensures forall k :: 0 <= k < |lines| ==> '\n' !in Reindent(lines, indent)[k]
  {
    forall k | 0 <= k < |lines| ensures '\n' !in Reindent(lines, indent)[k] {
      TrimRightSlice(IndentLine(lines[k], indent));
    }
  }

  /** Re-indenting a description line changes only whitespace: it keeps
      the line's words, leaves no trailing whitespace, and puts the
      indentation before a line that started with text. */
  lemma ReindentLine(line: string, indent: string)
    requires AllSpace(indent)
    ensures var r := TrimRight(IndentLine(line, indent));
      Words(r) == Words(line) &&
      (|r| == 0 || !IsSpace(r[|r| - 1])) &&
      (|line| > 0 && !IsSpace(line[0]) ==> StartsWith(r, indent + [line[0]]))
  {
    var x := IndentLine(line, indent);
    var r := TrimRight(x);
    TrimRightSlice(x);
    assert x == r + x[|r|..];
    assert Words(r) == Words(line) by {
      WordsTrailingSpace(r, x[|r|..]);
      if |line| == 0 || !IsSpace(line[0]) {
        WordsSkipSpace(indent, line);
      }
    }
    if |line| > 0 && !IsSpace(line[0]) {
      ReindentStart(line, indent);
    }
  }

  /** A line that starts with text keeps that text right after the new
      indentation. */
  lemma ReindentStart(line: string, indent: string)
    requires |line| > 0 && !IsSpace(line[0])
    ensures StartsWith(TrimRight(IndentLine(line, indent)), indent + [line[0]])
  {
    var x := IndentLine(line, indent);
    var r := TrimRight(x);
    TrimRightSlice(x);
    assert x == indent + line;
    assert x[|indent|] == line[0];
    assert |r| > |indent|;
    assert r[..|indent| + 1] == x[..|indent| + 1];
  }

  /** `ReindentLine` for every line of a description. */
  lemma ReindentKeepsText(lines: seq<string>, indent: string)
    requires AllSpace(indent)
    ensures forall k :: 0 <= k < |lines| ==>
      var r := Reindent(lines, indent)[k];
      Words(r) == Words(lines[k]) &&
      (|r| == 0 || !IsSpace(r[|r| - 1])) &&
      (|lines[k]| > 0 && !IsSpace(lines[k][0]) ==> StartsWith(r, indent + [lines[k][0]]))
  {
    forall k | 0 <= k < |lines|
      ensures var r := Reindent(lines, indent)[k];
        Words(r) == Words(lines[k]) &&
        (|r| == 0 || !IsSpace(r[|r| - 1])) &&
        (|lines[k]| > 0 && !IsSpace(lines[k][0]) ==> StartsWith(r, indent + [lines[k][0]]))
    {
      ReindentLine(lines[k], indent);
    }
  }

  /** The line structure of a docstring with a description, at any wrap
      length: the summary block, one blank line, the re-indented
      description lines, an optional blank line, and the closing quotes
      on a line of their own at the indentation. */
  lemma DescriptionLines(parts: Parts, indent: string, config: Config)
    requires parts.description != ""
    requires '\n' !in indent
    ensures Split(indent + Layout(parts, indent, config), '\n')
      == Split(indent + SummaryBlock(parts.summary, indent, config), '\n') + [""]
         + Reindent(Split(parts.description, '\n'), indent) + ClosingLines(indent, config)
  {
    var sb := SummaryBlock(parts.summary, indent, config);
    var o := indent + sb;
    var t := DescriptionTail(parts.description, indent, config);
    assert indent + Layout(parts, indent, config) == o + "\n" + t by {
      AppendAssoc(indent, sb + "\n", t);
      AppendAssoc(indent, sb, "\n");
    }
    SplitConcat(o, t, '\n');
    ReindentNoNewline(Split(parts.description, '\n'), indent);
    var d := Reindent(Split(parts.description, '\n'), indent);
    TailLines(d, Closing(indent, config));
    ClosingSplit(indent, config);
    var so := Split(o, '\n');
    AppendAssoc(so, [""] + d, ClosingLines(indent, config));
    AppendAssoc(so, [""], d);
  }

  /** A blank line, newline-free lines, and a closing text, as lines. */
  lemma TailLines(d: seq<string>, c: string)
    requires |d| > 0 && forall k :: 0 <= k < |d| ==> '\n' !in d[k]
    ensures Split("\n" + Join(d, "\n") + "\n" + c, '\n') == [""] + d + Split(c, '\n')
  {
    var j := Join(d, "\n");
    assert Split("\n" + j, '\n') == [""] + d by {
      assert "\n" + j == "" + "\n" + j;
      SplitConcat("", j, '\n');
      SplitJoin(d, '\n');
    }
    SplitConcat("\n" + j, c, '\n');
  }

  lemma ClosingSplit(indent: string, config: Config)
    requires '\n' !in indent
    ensures Split(Closing(indent, config), '\n') == ClosingLines(indent, config)
  {
    var close := indent + TripleDouble;
    assert '\n' !in close;
    SplitNoSeparator(close, '\n');
    if config.postDescriptionBlank {
      assert Closing(indent, config) == "" + "\n" + close;
      SplitConcat("", close, '\n');
    } else {
      assert Closing(indent, config) == close;
    }
  }

  /** Without wrapping, the summary block is the quotes and the
      normalised summary on one line, or the quotes alone followed by the
      indented summary when a newline before the summary is asked for. */
  lemma SummaryBlockLines(summary: string, indent: string, config: Config)
    requires config.summaryWrapLength <= 0
    requires '\n' !in indent
    ensures var n := NormalizeSummary(summary);
      Split(indent + SummaryBlock(summary, indent, config), '\n')
        == if config.preSummaryNewline then [indent + TripleDouble, indent + n]
           else [indent + TripleDouble + n]
  {
    var n := NormalizeSummary(summary);
    NormalizeSingleSpaced(summary);
    JoinNoNewline(Words(n));
    if config.preSummaryNewline {
      SummaryBlockNewline(summary, n, indent, config);
    } else {
      SummaryBlockInline(summary, n, indent, config);
    }
  }

  lemma SummaryBlockNewline(summary: string, n: string, indent: string, config: Config)
    requires n == NormalizeSummary(summary) && '\n' !in n
    requires config.summaryWrapLength <= 0 && config.preSummaryNewline
    requires '\n' !in indent
    ensures Split(indent + SummaryBlock(summary, indent, config), '\n') == [indent + TripleDouble, indent + n]
  {
    assert WrapText(n, config.summaryWrapLength, indent) == n by {
      NormalizeSingleSpaced(summary);
      SingleSpacedUnwrapped(n, config.summaryWrapLength, indent);
    }
    assert indent + SummaryBlock(summary, indent, config) == (indent + TripleDouble) + "\n" + (indent + n) by {
      var a := indent + TripleDouble;
      assert SummaryBlock(summary, indent, config) == TripleDouble + "\n" + indent + n;
      AppendAssoc(indent, TripleDouble + "\n" + indent, n);
      AppendAssoc(indent, TripleDouble + "\n", indent);
      AppendAssoc(indent, TripleDouble, "\n");
      AppendAssoc(a + "\n", indent, n);
    }
    SplitConcat(indent + TripleDouble, indent + n, '\n');
    SplitNoSeparator(indent + TripleDouble, '\n');
    SplitNoSeparator(indent + n, '\n');
  }

  lemma SummaryBlockInline(summary: string, n: string, indent: string, config: Config)
    requires n == NormalizeSummary(summary) && '\n' !in n
    requires config.summaryWrapLength <= 0 && !config.preSummaryNewline
    requires '\n' !in indent
    ensures Split(indent + SummaryBlock(summary, indent, config), '\n') == [indent + TripleDouble + n]
  {
    assert SummaryBlock(summary, indent, config) == TripleDouble + n by {
      OpeningUnwrapped(summary, config.summaryWrapLength, indent);
    }
    AppendAssoc(indent, TripleDouble, n);
    assert '\n' !in indent + TripleDouble + n;
    SplitNoSeparator(indent + TripleDouble + n, '\n');
  }

  /** Unwrapped, the opening quotes and the normalised summary stay as
      they are. */
  lemma OpeningUnwrapped(summary: string, width: int, indent: string)
    requires width <= 0
    ensures WrapText(TripleDouble + NormalizeSummary(summary), width, indent) == TripleDouble + NormalizeSummary(summary)
  {
    var n := NormalizeSummary(summary);
    TripleDoubleNoSpace();
    QuotedSummary(TripleDouble, summary, "");
    assert TripleDouble + n + "" == TripleDouble + n;
    SingleSpacedUnwrapped(TripleDouble + n, width, indent);
  }

  /** Without wrapping, the complete line layout of a docstring whose body
      has a description. */
  lemma DescriptionLayout(indentation: string, docstring: string, config: Config)
    requires StripDocstring(docstring).Some?
    requires !Contains(StripDocstring(docstring).value, TripleDouble)
    requires !NoCut(StripDocstring(docstring).value)
    requires config.summaryWrapLength <= 0
    requires '\n' !in indentation
    ensures FormatDocstring(indentation, docstring, config).Some?
    ensures var parts := SplitSummary(StripDocstring(docstring).value);
      var n := NormalizeSummary(parts.summary);
      Split(indentation + FormatDocstring(indentation, docstring, config).value, '\n')
        == (if config.preSummaryNewline then [indentation + TripleDouble, indentation + n]
            else [indentation + TripleDouble + n])
           + [""] + Reindent(Split(parts.description, '\n'), indentation) + ClosingLines(indentation, config)
  {
    var contents := StripDocstring(docstring).value;
    var parts := SplitSummary(contents);
    SplitTrimmed(contents);
    DescriptionLines(parts, indentation, config);
    SummaryBlockLines(parts.summary, indentation, config);
  }

  /** Wrap bound for the summary block: with the indentation printed in
      front, every line of it holding more than one word is at most the
      wrap length long. */
  lemma SummaryBlockWrapBound(summary: string, indent: string, config: Config)
    requires config.summaryWrapLength > 0
    requires AllSpace(indent) && '\n' !in indent
    ensures MultiWordLinesFit(Split(indent + SummaryBlock(summary, indent, config), '\n'), config.summaryWrapLength)
  {
    var n := NormalizeSummary(summary);
    var w := config.summaryWrapLength;
    if config.preSummaryNewline {
      var rest := indent + WrapText(n, w, indent);
      WrapBound(Words(n), w, indent);
      var first := indent + TripleDouble;
      assert SummaryBlock(summary, indent, config) == TripleDouble + "\n" + indent + WrapText(n, w, indent);
      LineAssoc(indent, TripleDouble, "\n", WrapText(n, w, indent));
      OpeningLine(indent);
      OneWordLineFirst(first, rest, w);
    } else {
      WrapBound(Words(TripleDouble + n), w, indent);
    }
  }

  /** A line of one word in front keeps every multi-word line in bounds. */
  lemma OneWordLineFirst(first: string, rest: string, w: int)
    requires Split(first, '\n') == [first] && |Words(first)| == 1
    requires MultiWordLinesFit(Split(rest, '\n'), w)
    ensures MultiWordLinesFit(Split(first + "\n" + rest, '\n'), w)
  {
    SplitConcat(first, rest, '\n');
  }

  /** The opening quotes on a line of their own make one word. */
  lemma OpeningLine(indent: string)
    requires AllSpace(indent) && '\n' !in indent
    ensures Split(indent + TripleDouble, '\n') == [indent + TripleDouble]
    ensures |Words(indent + TripleDouble)| == 1
  {
    var first := indent + TripleDouble;
    assert '\n' !in first;
    SplitNoSeparator(first, '\n');
    WordsSkipSpace(indent, TripleDouble);
    TripleDoubleNoSpace();
    WordsJoin([TripleDouble]);
  }

  // ---------------------------------------------------------------------
  // The randomised wrap test

  lemma ContainsFirst(s: string, p: string)
    requires |p| > 0 && Contains(s, p)
    ensures p[0] in s
    decreases |s|
  {
    if !StartsWith(s, p) {
      ContainsFirst(s[1..], p);
    }
  }

  /** The body of a literal of letters and spaces strips to its trimmed
      middle, which is again letters and spaces. */
  lemma StripLetters(q: string, body: string) returns (c: string)
    requires IsTripleQuote(q)
    requires forall i :: 0 <= i < |body| ==> IsLetter(body[i]) || body[i] == ' '
    ensures StripDocstring(q + body + q) == Some(c)
    ensures forall k :: 0 <= k < |c| ==> IsLetter(c[k]) || c[k] == ' '
  {
    StripQuotedBody(q, body);
    var i, j := TrimBounds(body);
    c := body[i..j];
    assert forall k :: 0 <= k < |c| ==> c[k] == body[i + k];
  }

  /** Letters and spaces hold no boundary and no triple quote. */
  lemma LettersPlain(c: string)
    requires forall k :: 0 <= k < |c| ==> IsLetter(c[k]) || c[k] == ' '
    ensures NoCut(c) && !Contains(c, TripleDouble)
  {
    if Contains(c, TripleDouble) {
      ContainsFirst(c, TripleDouble);
      assert false;
    }
  }

  /** The randomised wrap test, for all inputs: a body of letters and
      spaces between any triple quote formats, at every positive wrap
      length and every blank indentation, to lines that keep the bound. */
  lemma LettersWrapBound(q: string, body: string, indentation: string, config: Config)
    requires IsTripleQuote(q)
    requires forall i :: 0 <= i < |body| ==> IsLetter(body[i]) || body[i] == ' '
    requires config.summaryWrapLength > 0
    requires AllSpace(indentation) && '\n' !in indentation
    ensures FormatDocstring(indentation, q + body + q, config).Some?
    ensures MultiWordLinesFit(Split(indentation + FormatDocstring(indentation, q + body + q, config).value, '\n'),
                              config.summaryWrapLength)
  {
    var c := StripLetters(q, body);
    LettersPlain(c);
    SummaryOnlyWrapBound(indentation, q + body + q, config);
  }

  // ---------------------------------------------------------------------
  // Shapes of the unit tests' docstrings

  /** Text with no two adjacent double quotes holds no triple double
      quote. */
  lemma {:induction false} NoAdjacentQuotes(s: string)
    requires forall i :: 0 <= i < |s| - 1 ==> !(s[i] == '"' && s[i + 1] == '"')
    ensures !Contains(s, TripleDouble)
    decreases |s|
  {
    if |s| > 0 {
      var t := s[1..];
      forall i | 0 <= i < |t| - 1 ensures !(t[i] == '"' && t[i + 1] == '"') {
        assert t[i] == s[i + 1] && t[i + 1] == s[i + 2];
      }
      NoAdjacentQuotes(t);
      assert !StartsWith(s, TripleDouble) by {
        assert |s| >= 3 ==> s[..3][0] == s[0] && s[..3][1] == s[1];
      }
    }
  }

  /** Without wrapping, a body of one word between blank lines formats to
      that word, terminated, between triple double quotes. */
  lemma OneWordDocstring(indentation: string, q: string, a: string, w: string, b: string, config: Config)
    requires IsTripleQuote(q) && AllSpace(a) && AllSpace(b)
    requires |w| > 0 && NoSpace(w) && !Contains(w, TripleDouble)
    requires config.summaryWrapLength <= 0
    ensures FormatDocstring(indentation, q + a + w + b + q, config) == Some(TripleDouble + Terminate(w) + TripleDouble)
  {
    var docstring := q + a + w + b + q;
    assert StripDocstring(docstring) == Some(w) by {
      assert Trimmed(w);
      StripPadded(q, a, w, b);
    }
    NoSpaceNoCut(w);
    SummaryOnly(indentation, docstring, config);
    NormalizeWord(w);
  }

  /** A summary of one sentence on one line, without double quotes: it
      ends at its only terminator. */
  predicate OneSentence(s: string) {
    |s| > 0 && Plain(s[..|s| - 1]) && IsTerminator(s[|s| - 1]) && Trimmed(s) && '"' !in s
  }

  /** Description lines: at least one, none holding a line break, and
      together neither empty, padded nor holding a double quote. */
  predicate PlainLines(ls: seq<string>) {
    && |ls| > 0
    && (forall k :: 0 <= k < |ls| ==> '\n' !in ls[k])
    && Join(ls, "\n") != "" && Trimmed(Join(ls, "\n")) && '"' !in Join(ls, "\n")
  }

  /** A one-sentence summary holds no boundary. */
  lemma OneSentenceNoCut(s: string)
    requires OneSentence(s)
    ensures NoCut(s)
  {
    forall q | 0 < q < |s| ensures !IsCut(s, q) {
      assert s[q - 1] == s[..|s| - 1][q - 1];
    }
  }

  /** Without wrapping, a body of one sentence between blanks formats to
      that sentence between triple double quotes. */
  lemma SentenceDocstring(indentation: string, q: string, a: string, s: string, b: string, config: Config)
    requires IsTripleQuote(q) && AllSpace(a) && AllSpace(b)
    requires OneSentence(s) && NormalizeSummary(s) == s
    requires config.summaryWrapLength <= 0
    ensures FormatDocstring(indentation, q + a + s + b + q, config) == Some(TripleDouble + s + TripleDouble)
  {
    var docstring := q + a + s + b + q;
    StripPadded(q, a, s, b);
    if Contains(s, TripleDouble) {
      ContainsFirst(s, TripleDouble);
    }
    OneSentenceNoCut(s);
    SummaryOnly(indentation, docstring, config);
  }

  /** Without wrapping, a body made of a one-sentence summary, blanks, and
      description lines formats to the summary after the opening quotes,
      a blank line, the re-indented description lines and the closing. */
  lemma DescribedDocstring(indentation: string, q: string, a: string, s: string, g: string,
                           ls: seq<string>, b: string, config: Config)
    requires IsTripleQuote(q) && AllSpace(a) && AllSpace(b) && |g| > 0 && AllSpace(g)
    requires OneSentence(s) && NormalizeSummary(s) == s
    requires PlainLines(ls)
    requires config.summaryWrapLength <= 0
    ensures FormatDocstring(indentation, q + a + s + g + Join(ls, "\n") + b + q, config)
      == Some(Opening(s, indentation, config) + "\n\n" + Join(Reindent(ls, indentation), "\n") + "\n"
              + Closing(indentation, config))
  {
    var d := Join(ls, "\n");
    var body := s + g + d;
    var docstring := q + a + s + g + d + b + q;
    DescribedBody(q, a, s, g, d, b);
    SplitAtSentence(s, g, d);
    SplitJoin(ls, '\n');
    assert FormatDocstring(indentation, docstring, config) == Some(Layout(Parts(s, d), indentation, config));
    DescribedLayout(s, d, ls, indentation, config);
  }

  /** Without wrapping, a body whose summary runs over two lines and ends
      on the second, followed by description lines, formats to the summary
      joined onto one line after the opening quotes, a blank line, the
      re-indented description lines and the closing. */
  lemma WrappedSummaryDocstring(indentation: string, q: string, a: string, l1: string, ind: string, s2: string,
                                g: string, ls: seq<string>, b: string, config: Config)
    requires IsTripleQuote(q) && AllSpace(a) && AllSpace(b) && |g| > 0 && AllSpace(g)
    requires |l1| > 0 && Plain(l1) && Trimmed(l1) && '"' !in l1
    requires AllSpace(ind) && '\n' !in ind
    requires OneSentence(s2) && !IsListMarker(s2[0])
    requires PlainLines(ls)
    requires config.summaryWrapLength <= 0
    ensures FormatDocstring(indentation, q + a + (l1 + "\n" + ind + s2) + g + Join(ls, "\n") + b + q, config)
      == Some(Opening(NormalizeSummary(l1 + " " + s2), indentation, config) + "\n\n"
              + Join(Reindent(ls, indentation), "\n") + "\n" + Closing(indentation, config))
  {
    var s := l1 + "\n" + ind + s2;
    var d := Join(ls, "\n");
    WrappedSummaryBody(l1, ind, s2);
    DescribedBody(q, a, s, g, d, b);
    SplitAtWrappedSentence(l1, ind, s2, g, d);
    SplitJoin(ls, '\n');
    assert FormatDocstring(indentation, q + a + s + g + d + b + q, config) == Some(Layout(Parts(s, d), indentation, config));
    SummaryLineBreak(l1, ind, s2);
    WrappedSummaryLayout(s, NormalizeSummary(s), d, ls, indentation, config);
  }

  lemma WrappedSummaryBody(l1: string, ind: string, s2: string)
    requires |l1| > 0 && Trimmed(l1) && '"' !in l1 && AllSpace(ind)
    requires OneSentence(s2)
    ensures var s := l1 + "\n" + ind + s2; |s| > 0 && Trimmed(s) && '"' !in s
  {
    var s := l1 + "\n" + ind + s2;
    assert s[0] == l1[0];
    assert s[|s| - 1] == s2[|s2| - 1];
    assert forall k :: 0 <= k < |ind| ==> ind[k] != '"';
  }

  /** The layout of a summary depends only on its normalised form. */
  lemma WrappedSummaryLayout(s: string, n: string, d: string, ls: seq<string>, indent: string, config: Config)
    requires NormalizeSummary(s) == n && d != "" && Split(d, '\n') == ls
    requires config.summaryWrapLength <= 0
    ensures Layout(Parts(s, d), indent, config)
      == Opening(n, indent, config) + "\n\n" + Join(Reindent(ls, indent), "\n") + "\n" + Closing(indent, config)
  {
    NormalizeIdempotent(s);
    assert SummaryBlock(s, indent, config) == SummaryBlock(n, indent, config);
    assert Layout(Parts(s, d), indent, config) == Layout(Parts(n, d), indent, config);
    DescribedLayout(n, d, ls, indent, config);
  }

  /** The body of such a docstring: the summary, the blanks and the
      description, free of triple double quotes. */
  lemma DescribedBody(q: string, a: string, s: string, g: string, d: string, b: string)
    requires IsTripleQuote(q) && AllSpace(a) && AllSpace(b) && AllSpace(g)
    requires |s| > 0 && |d| > 0 && Trimmed(s) && Trimmed(d)
    requires '"' !in s && '"' !in d
    ensures StripDocstring(q + a + s + g + d + b + q) == Some(s + g + d)
    ensures !Contains(s + g + d, TripleDouble)
  {
    var body := s + g + d;
    assert Trimmed(body) by {
      assert body[0] == s[0];
      assert body[|body| - 1] == d[|d| - 1];
    }
    assert q + a + body + b + q == q + a + s + g + d + b + q by {
      AppendAssoc(q + a, s + g, d);
      AppendAssoc(q + a, s, g);
    }
    StripPadded(q, a, body, b);
    assert '"' !in g;
    if Contains(body, TripleDouble) {
      ContainsFirst(body, TripleDouble);
    }
  }

  /** The opening of a docstring whose summary is already normalised and
      is not wrapped. */
  function Opening(s: string, indent: string, config: Config): string {
    if config.preSummaryNewline then TripleDouble + "\n" + indent + s else TripleDouble + s
  }

  /** Unwrapped, a normalised summary opens the docstring as it is. */
  lemma OpeningOf(s: string, indent: string, config: Config)
    requires NormalizeSummary(s) == s && config.summaryWrapLength <= 0
    ensures SummaryBlock(s, indent, config) == Opening(s, indent, config)
  {
    var w := config.summaryWrapLength;
    if config.preSummaryNewline {
      NormalizeSingleSpaced(s);
      SingleSpacedUnwrapped(s, w, indent);
    } else {
      OpeningUnwrapped(s, w, indent);
    }
  }

  lemma DescribedLayout(s: string, d: string, ls: seq<string>, indent: string, config: Config)
    requires NormalizeSummary(s) == s && d != "" && Split(d, '\n') == ls
    requires config.summaryWrapLength <= 0
    ensures Layout(Parts(s, d), indent, config)
      == Opening(s, indent, config) + "\n\n" + Join(Reindent(ls, indent), "\n") + "\n" + Closing(indent, config)
  {
    OpeningOf(s, indent, config);
    var o := Opening(s, indent, config);
    var j := Join(Reindent(ls, indent), "\n");
    var c := Closing(indent, config);
    assert DescriptionTail(d, indent, config) == "\n" + j + "\n" + c;
    NewlinePair(o, j, c);
  }

  /** A description line written at the left margin is indented and
      stripped of its trailing blanks. */
  lemma IndentStripped(indent: string, l: string, tail: string)
    requires |l| > 0 && !IsSpace(l[0]) && !IsSpace(l[|l| - 1]) && AllSpace(tail)
    ensures TrimRight(IndentLine(l + tail, indent)) == indent + l
  {
    assert IndentLine(l + tail, indent) == (indent + l) + tail;
    TrimRightPadded(indent + l, tail);
  }

  /** A description line that is already indented is only stripped. */
  lemma IndentKept(indent: string, l: string)
    requires |l| > 0 && IsSpace(l[0]) && !IsSpace(l[|l| - 1])
    ensures TrimRight(IndentLine(l, indent)) == l
  {
  }

}
