/**
  The unit tests of `test_docformatter.py`, each stated as a lemma about
  the model: the literal input and the literal expected output of the
  test, with a proof that builds the input from pieces the general lemmas
  speak about.
 */
module Examples {
  import opened Wrappers
  import opened Text
  import opened Docstring
  import opened Format

  // ---------------------------------------------------------------------
  // strip_docstring

  /** `test_strip_docstring`. */
  lemma StripDoubleExample()
    ensures StripDocstring("\n    \"\"\"Hello.\n\n    \"\"\"\n\n    ") == Some("Hello.")
  {
    StripDoubleInput();
    StripQuoted("\n    ", TripleDouble, "", "Hello.", "\n\n    ", "\n\n    ");
  }

  lemma StripDoubleInput()
    ensures "\n    " + TripleDouble + "" + "Hello." + "\n\n    " + TripleDouble + "\n\n    "
      == "\n    \"\"\"Hello.\n\n    \"\"\"\n\n    "
  {
  }

  /** `test_strip_docstring_with_single_quotes`. */
  lemma StripSingleExample()
    ensures StripDocstring("\n    '''Hello.\n\n    '''\n\n    ") == Some("Hello.")
  {
    StripSingleInput();
    StripQuoted("\n    ", TripleSingle, "", "Hello.", "\n\n    ", "\n\n    ");
  }

  lemma StripSingleInput()
    ensures "\n    " + TripleSingle + "" + "Hello." + "\n\n    " + TripleSingle + "\n\n    "
      == "\n    '''Hello.\n\n    '''\n\n    "
  {
  }

  /** `test_strip_docstring_with_empty_string`. */
  lemma StripEmptyExample()
    ensures StripDocstring("\"\"\"\"\"\"") == Some("")
  {
    assert TripleDouble + "" + TripleDouble == "\"\"\"\"\"\"";
    StripQuotedBody(TripleDouble, "");
  }

  // ---------------------------------------------------------------------
  // normalize_summary

  /** `test_normalize_summary`: blanks collapse and a period is added. */
  lemma NormalizeExample()
    ensures NormalizeSummary("This \n\t is\na sentence") == "This is a sentence."
  {
    NormalizeInput();
    WordsOfInput();
    SentenceJoin();
  }

  lemma NormalizeInput()
    ensures "This" + " \n\t " + ("is" + "\n" + ("a" + " " + "sentence")) == "This \n\t is\na sentence"
    ensures "This is a sentence" + "." == "This is a sentence."
  {
  }

  lemma WordsOfInput()
    ensures Words("This" + " \n\t " + ("is" + "\n" + ("a" + " " + "sentence"))) == ["This", "is", "a", "sentence"]
  {
    WordsOfTail();
    WordsAppend("This", " \n\t ", "is" + "\n" + ("a" + " " + "sentence"));
  }

  lemma WordsOfTail()
    ensures Words("is" + "\n" + ("a" + " " + "sentence")) == ["is", "a", "sentence"]
  {
    WordsOfLast();
    WordsAppend("is", "\n", "a" + " " + "sentence");
  }

  lemma WordsOfLast()
    ensures Words("a" + " " + "sentence") == ["a", "sentence"]
  {
    WordOf("sentence");
    WordsAppend("a", " ", "sentence");
  }

  lemma SentenceJoin()
    ensures Join(["This", "is", "a", "sentence"], " ") == "This is a sentence"
  {
    var ws := ["This", "is", "a", "sentence"];
    assert Join(ws[2..], " ") == "a sentence";
    assert Join(ws[1..], " ") == "is a sentence";
  }

  /** `test_normalize_summary_with_different_punctuation`: a question
      mark already ends the sentence. */
  lemma NormalizeQuestionExample()
    ensures NormalizeSummary("This is a question?") == "This is a question?"
  {
    QuestionJoin();
    NormalizeFixed(["This", "is", "a", "question?"]);
  }

  lemma QuestionJoin()
    ensures Join(["This", "is", "a", "question?"], " ") == "This is a question?"
  {
    var ws := ["This", "is", "a", "question?"];
    assert Join(ws[2..], " ") == "a question?";
    assert Join(ws[1..], " ") == "is a question?";
  }

  // ---------------------------------------------------------------------
  // split_summary_and_description
  //
  // The inputs are the tests' literals written as the concatenation of
  // their summary, separator and description.

  /** `test_split_summary_and_description`: the first sentence. */
  lemma SplitExample()
    ensures SplitSummary("This is the first." + " " + "This is the second. This is the third.")
      == Parts("This is the first.", "This is the second. This is the third.")
  {
    SplitAtSentence("This is the first.", " ", "This is the second. This is the third.");
  }

  /** `test_split_summary_and_description_complex`: a blank line ends the
      summary even without a period. */
  lemma SplitBlankLineExample()
    ensures SplitSummary("This is the first" + "\n\n" + "This is the second. This is the third.")
      == Parts("This is the first", "This is the second. This is the third.")
  {
    SplitAtBlankLine("This is the first", "\n\n", "This is the second. This is the third.");
  }

  /** `test_split_summary_and_description_more_complex`: a period at the
      end of the first line. */
  lemma SplitLineEndExample()
    ensures SplitSummary("This is the first." + "\n" + "This is the second. This is the third.")
      == Parts("This is the first.", "This is the second. This is the third.")
  {
    SplitAtSentence("This is the first.", "\n", "This is the second. This is the third.");
  }

  /** `test_split_summary_and_description_with_list`. */
  lemma SplitListExample()
    ensures SplitSummary("This is the first" + "\n" + "- one\n- two") == Parts("This is the first", "- one\n- two")
  {
    SplitAtListLine("This is the first", "- one\n- two");
  }

  /** `test_split_summary_and_description_with_list_on_other_line`: a
      field marker on the third line, after a two-line summary. */
  lemma SplitFieldExample()
    ensures SplitSummary("    Test" + "\n" + "    test" + "\n" + "    " + "@blah" + "\n")
      == Parts("Test\n    test", "@blah")
  {
    FieldPieces();
    FieldLines();
    SplitAtThirdLine("    Test", "    test", "    ", "@blah", "\n");
    TrimLeading("    ", "Test\n    test");
  }

  lemma FieldLines()
    ensures Plain("    Test") && Plain("    test") && !OpensDescription("    test")
    ensures AllSpace("    ") && '\n' !in "    "
    ensures |"@blah"| > 0 && IsListMarker("@blah"[0]) && Trimmed("@blah") && AllSpace("\n")
  {
    TrimLeftPadded("    ", "test");
  }

  lemma FieldPieces()
    ensures "    " + "Test\n    test" == "    Test" + "\n" + "    test"
    ensures "    " + "test" == "    test"
  {
  }

  /** `test_split_summary_and_description_with_other_symbol`. */
  lemma SplitOtherSymbolExample()
    ensures SplitSummary("This is the first" + "\n" + "@ one\n@ two") == Parts("This is the first", "@ one\n@ two")
  {
    SplitAtListLine("This is the first", "@ one\n@ two");
  }

  // ---------------------------------------------------------------------
  // format_docstring, at the default options and the indentation "    "

  /** `test_format_docstring`: blank lines around the summary go. */
  lemma FormatExample()
    ensures FormatDocstring("    ", "\"\"\"\n\nHello.\n\"\"\"", Defaults) == Some("\"\"\"Hello.\"\"\"")
  {
    HelloInputs();
    HelloWord();
    OneWordDocstring("    ", TripleDouble, "\n\n", "Hello.", "\n", Defaults);
  }

  /** The one-word summaries of these examples, and the blanks around
      them. */
  lemma HelloWord()
    ensures |"Hello"| > 0 && NoSpace("Hello") && !Contains("Hello", TripleDouble)
    ensures |"Hello."| > 0 && NoSpace("Hello.") && !Contains("Hello.", TripleDouble)
    ensures AllSpace("\n\n") && AllSpace("\n")
  {
    PlainWord("Hello");
    PlainWord("Hello.");
  }

  /** A word without double quotes holds no triple quote. */
  lemma PlainWord(w: string)
    requires '"' !in w
    ensures !Contains(w, TripleDouble)
  {
    NoAdjacentQuotes(w);
  }

  lemma HelloInputs()
    ensures TripleDouble + "\n\n" + "Hello." + "\n" + TripleDouble == "\"\"\"\n\nHello.\n\"\"\""
    ensures TripleSingle + "\n\n" + "Hello." + "\n" + TripleSingle == "'''\n\nHello.\n'''"
    ensures TripleDouble + "\n\n" + "Hello" + "\n" + TripleDouble == "\"\"\"\n\nHello\n\"\"\""
    ensures TripleDouble + "Hello." + TripleDouble == "\"\"\"Hello.\"\"\""
    ensures "Hello" + "." == "Hello."
  {
  }

  /** `test_format_docstring_with_summary_that_ends_in_quote`: the period
      goes after the closing quote of the summary. */
  lemma QuoteEndingExample()
    ensures FormatDocstring("    ", "\"\"\"\n\n\"Hello\"\n\"\"\"", Defaults) == Some("\"\"\"\"Hello\".\"\"\"")
  {
    QuoteEndingInputs();
    QuotedHelloWord();
    OneWordDocstring("    ", TripleDouble, "\n\n", "\"Hello\"", "\n", Defaults);
  }

  lemma QuotedHelloWord()
    ensures |"\"Hello\""| > 0 && NoSpace("\"Hello\"") && !Contains("\"Hello\"", TripleDouble)
    ensures AllSpace("\n\n") && AllSpace("\n")
  {
    assert "\"" + "Hello" + "\"" == "\"Hello\"";
    QuotedWord("Hello");
  }

  /** A quote-free word between double quotes is one word holding no
      triple quote. */
  lemma QuotedWord(w: string)
    requires |w| > 0 && NoSpace(w) && '"' !in w
    ensures var x := "\"" + w + "\""; |x| > 0 && NoSpace(x) && !Contains(x, TripleDouble)
  {
    var x := "\"" + w + "\"";
    forall i | 0 <= i < |x| - 1 ensures !(x[i] == '"' && x[i + 1] == '"') {
      if 0 < i + 1 < |x| - 1 {
        assert x[i + 1] == w[i];
      }
    }
    NoAdjacentQuotes(x);
  }

  lemma QuoteEndingInputs()
    ensures TripleDouble + "\n\n" + "\"Hello\"" + "\n" + TripleDouble == "\"\"\"\n\n\"Hello\"\n\"\"\""
    ensures TripleDouble + ("\"Hello\"" + ".") + TripleDouble == "\"\"\"\"Hello\".\"\"\""
  {
  }

  /** `test_format_docstring_with_empty_docstring`. */
  lemma EmptyExample()
    ensures FormatDocstring("    ", "\"\"\"\"\"\"", Defaults) == Some("\"\"\"\"\"\"")
  {
    assert TripleDouble + TripleDouble == "\"\"\"\"\"\"";
    EmptyFixedPoint("    ", Defaults);
  }

  /** `test_format_docstring_with_no_period`. */
  lemma NoPeriodExample()
    ensures FormatDocstring("    ", "\"\"\"\n\nHello\n\"\"\"", Defaults) == Some("\"\"\"Hello.\"\"\"")
  {
    HelloInputs();
    HelloWord();
    OneWordDocstring("    ", TripleDouble, "\n\n", "Hello", "\n", Defaults);
  }

  /** `test_format_docstring_with_single_quotes`: the output always uses
      double quotes. */
  lemma SingleQuotesExample()
    ensures FormatDocstring("    ", "'''\n\nHello.\n'''", Defaults) == Some("\"\"\"Hello.\"\"\"")
  {
    HelloInputs();
    HelloWord();
    OneWordDocstring("    ", TripleSingle, "\n\n", "Hello.", "\n", Defaults);
  }

  // The docstrings with a description are written as the concatenation of
  // their quotes, summary, blanks and description lines.

  /** `test_format_docstring_with_no_post_description_blank`. */
  lemma NoPostBlankExample()
    ensures FormatDocstring("    ",
      TripleDouble + "\n\n" + "Hello." + "\n\n    " + "Description." + "\n\n\n    " + TripleDouble,
      Config(0, false, false))
      == Some(TripleDouble + "Hello." + "\n\n" + "    Description." + "\n" + "    " + TripleDouble)
  {
    HelloDescribed(Config(0, false, false));
    ClosingPieces(TripleDouble + "Hello.", "    Description.", "", "    ", TripleDouble);
  }

  /** `test_format_docstring_with_pre_summary_newline`. */
  lemma PreSummaryNewlineExample()
    ensures FormatDocstring("    ",
      TripleDouble + "\n\n" + "Hello." + "\n\n    " + "Description." + "\n\n\n    " + TripleDouble,
      Config(0, true, true))
      == Some(TripleDouble + "\n" + "    " + "Hello." + "\n\n" + "    Description." + "\n" + "\n" + "    " + TripleDouble)
  {
    HelloDescribed(Config(0, true, true));
    ClosingPieces(TripleDouble + "\n" + "    " + "Hello.", "    Description.", "\n", "    ", TripleDouble);
  }

  /** The two tests above share their docstring. */
  lemma HelloDescribed(config: Config)
    requires config.summaryWrapLength <= 0
    ensures FormatDocstring("    ",
      TripleDouble + "\n\n" + "Hello." + "\n\n    " + "Description." + "\n\n\n    " + TripleDouble, config)
      == Some(Opening("Hello.", "    ", config) + "\n\n" + "    Description." + "\n" + Closing("    ", config))
  {
    HelloSentence();
    DescriptionLine();
    DescribedDocstring("    ", TripleDouble, "\n\n", "Hello.", "\n\n    ", ["Description."], "\n\n\n    ", config);
  }

  lemma HelloSentence()
    ensures OneSentence("Hello.") && NormalizeSummary("Hello.") == "Hello."
  {
    NormalizeWord("Hello.");
  }

  lemma DescriptionLine()
    ensures Join(["Description."], "\n") == "Description."
    ensures PlainLines(["Description."])
    ensures Join(Reindent(["Description."], "    "), "\n") == "    Description."
  {
    IndentStripped("    ", "Description.", "");
    assert "Description." + "" == "Description.";
  }

  /** The closing quotes, written as pieces, end the output. */
  lemma ClosingPieces(o: string, j: string, c1: string, c2: string, q: string)
    ensures o + "\n\n" + j + "\n" + (c1 + c2 + q) == o + "\n\n" + j + "\n" + c1 + c2 + q
    ensures o + "\n\n" + j + "\n" + ("" + c2 + q) == o + "\n\n" + j + "\n" + c2 + q
  {
  }

  /** `test_format_docstring_with_single_quotes_multiline`. */
  lemma SingleQuotesMultilineExample()
    ensures FormatDocstring("    ",
      TripleSingle + "\n    " + "Return x factorial." + "\n\n    " + "This uses math.factorial." + "\n    " + TripleSingle,
      Defaults)
      == Some(TripleDouble + "Return x factorial." + "\n\n" + ("    " + "This uses math.factorial.") + "\n" + "\n"
              + "    " + TripleDouble)
  {
    FactorialDescribed(Defaults);
    ClosingPieces(TripleDouble + "Return x factorial.", "    " + "This uses math.factorial.", "\n", "    ", TripleDouble);
  }

  lemma FactorialDescribed(config: Config)
    requires config.summaryWrapLength <= 0
    ensures FormatDocstring("    ",
      TripleSingle + "\n    " + "Return x factorial." + "\n\n    " + "This uses math.factorial." + "\n    " + TripleSingle,
      config)
      == Some(Opening("Return x factorial.", "    ", config) + "\n\n" + ("    " + "This uses math.factorial.") + "\n"
              + Closing("    ", config))
  {
    FactorialSentence();
    FactorialNormal();
    FactorialLine();
    FactorialShape("Return x factorial.", "This uses math.factorial.", config);
  }

  /** The shape of the docstring above, with its words left open. */
  lemma FactorialShape(s: string, l: string, config: Config)
    requires config.summaryWrapLength <= 0
    requires OneSentence(s) && NormalizeSummary(s) == s
    requires PlainLines([l]) && Join([l], "\n") == l && Join(Reindent([l], "    "), "\n") == "    " + l
    ensures FormatDocstring("    ", TripleSingle + "\n    " + s + "\n\n    " + l + "\n    " + TripleSingle, config)
      == Some(Opening(s, "    ", config) + "\n\n" + ("    " + l) + "\n" + Closing("    ", config))
  {
    assert AllSpace("\n    ") && AllSpace("\n\n    ");
    DescribedDocstring("    ", TripleSingle, "\n    ", s, "\n\n    ", [l], "\n    ", config);
  }

  lemma FactorialSentence()
    ensures OneSentence("Return x factorial.")
  {
  }

  lemma FactorialNormal()
    ensures NormalizeSummary("Return x factorial.") == "Return x factorial."
  {
    FactorialJoin();
    NormalizeFixed(["Return", "x", "factorial."]);
  }

  lemma FactorialJoin()
    ensures Join(["Return", "x", "factorial."], " ") == "Return x factorial."
  {
    JoinThree("Return", "x", "factorial.", " ");
  }

  lemma FactorialLine()
    ensures Join(["This uses math.factorial."], "\n") == "This uses math.factorial."
    ensures PlainLines(["This uses math.factorial."])
    ensures Join(Reindent(["This uses math.factorial."], "    "), "\n") == "    " + "This uses math.factorial."
  {
    IndentStripped("    ", "This uses math.factorial.", "");
    assert "This uses math.factorial." + "" == "This uses math.factorial.";
  }

  // Multi-line descriptions: the lines are left open in a shape lemma, and
  // the test's own lines are put in afterwards.

  /** `test_format_docstring_with_bad_indentation`: lines at the left
      margin are indented, the indented one is kept. */
  lemma BadIndentationExample()
    ensures FormatDocstring("    ",
      TripleDouble + "Hello." + "\n\n"
      + "This should be indented but it is not. The" + "\n"
      + "next line should be indented too. But" + "\n"
      + "    this is okay." + "\n    " + TripleDouble,
      Defaults)
      == Some(TripleDouble + "Hello." + "\n\n"
              + ("    " + "This should be indented but it is not. The" + "\n"
                 + "    " + "next line should be indented too. But" + "\n"
                 + "    this is okay.")
              + "\n" + "\n" + "    " + TripleDouble)
  {
    HelloSentence();
    BadIndentationLines();
    BadIndentationReindent();
    GapBlank();
    ThreeLineDefaults("Hello.", "\n\n", "This should be indented but it is not. The",
                      "next line should be indented too. But", "    this is okay.", "\n    ");
  }

  lemma BadIndentationReindent()
    ensures Join(Reindent(["This should be indented but it is not. The", "next line should be indented too. But",
                           "    this is okay."], "    "), "\n")
      == "    " + "This should be indented but it is not. The" + "\n"
         + "    " + "next line should be indented too. But" + "\n" + "    this is okay."
  {
    ThreeLines("This should be indented but it is not. The", "next line should be indented too. But",
               "    this is okay.", "    ");
  }

  lemma GapBlank()
    ensures AllSpace("\n\n") && AllSpace("\n    ")
  {
  }

  /** The shape of the docstring above at the default options, with its
      words left open. */
  lemma ThreeLineDefaults(s: string, g: string, l1: string, l2: string, l3: string, b: string)
    requires |g| > 0 && AllSpace(g) && AllSpace(b)
    requires OneSentence(s) && NormalizeSummary(s) == s && PlainLines([l1, l2, l3])
    requires Join(Reindent([l1, l2, l3], "    "), "\n") == "    " + l1 + "\n" + "    " + l2 + "\n" + l3
    ensures FormatDocstring("    ", TripleDouble + s + g + l1 + "\n" + l2 + "\n" + l3 + b + TripleDouble, Defaults)
      == Some(TripleDouble + s + "\n\n" + ("    " + l1 + "\n" + "    " + l2 + "\n" + l3) + "\n" + "\n" + "    "
              + TripleDouble)
  {
    ThreeLineShape(s, "", g, l1, l2, l3, b, Defaults);
    assert TripleDouble + "" == TripleDouble;
    ClosingPieces(TripleDouble + s, "    " + l1 + "\n" + "    " + l2 + "\n" + l3, "\n", "    ", TripleDouble);
  }

  lemma BadIndentationLines()
    ensures PlainLines(["This should be indented but it is not. The", "next line should be indented too. But",
                        "    this is okay."])
  {
    BareLine1();
    BareLine2();
    BareLine3();
    PlainThree("This should be indented but it is not. The", "next line should be indented too. But",
               "    this is okay.");
  }

  /** `test_format_docstring_with_trailing_whitespace`: trailing blanks
      go from every line. */
  lemma TrailingWhitespaceExample()
    ensures FormatDocstring("    ",
      TripleDouble + "Hello." + "\t\n\t\n    "
      + (("This should be not have" + " trailing whitespace. The") + "\t\t\t") + "\n"
      + ("    next line should not" + " have trailing whitespace either.") + "\t\n\t\n    " + TripleDouble,
      Defaults)
      == Some(TripleDouble + "Hello." + "\n\n"
              + ("    " + ("This should be not have" + " trailing whitespace. The") + "\n"
                 + ("    next line should not" + " have trailing whitespace either."))
              + "\n" + "\n" + "    " + TripleDouble)
  {
    HelloSentence();
    TrailingWhitespaceLines();
    TrailingShape("Hello.", "\t\n\t\n    ", "This should be not have" + " trailing whitespace. The", "\t\t\t",
                  "    next line should not" + " have trailing whitespace either.");
  }

  /** The layout of a summary followed by two description lines, the
      first at the margin with trailing blanks, the second indented. */
  lemma TrailingShape(s: string, g: string, l1: string, tail: string, l2: string)
    requires |g| > 0 && AllSpace(g) && AllSpace(tail)
    requires OneSentence(s) && NormalizeSummary(s) == s && PlainLines([l1 + tail, l2])
    requires |l1| > 0 && !IsSpace(l1[0]) && !IsSpace(l1[|l1| - 1])
    requires |l2| > 0 && IsSpace(l2[0]) && !IsSpace(l2[|l2| - 1])
    ensures FormatDocstring("    ", TripleDouble + s + g + (l1 + tail) + "\n" + l2 + g + TripleDouble, Defaults)
      == Some(TripleDouble + s + "\n\n" + ("    " + l1 + "\n" + l2) + "\n" + "\n" + "    " + TripleDouble)
  {
    TwoLines(l1, tail, l2, "    ");
    TwoLineShape(s, g, l1 + tail, l2, g, Defaults);
    ClosingPieces(TripleDouble + s, "    " + l1 + "\n" + l2, "\n", "    ", TripleDouble);
  }

  lemma TrailingWhitespaceLines()
    ensures PlainLines([("This should be not have" + " trailing whitespace. The") + "\t\t\t",
                        ("    next line should not" + " have trailing whitespace either.")])
  {
    BareLine4();
    BareLine5();
    PlainTwo(("This should be not have" + " trailing whitespace. The"), "\t\t\t",
             ("    next line should not" + " have trailing whitespace either."));
  }

  /** A docstring with a three-line description. */
  lemma ThreeLineShape(s: string, a: string, g: string, l1: string, l2: string, l3: string, b: string, config: Config)
    requires AllSpace(a) && AllSpace(b) && |g| > 0 && AllSpace(g) && config.summaryWrapLength <= 0
    requires OneSentence(s) && NormalizeSummary(s) == s && PlainLines([l1, l2, l3])
    ensures FormatDocstring("    ", TripleDouble + a + s + g + l1 + "\n" + l2 + "\n" + l3 + b + TripleDouble, config)
      == Some(Opening(s, "    ", config) + "\n\n" + Join(Reindent([l1, l2, l3], "    "), "\n") + "\n"
              + Closing("    ", config))
  {
    var ls := [l1, l2, l3];
    JoinThree(l1, l2, l3, "\n");
    DescribedDocstring("    ", TripleDouble, a, s, g, ls, b, config);
    SpliceThree(TripleDouble + a + s + g, l1, l2, l3, "\n");
  }

  /** A docstring with a two-line description. */
  lemma TwoLineShape(s: string, g: string, l1: string, l2: string, b: string, config: Config)
    requires AllSpace(b) && |g| > 0 && AllSpace(g) && config.summaryWrapLength <= 0
    requires OneSentence(s) && NormalizeSummary(s) == s && PlainLines([l1, l2])
    ensures FormatDocstring("    ", TripleDouble + s + g + l1 + "\n" + l2 + b + TripleDouble, config)
      == Some(Opening(s, "    ", config) + "\n\n" + Join(Reindent([l1, l2], "    "), "\n") + "\n"
              + Closing("    ", config))
  {
    var ls := [l1, l2];
    JoinTwo(l1, l2, "\n");
    DescribedDocstring("    ", TripleDouble, "", s, g, ls, b, config);
    SpliceTwo(TripleDouble + s + g, l1, l2, "\n");
    assert TripleDouble + "" == TripleDouble;
  }

  lemma SpliceTwo(p: string, l1: string, l2: string, sep: string)
    ensures p + (l1 + sep + l2) == p + l1 + sep + l2
  {
    AppendAssoc(p, l1 + sep, l2);
    AppendAssoc(p, l1, sep);
  }

  lemma SpliceThree(p: string, l1: string, l2: string, l3: string, sep: string)
    ensures p + (l1 + sep + l2 + sep + l3) == p + l1 + sep + l2 + sep + l3
  {
    AppendAssoc(p, l1 + sep + l2 + sep, l3);
    AppendAssoc(p, l1 + sep + l2, sep);
    SpliceTwo(p, l1, l2, sep);
  }

  /** A line with neither a line break nor a double quote. */
  predicate Bare(l: string) {
    '\n' !in l && '"' !in l
  }

  // Each literal fact below is its own lemma: checking that a literal
  // holds no line break and no double quote is one solver case per
  // character, and several such facts together exceed the resource limit.
  lemma BareLine1() ensures Bare("This should be indented but it is not. The") { }
  lemma BareLine2() ensures Bare("next line should be indented too. But") { }
  lemma BareLine3() ensures Bare("    this is okay.") { }
  lemma BareLine4() ensures Bare("This should be not have" + " trailing whitespace. The") && Bare("\t\t\t")
  {
    BarePiece1();
    BarePiece2();
    BareConcat("This should be not have", " trailing whitespace. The");
  }
  lemma BareLine5() ensures Bare("    next line should not" + " have trailing whitespace either.")
  {
    BarePiece3();
    BarePiece4();
    BareConcat("    next line should not", " have trailing whitespace either.");
  }
  lemma BarePiece1() ensures Bare("This should be not have") { }
  lemma BarePiece2() ensures Bare(" trailing whitespace. The") { }
  lemma BarePiece3() ensures Bare("    next line should not") { }
  lemma BarePiece4() ensures Bare(" have trailing whitespace either.") { }

  lemma BareConcat(a: string, b: string)
    requires Bare(a) && Bare(b)
    ensures Bare(a + b)
  {
  }

  lemma PlainThree(l1: string, l2: string, l3: string)
    requires |l1| > 0 && !IsSpace(l1[0]) && |l3| > 0 && !IsSpace(l3[|l3| - 1])
    requires Bare(l1) && Bare(l2) && Bare(l3)
    ensures PlainLines([l1, l2, l3])
  {
    JoinThree(l1, l2, l3, "\n");
  }

  lemma PlainTwo(l1: string, tail: string, l2: string)
    requires |l1| > 0 && !IsSpace(l1[0]) && |l2| > 0 && !IsSpace(l2[|l2| - 1])
    requires Bare(l1) && Bare(tail) && Bare(l2)
    ensures PlainLines([l1 + tail, l2])
  {
    JoinTwo(l1 + tail, l2, "\n");
  }

  /** Two margin lines are indented, an indented third is kept. */
  lemma ThreeLines(l1: string, l2: string, l3: string, indent: string)
    requires |l1| > 0 && !IsSpace(l1[0]) && !IsSpace(l1[|l1| - 1])
    requires |l2| > 0 && !IsSpace(l2[0]) && !IsSpace(l2[|l2| - 1])
    requires |l3| > 0 && IsSpace(l3[0]) && !IsSpace(l3[|l3| - 1])
    ensures Join(Reindent([l1, l2, l3], indent), "\n") == indent + l1 + "\n" + indent + l2 + "\n" + l3
  {
    var r := Reindent([l1, l2, l3], indent);
    assert r[0] == indent + l1 by {
      IndentStripped(indent, l1, "");
      assert l1 + "" == l1;
    }
    assert r[1] == indent + l2 by {
      IndentStripped(indent, l2, "");
      assert l2 + "" == l2;
    }
    assert r[2] == l3 by {
      IndentKept(indent, l3);
    }
    assert r == [indent + l1, indent + l2, l3];
    JoinThree(indent + l1, indent + l2, l3, "\n");
  }

  /** A margin line with trailing blanks is indented and stripped; an
      indented second line is kept. */
  lemma TwoLines(l1: string, tail: string, l2: string, indent: string)
    requires |l1| > 0 && !IsSpace(l1[0]) && !IsSpace(l1[|l1| - 1]) && AllSpace(tail)
    requires |l2| > 0 && IsSpace(l2[0]) && !IsSpace(l2[|l2| - 1])
    ensures Join(Reindent([l1 + tail, l2], indent), "\n") == indent + l1 + "\n" + l2
  {
    IndentStripped(indent, l1, tail);
    IndentKept(indent, l2);
    assert Reindent([l1 + tail, l2], indent) == [indent + l1, l2];
    JoinTwo(indent + l1, l2, "\n");
  }
}
