/**
  The `format_code` unit tests of `test_docformatter.py`. The lexer is
  outside the model, so each test file is given as the tokens Python's
  lexer yields for it. The lemmas state the text of those tokens and the
  text the pass writes for them, as `FormatCode` computes it.
 */
module CodeExamples {
  import opened Wrappers
  import opened Text
  import opened Docstring
  import opened Format
  import opened Code

  /** The tokens of `def foo():` and its line end. */
  function DefFoo(): seq<Token> {
    [Token(Name, "", "def"), Token(Name, " ", "foo"), Token(Op, "", "("), Token(Op, "", ")"),
     Token(Op, "", ":"), Token(Newline, "", "\n")]
  }

  /** `def foo():` with a body that opens, at `indent`, with the string
      literal `doc` and goes on with `rest`. */
  function Foo(indent: string, doc: string, rest: seq<Token>): seq<Token> {
    DefFoo() + [Token(Indent, "", indent), Token(StringLit, "", doc)] + rest
  }

  /** No string literal of `rest` comes right after an indentation token. */
  predicate Copied(rest: seq<Token>) {
    forall k :: 0 < k < |rest| && rest[k].kind == StringLit ==> rest[k - 1].kind != Indent
  }

  lemma DefFooText()
    ensures Untokenize(DefFoo()) == "def foo():\n"
  {
    var ts := DefFoo();
    assert ts[..0] == [];
    UntokenizeSnoc(ts, 0);
    UntokenizeSnoc(ts, 1);
    UntokenizeSnoc(ts, 2);
    UntokenizeSnoc(ts, 3);
    UntokenizeSnoc(ts, 4);
    UntokenizeSnoc(ts, 5);
    assert ts[..6] == ts;
  }

  /** In such a function the first literal is a docstring at the
      indentation exactly when it opens with bare triple quotes, and no
      other token is. */
  lemma FooRoles(indent: string, doc: string, rest: seq<Token>)
    requires Copied(rest)
    ensures |Foo(indent, doc, rest)| > 7 && Foo(indent, doc, rest)[7] == Token(StringLit, "", doc)
    ensures RoleOf(Foo(indent, doc, rest), 7) == if TripleQuoted(doc) then DocstringAt(indent) else Verbatim
    ensures forall k :: 0 <= k < |Foo(indent, doc, rest)| && k != 7 ==> RoleOf(Foo(indent, doc, rest), k) == Verbatim
  {
    var ts := Foo(indent, doc, rest);
    assert ts[6] == Token(Indent, "", indent) && ts[7] == Token(StringLit, "", doc);
    forall k | 0 <= k < |ts| && k != 7 ensures RoleOf(ts, k) == Verbatim {
      if k >= 8 && ts[k].kind == StringLit {
        assert ts[k] == rest[k - 8];
        assert ts[k - 1].kind != Indent by {
          if k > 8 {
            assert ts[k - 1] == rest[k - 9];
          }
        }
        assert !Preamble(ts[0].kind);
      }
    }
  }

  /** The source text of such a function. */
  lemma FooText(indent: string, doc: string, rest: seq<Token>)
    ensures Untokenize(Foo(indent, doc, rest)) == "def foo():\n" + indent + doc + Untokenize(rest)
    ensures Untokenize(Foo(indent, doc, rest)[..7]) == "def foo():\n" + indent
    ensures Foo(indent, doc, rest)[8..] == rest
  {
    var ts := Foo(indent, doc, rest);
    var head := DefFoo() + [Token(Indent, "", indent)];
    assert ts == head + [Token(StringLit, "", doc)] + rest;
    assert ts[..7] == head;
    DefFooText();
    UntokenizeConcat(DefFoo(), [Token(Indent, "", indent)]);
    UntokenizeConcat(head, [Token(StringLit, "", doc)]);
    UntokenizeConcat(head + [Token(StringLit, "", doc)], rest);
  }

  /** The pass reformats the first literal of such a function exactly
      when it opens with bare triple quotes, and copies every other
      token. */
  lemma FooRewrite(indent: string, doc: string, rest: seq<Token>, config: Config)
    requires Copied(rest)
    ensures Untokenize(Rewrite(Foo(indent, doc, rest), config))
      == "def foo():\n" + indent + (if TripleQuoted(doc) then Reformat(indent, doc, config) else doc)
         + Untokenize(rest)
  {
    var ts := Foo(indent, doc, rest);
    var text := if TripleQuoted(doc) then Reformat(indent, doc, config) else doc;
    FooRoles(indent, doc, rest);
    assert NewText(ts, 7, config) == text;
    FooText(indent, doc, rest);
    SpliceOne(ts, 7, config, "def foo():\n" + indent, text, Untokenize(rest));
  }

  /** `RewriteSplices` with its pieces named. */
  lemma SpliceOne(ts: seq<Token>, i: int, config: Config, front: string, text: string, back: string)
    requires 0 <= i < |ts| && ts[i].lead == "" && NewText(ts, i, config) == text
    requires forall k :: 0 <= k < |ts| && k != i ==> RoleOf(ts, k) == Verbatim
    requires Untokenize(ts[..i]) == front && Untokenize(ts[i + 1..]) == back
    ensures Untokenize(Rewrite(ts, config)) == front + text + back
  {
    RewriteSplices(ts, i, config);
  }

  /** A literal opening with triple quotes is triple-quoted. */
  lemma QuotedFirst(q: string, a: string, s: string, b: string)
    requires IsTripleQuote(q)
    ensures TripleQuoted(q + a + s + b + q)
  {
    assert StartsWith(q, q);
    StartsWithAppend(q, a, q);
    StartsWithAppend(q + a, s, q);
    StartsWithAppend(q + a + s, b, q);
    StartsWithAppend(q + a + s + b, q, q);
  }

  /** The end of a file after a statement. */
  function End(): seq<Token> {
    [Token(Newline, "", "\n"), Token(Dedent, "", ""), Token(EndMarker, "", "")]
  }

  lemma EndText()
    ensures Untokenize(End()) == "\n" && Copied(End())
  {
    var ts := End();
    assert ts[..0] == [];
    UntokenizeSnoc(ts, 0);
    UntokenizeSnoc(ts, 1);
    UntokenizeSnoc(ts, 2);
    assert ts[..3] == ts;
  }

  lemma LineBreakBlank()
    ensures AllSpace("\n    ") && AllSpace("\n\t")
  {
  }

  lemma HelloFooSentence()
    ensures OneSentence("Hello foo.")
  {
  }

  lemma HelloFooNormal()
    ensures NormalizeSummary("Hello foo.") == "Hello foo."
  {
    assert "Hello" + " " + "foo." == "Hello foo.";
    NormalizeTwoWords("Hello", "foo.");
  }

  /** Two words, the second ending the sentence, are already normal. */
  lemma NormalizeTwoWords(a: string, b: string)
    requires |a| > 0 && NoSpace(a) && |b| > 0 && NoSpace(b) && IsTerminator(b[|b| - 1])
    ensures NormalizeSummary(a + " " + b) == a + " " + b
  {
    JoinTwo(a, b, " ");
    NormalizeFixed([a, b]);
  }

  // ---------------------------------------------------------------------
  // Docstrings that are reformatted

  /** `test_format_code`: the file and the file `format_code` writes. */
  lemma FormatCodeSource()
    ensures Untokenize(Foo("    ", TripleDouble + "\n    " + "Hello foo." + "\n    " + TripleDouble, End()))
      == "def foo():\n" + "    " + (TripleDouble + "\n    " + "Hello foo." + "\n    " + TripleDouble) + "\n"
  {
    EndText();
    FooText("    ", TripleDouble + "\n    " + "Hello foo." + "\n    " + TripleDouble, End());
  }

  lemma FormatCodeExample()
    ensures Untokenize(Rewrite(Foo("    ", TripleDouble + "\n    " + "Hello foo." + "\n    " + TripleDouble, End()),
                               Defaults))
      == "def foo():\n" + "    " + (TripleDouble + "Hello foo." + TripleDouble) + "\n"
  {
    HelloFooSentence();
    HelloFooNormal();
    EndText();
    LineBreakBlank();
    SentenceAt("    ", "\n    ", "Hello foo.", End());
  }

  /** A one-sentence docstring at any indentation: `open` is the line
      break and indentation around the summary `s`. */
  lemma SentenceAt(indent: string, open: string, s: string, rest: seq<Token>)
    requires Copied(rest) && AllSpace(open)
    requires OneSentence(s) && NormalizeSummary(s) == s
    ensures Untokenize(Rewrite(Foo(indent, TripleDouble + open + s + open + TripleDouble, rest), Defaults))
      == "def foo():\n" + indent + (TripleDouble + s + TripleDouble) + Untokenize(rest)
  {
    QuotedFirst(TripleDouble, open, s, open);
    SentenceDocstring(indent, TripleDouble, open, s, open, Defaults);
    FooRewrite(indent, TripleDouble + open + s + open + TripleDouble, rest, Defaults);
  }

  // ---------------------------------------------------------------------
  // Statements after the docstring, copied as they are

  /** `if True:` and its line end, after `lead`. */
  function IfTrue(lead: string): seq<Token> {
    [Token(Name, lead, "if"), Token(Name, " ", "True"), Token(Op, "", ":"), Token(Newline, "", "\n")]
  }

  /** The block `x = 1` at `indent`, closed. */
  function XIsOne(indent: string): seq<Token> {
    [Token(Indent, "", indent), Token(Name, "", "x"), Token(Op, " ", "="), Token(Number, " ", "1"),
     Token(Newline, "", "\n"), Token(Dedent, "", "")]
  }

  lemma IfTrueText(lead: string)
    ensures Untokenize(IfTrue(lead)) == lead + "if True:\n"
  {
    var ts := IfTrue(lead);
    assert ts[..0] == [];
    UntokenizeSnoc(ts, 0);
    UntokenizeSnoc(ts, 1);
    UntokenizeSnoc(ts, 2);
    UntokenizeSnoc(ts, 3);
    assert ts[..4] == ts;
  }

  lemma XIsOneText(indent: string)
    ensures Untokenize(XIsOne(indent)) == indent + "x = 1\n"
  {
    var ts := XIsOne(indent);
    assert ts[..0] == [];
    UntokenizeSnoc(ts, 0);
    UntokenizeSnoc(ts, 1);
    UntokenizeSnoc(ts, 2);
    UntokenizeSnoc(ts, 3);
    UntokenizeSnoc(ts, 4);
    UntokenizeSnoc(ts, 5);
    assert ts[..6] == ts;
  }

  /** Tokens without string literals are copied. */
  predicate NoStrings(ts: seq<Token>) {
    forall k :: 0 <= k < |ts| ==> ts[k].kind != StringLit
  }

  /** The rest of `test_format_code_with_tabs` and of
      `test_format_code_with_mixed_tabs`: the line end after the
      docstring, `if True:` after a tab, and `x = 1` at `indent`. */
  function IfBlock(indent: string): seq<Token> {
    [Token(Newline, "", "\n")] + IfTrue("\t") + XIsOne(indent) + End()[1..]
  }

  lemma IfBlockText(indent: string)
    ensures Untokenize(IfBlock(indent)) == "\n" + "\tif True:\n" + indent + "x = 1\n"
    ensures Copied(IfBlock(indent))
  {
    var nl := [Token(Newline, "", "\n")];
    var tail := End()[1..];
    NewlineText();
    EndTailText();
    IfTrueText("\t");
    XIsOneText(indent);
    UntokenizeConcat(nl, IfTrue("\t"));
    UntokenizeConcat(nl + IfTrue("\t"), XIsOne(indent));
    UntokenizeConcat(nl + IfTrue("\t") + XIsOne(indent), tail);
    assert NoStrings(IfBlock(indent));
  }

  lemma NewlineText()
    ensures Untokenize([Token(Newline, "", "\n")]) == "\n"
  {
    var nl := [Token(Newline, "", "\n")];
    assert nl[..0] == [];
    UntokenizeSnoc(nl, 0);
  }

  lemma EndTailText()
    ensures Untokenize(End()[1..]) == ""
  {
    var tail := End()[1..];
    assert tail[..1][..0] == [];
    UntokenizeSnoc(tail, 0);
    UntokenizeSnoc(tail, 1);
    assert tail[..2] == tail;
  }

  /** `test_format_code_with_tabs`. */
  lemma TabsExample()
    ensures Untokenize(Foo("\t", TripleDouble + "\n\t" + "Hello foo." + "\n\t" + TripleDouble, IfBlock("\t\t")))
      == "def foo():\n" + "\t" + (TripleDouble + "\n\t" + "Hello foo." + "\n\t" + TripleDouble)
         + ("\n" + "\tif True:\n" + "\t\t" + "x = 1\n")
    ensures Untokenize(Rewrite(Foo("\t", TripleDouble + "\n\t" + "Hello foo." + "\n\t" + TripleDouble, IfBlock("\t\t")),
                               Defaults))
      == "def foo():\n" + "\t" + (TripleDouble + "Hello foo." + TripleDouble)
         + ("\n" + "\tif True:\n" + "\t\t" + "x = 1\n")
  {
    HelloFooSentence();
    HelloFooNormal();
    LineBreakBlank();
    IfBlockText("\t\t");
    FooText("\t", TripleDouble + "\n\t" + "Hello foo." + "\n\t" + TripleDouble, IfBlock("\t\t"));
    SentenceAt("\t", "\n\t", "Hello foo.", IfBlock("\t\t"));
  }

  /** `test_format_code_with_mixed_tabs`. */
  lemma MixedTabsExample()
    ensures Untokenize(Foo("\t", TripleDouble + "\n\t" + "Hello foo." + "\n\t" + TripleDouble, IfBlock("\t    ")))
      == "def foo():\n" + "\t" + (TripleDouble + "\n\t" + "Hello foo." + "\n\t" + TripleDouble)
         + ("\n" + "\tif True:\n" + "\t    " + "x = 1\n")
    ensures Untokenize(Rewrite(Foo("\t", TripleDouble + "\n\t" + "Hello foo." + "\n\t" + TripleDouble,
                                   IfBlock("\t    ")), Defaults))
      == "def foo():\n" + "\t" + (TripleDouble + "Hello foo." + TripleDouble)
         + ("\n" + "\tif True:\n" + "\t    " + "x = 1\n")
  {
    HelloFooSentence();
    HelloFooNormal();
    LineBreakBlank();
    IfBlockText("\t    ");
    FooText("\t", TripleDouble + "\n\t" + "Hello foo." + "\n\t" + TripleDouble, IfBlock("\t    "));
    SentenceAt("\t", "\n\t", "Hello foo.", IfBlock("\t    "));
  }

  /** `x = \` and, after a backslash continuation, `1`. */
  function Continued(): seq<Token> {
    [Token(Name, "    ", "x"), Token(Op, " ", "="), Token(Number, " \\\n            ", "1")]
  }

  lemma ContinuedText()
    ensures Untokenize(Continued()) == "    x = \\\n            1"
  {
    var ts := Continued();
    assert ts[..0] == [];
    UntokenizeSnoc(ts, 0);
    UntokenizeSnoc(ts, 1);
    UntokenizeSnoc(ts, 2);
    assert ts[..3] == ts;
  }

  /** The rest of `test_format_code_with_escaped_newlines`. */
  function EscapedRest(): seq<Token> {
    [Token(Newline, "", "\n")] + Continued() + End()
  }

  lemma EscapedRestText()
    ensures Untokenize(EscapedRest()) == "\n" + "    x = \\\n            1" + "\n"
    ensures Copied(EscapedRest())
  {
    var nl := [Token(Newline, "", "\n")];
    assert Untokenize(nl) == "\n" by {
      assert nl[..0] == [];
      UntokenizeSnoc(nl, 0);
    }
    ContinuedText();
    EndText();
    UntokenizeConcat(nl, Continued());
    UntokenizeConcat(nl + Continued(), End());
    assert NoStrings(EscapedRest());
  }

  /** `test_format_code_with_escaped_newlines`. */
  lemma EscapedNewlinesExample()
    ensures Untokenize(Foo("    ", TripleDouble + "\n    " + "Hello foo." + "\n    " + TripleDouble, EscapedRest()))
      == "def foo():\n" + "    " + (TripleDouble + "\n    " + "Hello foo." + "\n    " + TripleDouble)
         + ("\n" + "    x = \\\n            1" + "\n")
    ensures Untokenize(Rewrite(Foo("    ", TripleDouble + "\n    " + "Hello foo." + "\n    " + TripleDouble,
                                   EscapedRest()), Defaults))
      == "def foo():\n" + "    " + (TripleDouble + "Hello foo." + TripleDouble)
         + ("\n" + "    x = \\\n            1" + "\n")
  {
    HelloFooSentence();
    HelloFooNormal();
    LineBreakBlank();
    EscapedRestText();
    FooText("    ", TripleDouble + "\n    " + "Hello foo." + "\n    " + TripleDouble, EscapedRest());
    SentenceAt("    ", "\n    ", "Hello foo.", EscapedRest());
  }

  /** A comment on its own line, after `lead`. */
  function CommentLine(lead: string, comment: string): seq<Token> {
    [Token(Comment, lead, comment), Token(NL, "", "\n")]
  }

  lemma CommentLineText(lead: string, comment: string)
    ensures Untokenize(CommentLine(lead, comment)) == lead + comment + "\n"
  {
    var ts := CommentLine(lead, comment);
    assert ts[..0] == [];
    UntokenizeSnoc(ts, 0);
    UntokenizeSnoc(ts, 1);
    assert ts[..2] == ts;
  }

  /** The rest of `test_format_code_with_comments`: two comments, the
      second ending in a backslash, then `123`. */
  function CommentsRest(): seq<Token> {
    [Token(Newline, "", "\n")] + CommentLine("    ", "# My comment")
    + CommentLine("    ", "# My comment with escape \\") + [Token(Number, "    ", "123")] + End()
  }

  lemma CommentsRestText()
    ensures Untokenize(CommentsRest())
      == "\n" + ("    " + "# My comment" + "\n") + ("    " + "# My comment with escape \\" + "\n") + "    123" + "\n"
    ensures Copied(CommentsRest())
  {
    var nl := [Token(Newline, "", "\n")];
    var c1 := CommentLine("    ", "# My comment");
    var c2 := CommentLine("    ", "# My comment with escape \\");
    var n := [Token(Number, "    ", "123")];
    assert Untokenize(nl) == "\n" by {
      assert nl[..0] == [];
      UntokenizeSnoc(nl, 0);
    }
    assert Untokenize(n) == "    123" by {
      assert n[..0] == [];
      UntokenizeSnoc(n, 0);
    }
    CommentLineText("    ", "# My comment");
    CommentLineText("    ", "# My comment with escape \\");
    EndText();
    UntokenizeConcat(nl, c1);
    UntokenizeConcat(nl + c1, c2);
    UntokenizeConcat(nl + c1 + c2, n);
    UntokenizeConcat(nl + c1 + c2 + n, End());
    assert NoStrings(CommentsRest());
  }

  /** `test_format_code_with_comments`. */
  lemma CommentsExample()
    ensures Untokenize(Rewrite(Foo("    ", TripleDouble + "\n    " + "Hello foo." + "\n    " + TripleDouble,
                                   CommentsRest()), Defaults))
      == "def foo():\n" + "    " + (TripleDouble + "Hello foo." + TripleDouble) + Untokenize(CommentsRest())
  {
    HelloFooSentence();
    HelloFooNormal();
    LineBreakBlank();
    CommentsRestText();
    SentenceAt("    ", "\n    ", "Hello foo.", CommentsRest());
  }

  // ---------------------------------------------------------------------
  // Literals that are left alone

  /** `test_format_code_skip_complex`: a raw docstring is copied. */
  lemma SkipRawExample()
    ensures Untokenize(Rewrite(Foo("    ", "r" + TripleDouble + "\n    " + "Hello foo." + "\n    " + TripleDouble, End()),
                               Defaults))
      == Untokenize(Foo("    ", "r" + TripleDouble + "\n    " + "Hello foo." + "\n    " + TripleDouble, End()))
  {
    var doc := "r" + TripleDouble + "\n    " + "Hello foo." + "\n    " + TripleDouble;
    EndText();
    assert !TripleQuoted(doc) by {
      assert |doc| >= 3 && doc[..3][0] == 'r';
    }
    FooRewrite("    ", doc, End(), Defaults);
    FooText("    ", doc, End());
  }

  /** `test_format_code_skip_complex_single`. */
  lemma SkipRawSingleExample()
    ensures Untokenize(Rewrite(Foo("    ", "r" + TripleSingle + "\n    " + "Hello foo." + "\n    " + TripleSingle, End()),
                               Defaults))
      == Untokenize(Foo("    ", "r" + TripleSingle + "\n    " + "Hello foo." + "\n    " + TripleSingle, End()))
  {
    var doc := "r" + TripleSingle + "\n    " + "Hello foo." + "\n    " + TripleSingle;
    EndText();
    assert !TripleQuoted(doc) by {
      assert |doc| >= 3 && doc[..3][0] == 'r';
    }
    FooRewrite("    ", doc, End(), Defaults);
    FooText("    ", doc, End());
  }

  /** `test_format_code_with_no_docstring`: a plain string is copied. */
  lemma NoDocstringExample()
    ensures Untokenize(Rewrite(Foo("    ", "\"Just a regular string\"", End()), Defaults))
      == Untokenize(Foo("    ", "\"Just a regular string\"", End()))
  {
    EndText();
    assert !TripleQuoted("\"Just a regular string\"") by {
      assert "\"Just a regular string\""[..3][1] == 'J';
    }
    FooRewrite("    ", "\"Just a regular string\"", End(), Defaults);
    FooText("    ", "\"Just a regular string\"", End());
  }

  /** `test_format_code_skip_nested`: a docstring holding triple double
      quotes cannot be re-quoted and is copied. */
  lemma SkipNestedExample()
    ensures Untokenize(Rewrite(Foo("    ", TripleSingle + ("Hello foo. " + TripleDouble + "abc" + TripleDouble) + "\n    "
                                             + TripleSingle, End()), Defaults))
      == Untokenize(Foo("    ", TripleSingle + ("Hello foo. " + TripleDouble + "abc" + TripleDouble) + "\n    "
                                + TripleSingle, End()))
  {
    var c := "Hello foo. " + TripleDouble + "abc" + TripleDouble;
    var doc := TripleSingle + c + "\n    " + TripleSingle;
    EndText();
    LineBreakBlank();
    assert Trimmed(c);
    StripPadded(TripleSingle, "", c, "\n    ");
    assert TripleSingle + "" == TripleSingle;
    ContainsInside("Hello foo. " + TripleDouble + "abc", TripleDouble, "");
    assert c + "" == c;
    assert Reformat("    ", doc, Defaults) == doc;
    FooRewrite("    ", doc, End(), Defaults);
    FooText("    ", doc, End());
  }

  // ---------------------------------------------------------------------
  // Docstrings with a description

  /** A docstring of one sentence and a one-line description in such a
      function, at the default options. */
  lemma DescribedAt(indent: string, a: string, s: string, g: string, l: string, b: string, rest: seq<Token>)
    requires Copied(rest) && AllSpace(a) && AllSpace(b) && |g| > 0 && AllSpace(g)
    requires OneSentence(s) && NormalizeSummary(s) == s
    requires PlainLines([l]) && Join([l], "\n") == l && Join(Reindent([l], indent), "\n") == indent + l
    ensures Untokenize(Rewrite(Foo(indent, TripleDouble + a + s + g + l + b + TripleDouble, rest), Defaults))
      == "def foo():\n" + indent + (TripleDouble + s + "\n\n" + (indent + l) + "\n" + ("\n" + indent + TripleDouble))
         + Untokenize(rest)
  {
    var doc := TripleDouble + a + s + g + l + b + TripleDouble;
    DescribedDocstring(indent, TripleDouble, a, s, g, [l], b, Defaults);
    assert TripleQuoted(doc) by {
      QuotedFirst(TripleDouble, a + s + g, l, b);
      AppendAssoc(TripleDouble, a + s, g);
      AppendAssoc(TripleDouble, a, s);
    }
    FooRewrite(indent, doc, rest, Defaults);
  }

  lemma DocstringLine()
    ensures Join(["This is a docstring."], "\n") == "This is a docstring."
    ensures PlainLines(["This is a docstring."])
    ensures Join(Reindent(["This is a docstring."], "    "), "\n") == "    " + "This is a docstring."
  {
    IndentStripped("    ", "This is a docstring.", "");
    assert "This is a docstring." + "" == "This is a docstring.";
  }

  /** `test_format_code_with_multiple_sentences`: the second line becomes
      the description. */
  lemma MultipleSentencesExample()
    ensures Untokenize(Rewrite(Foo("    ",
        TripleDouble + "\n    " + "Hello foo." + "\n    " + "This is a docstring." + "\n    " + TripleDouble, End()),
        Defaults))
      == "def foo():\n" + "    "
         + (TripleDouble + "Hello foo." + "\n\n" + ("    " + "This is a docstring.") + "\n" + ("\n" + "    " + TripleDouble))
         + "\n"
  {
    HelloFooSentence();
    HelloFooNormal();
    LineBreakBlank();
    DocstringLine();
    EndText();
    DescribedAt("    ", "\n    ", "Hello foo.", "\n    ", "This is a docstring.", "\n    ", End());
  }

  /** `test_format_code_with_multiple_sentences_same_line`: the second
      sentence becomes the description. */
  lemma SameLineExample()
    ensures Untokenize(Rewrite(Foo("    ",
        TripleDouble + "\n    " + "Hello foo." + " " + "This is a docstring." + "\n    " + TripleDouble, End()),
        Defaults))
      == "def foo():\n" + "    "
         + (TripleDouble + "Hello foo." + "\n\n" + ("    " + "This is a docstring.") + "\n" + ("\n" + "    " + TripleDouble))
         + "\n"
  {
    HelloFooSentence();
    HelloFooNormal();
    LineBreakBlank();
    DocstringLine();
    EndText();
    DescribedAt("    ", "\n    ", "Hello foo.", " ", "This is a docstring.", "\n    ", End());
  }

  // ---------------------------------------------------------------------
  // Summaries that run over two lines

  /** A docstring whose summary runs over the two lines `l1` and `s2`,
      the second at the indentation, followed by the description lines
      `ls`, at the default options. */
  lemma WrappedSummaryReformat(indent: string, a: string, l1: string, s2: string, g: string,
                               ls: seq<string>, b: string)
    requires AllSpace(a) && AllSpace(b) && |g| > 0 && AllSpace(g)
    requires |l1| > 0 && Plain(l1) && Trimmed(l1) && '"' !in l1
    requires AllSpace(indent) && '\n' !in indent
    requires OneSentence(s2) && !IsListMarker(s2[0])
    requires PlainLines(ls)
    ensures TripleQuoted(TripleDouble + a + (l1 + "\n" + indent + s2) + g + Join(ls, "\n") + b + TripleDouble)
    ensures Reformat(indent, TripleDouble + a + (l1 + "\n" + indent + s2) + g + Join(ls, "\n") + b + TripleDouble,
                     Defaults)
      == TripleDouble + NormalizeSummary(l1 + " " + s2) + "\n\n" + Join(Reindent(ls, indent), "\n") + "\n"
         + ("\n" + indent + TripleDouble)
  {
    var x := l1 + "\n" + indent + s2;
    var j := Join(ls, "\n");
    WrappedSummaryDocstring(indent, TripleDouble, a, l1, indent, s2, g, ls, b, Defaults);
    assert StartsWith(TripleDouble, TripleDouble);
    StartsWithAppend(TripleDouble, a, TripleDouble);
    StartsWithAppend(TripleDouble + a, x, TripleDouble);
    StartsWithAppend(TripleDouble + a + x, g, TripleDouble);
    StartsWithAppend(TripleDouble + a + x + g, j, TripleDouble);
    StartsWithAppend(TripleDouble + a + x + g + j, b, TripleDouble);
    StartsWithAppend(TripleDouble + a + x + g + j + b, TripleDouble, TripleDouble);
  }

  /** The summary lines `Hello` and `foo.` of the multi-line summary
      tests. */
  lemma HelloFooLines()
    ensures |"Hello"| > 0 && Plain("Hello") && Trimmed("Hello") && '"' !in "Hello"
    ensures OneSentence("foo.") && !IsListMarker("foo."[0])
    ensures AllSpace("    ") && '\n' !in "    " && AllSpace(" ")
  {
  }

  lemma HelloFooJoined()
    ensures NormalizeSummary("Hello" + " " + "foo.") == "Hello foo."
  {
    NormalizeTwoWords("Hello", "foo.");
    assert "Hello" + " " + "foo." == "Hello foo.";
  }

  /** `test_format_code_with_multiple_sentences_multiline_summary`: the
      summary is joined onto one line and the rest of its second line
      becomes the description. */
  lemma MultilineSummaryExample()
    ensures Untokenize(Rewrite(Foo("    ",
        TripleDouble + "\n    " + ("Hello" + "\n" + "    " + "foo.") + " " + "This is a docstring." + "\n    "
        + TripleDouble, End()), Defaults))
      == "def foo():\n" + "    "
         + (TripleDouble + "Hello foo." + "\n\n" + ("    " + "This is a docstring.") + "\n" + ("\n" + "    " + TripleDouble))
         + "\n"
  {
    HelloFooLines();
    HelloFooJoined();
    LineBreakBlank();
    DocstringLine();
    EndText();
    WrappedSummaryReformat("    ", "\n    ", "Hello", "foo.", " ", ["This is a docstring."], "\n    ");
    FooRewrite("    ",
      TripleDouble + "\n    " + ("Hello" + "\n" + "    " + "foo.") + " " + "This is a docstring." + "\n    "
      + TripleDouble, End(), Defaults);
  }

  /** The description lines of `test_format_code_with_empty_lines`; `l`
      is the first one as written, with or without a trailing tab. */
  function MoreStuff(l: string): seq<string> {
    [l, "", "    More stuff."]
  }

  lemma MoreStuffJoin(l: string)
    ensures Join(MoreStuff(l), "\n") == l + "\n\n" + "    More stuff."
  {
    JoinThree(l, "", "    More stuff.", "\n");
  }

  lemma MoreStuffPlain(l: string)
    requires l == "This is a docstring." || l == "This is a docstring.\t"
    ensures PlainLines(MoreStuff(l))
  {
    MoreStuffJoin(l);
    var j := l + "\n\n" + "    More stuff.";
    assert j[0] == 'T' && j[|j| - 1] == '.';
    assert forall k :: 0 <= k < |l| ==> l[k] != '"';
    assert forall k :: 0 <= k < |j| ==> j[k] != '"' by {
      forall k | 0 <= k < |j| ensures j[k] != '"' {
        if k < |l| {
          assert j[k] == l[k];
        } else if k >= |l| + 2 {
          assert j[k] == "    More stuff."[k - |l| - 2];
        }
      }
    }
  }

  lemma MoreStuffReindent(l: string)
    requires l == "This is a docstring." || l == "This is a docstring.\t"
    ensures Join(Reindent(MoreStuff(l), "    "), "\n") == "    " + "This is a docstring." + "\n\n" + "    More stuff."
  {
    FirstLineStripped(l);
    IndentKept("    ", "    More stuff.");
    ReindentBlankBetween("    ", l, "    More stuff.");
    JoinThree("    " + "This is a docstring.", "", "    More stuff.", "\n");
  }

  lemma FirstLineStripped(l: string)
    requires l == "This is a docstring." || l == "This is a docstring.\t"
    ensures TrimRight(IndentLine(l, "    ")) == "    " + "This is a docstring."
  {
    if l == "This is a docstring." {
      IndentStripped("    ", l, "");
      assert l + "" == l;
    } else {
      IndentStripped("    ", "This is a docstring.", "\t");
    }
  }

  /** Three description lines, the middle one empty, re-indented. */
  lemma ReindentBlankBetween(indent: string, l0: string, l2: string)
    requires AllSpace(indent)
    ensures Reindent([l0, "", l2], indent)
      == [TrimRight(IndentLine(l0, indent)), "", TrimRight(IndentLine(l2, indent))]
  {
    TrimRightPadded("", indent);
    assert "" + indent == IndentLine("", indent);
    var r := Reindent([l0, "", l2], indent);
    assert r[1] == "";
  }

  /** The docstring of `test_format_code_with_empty_lines` (`l` without a
      tab, `b` a line break) and of
      `test_format_code_with_trailing_whitespace` (`l` and `b` opening
      with a tab), and what the pass makes of it. */
  lemma EmptyLinesReformat(l: string, b: string)
    requires l == "This is a docstring." || l == "This is a docstring.\t"
    requires AllSpace(b)
    ensures TripleQuoted(TripleDouble + "\n    " + ("Hello" + "\n" + "    " + "foo.") + " "
                         + (l + "\n\n" + "    More stuff.") + b + TripleDouble)
    ensures Reformat("    ", TripleDouble + "\n    " + ("Hello" + "\n" + "    " + "foo.") + " "
                               + (l + "\n\n" + "    More stuff.") + b + TripleDouble, Defaults)
      == TripleDouble + "Hello foo." + "\n\n" + ("    " + "This is a docstring." + "\n\n" + "    More stuff.")
         + "\n" + ("\n" + "    " + TripleDouble)
  {
    HelloFooLines();
    HelloFooJoined();
    LineBreakBlank();
    MoreStuffJoin(l);
    MoreStuffPlain(l);
    MoreStuffReindent(l);
    WrappedSummaryReformat("    ", "\n    ", "Hello", "foo.", " ", MoreStuff(l), b);
  }

  /** `test_format_code_with_empty_lines`: a blank line inside the
      description is kept. */
  lemma EmptyLinesExample()
    ensures Untokenize(Rewrite(Foo("    ",
        TripleDouble + "\n    " + ("Hello" + "\n" + "    " + "foo.") + " "
        + ("This is a docstring." + "\n\n" + "    More stuff.") + "\n    " + TripleDouble, End()), Defaults))
      == "def foo():\n" + "    "
         + (TripleDouble + "Hello foo." + "\n\n" + ("    " + "This is a docstring." + "\n\n" + "    More stuff.")
            + "\n" + ("\n" + "    " + TripleDouble))
         + "\n"
  {
    LineBreakBlank();
    EndText();
    EmptyLinesReformat("This is a docstring.", "\n    ");
    FooRewrite("    ",
      TripleDouble + "\n    " + ("Hello" + "\n" + "    " + "foo.") + " "
      + ("This is a docstring." + "\n\n" + "    More stuff.") + "\n    " + TripleDouble, End(), Defaults);
  }

  /** `test_format_code_with_trailing_whitespace`: the tabs that end
      description lines go. */
  lemma TrailingTabsExample()
    ensures Untokenize(Rewrite(Foo("    ",
        TripleDouble + "\n    " + ("Hello" + "\n" + "    " + "foo.") + " "
        + ("This is a docstring.\t" + "\n\n" + "    More stuff.") + "\t\n    " + TripleDouble, End()), Defaults))
      == "def foo():\n" + "    "
         + (TripleDouble + "Hello foo." + "\n\n" + ("    " + "This is a docstring." + "\n\n" + "    More stuff.")
            + "\n" + ("\n" + "    " + TripleDouble))
         + "\n"
  {
    EndText();
    assert AllSpace("\t\n    ");
    EmptyLinesReformat("This is a docstring.\t", "\t\n    ");
    FooRewrite("    ",
      TripleDouble + "\n    " + ("Hello" + "\n" + "    " + "foo.") + " "
      + ("This is a docstring.\t" + "\n\n" + "    More stuff.") + "\t\n    " + TripleDouble, End(), Defaults);
  }

  // ---------------------------------------------------------------------
  // Strings that are not docstrings

  /** `x = ` and a string literal, after `lead`. */
  function Assignment(lead: string, literal: string): seq<Token> {
    [Token(Name, lead, "x"), Token(Op, " ", "="), Token(StringLit, " ", literal)]
  }

  lemma AssignmentText(lead: string, literal: string)
    ensures Untokenize(Assignment(lead, literal)) == lead + "x = " + literal
  {
    var ts := Assignment(lead, literal);
    assert ts[..0] == [];
    UntokenizeSnoc(ts, 0);
    UntokenizeSnoc(ts, 1);
    UntokenizeSnoc(ts, 2);
    assert ts[..3] == ts;
  }

  /** `test_format_code_with_assignment_on_first_line`: a triple-quoted
      literal literal on the first line of the body is no docstring. */
  lemma AssignmentExample(literal: string, config: Config)
    ensures var ts := DefFoo() + [Token(Indent, "", "    ")] + Assignment("", literal) + End();
      Untokenize(Rewrite(ts, config)) == Untokenize(ts) == "def foo():\n" + "    " + ("x = " + literal) + "\n"
  {
    var ts := DefFoo() + [Token(Indent, "", "    ")] + Assignment("", literal) + End();
    AssignmentSource(literal);
    forall k | 0 <= k < |ts| ensures RoleOf(ts, k) == Verbatim {
      if ts[k].kind == StringLit {
        assert k == 9 && ts[8].kind == Op;
        assert !Preamble(ts[0].kind);
      }
    }
    NoDocstringUnchanged(ts, config);
  }

  lemma AssignmentSource(literal: string)
    ensures Untokenize(DefFoo() + [Token(Indent, "", "    ")] + Assignment("", literal) + End())
      == "def foo():\n" + "    " + ("x = " + literal) + "\n"
  {
    var head := DefFoo() + [Token(Indent, "", "    ")];
    var ind := [Token(Indent, "", "    ")];
    assert Untokenize(ind) == "    " by {
      assert ind[..0] == [];
      UntokenizeSnoc(ind, 0);
      assert ind[..1] == ind;
    }
    DefFooText();
    UntokenizeConcat(DefFoo(), ind);
    AssignmentText("", literal);
    assert "" + "x = " + literal == "x = " + literal;
    UntokenizeConcat(head, Assignment("", literal));
    EndText();
    UntokenizeConcat(head + Assignment("", literal), End());
  }

  /** The rest of `test_format_code_with_regular_strings_too`: an
      assignment of a triple-quoted literal and, after a blank line, a
      triple-quoted literal standing alone. */
  function RegularRest(): seq<Token> {
    LaterStrings(TripleDouble + "My non-docstring\n    This should not touched." + TripleDouble,
                 TripleDouble + "More stuff\n    that should not be\n    touched\t" + TripleDouble)
  }

  /** Tokens after the docstring: `x = ` and `literal`, a blank line,
      then `alone` on a line of its own. */
  function LaterStrings(literal: string, alone: string): seq<Token> {
    [Token(Newline, "", "\n")]
    + Assignment("    ", literal)
    + [Token(Newline, "", "\n"), Token(NL, "", "\n"), Token(StringLit, "    ", alone)]
    + End()
  }

  lemma LaterStringsText(literal: string, alone: string)
    ensures Untokenize(LaterStrings(literal, alone))
      == "\n" + ("    " + "x = " + literal) + ("\n" + "\n" + "    " + alone) + "\n"
    ensures Copied(LaterStrings(literal, alone))
  {
    var nl := [Token(Newline, "", "\n")];
    var mid := [Token(Newline, "", "\n"), Token(NL, "", "\n"), Token(StringLit, "    ", alone)];
    assert Untokenize(nl) == "\n" by {
      assert nl[..0] == [];
      UntokenizeSnoc(nl, 0);
      assert nl[..1] == nl;
    }
    assert Untokenize(mid) == "\n" + "\n" + "    " + alone by {
      assert mid[..0] == [];
      UntokenizeSnoc(mid, 0);
      UntokenizeSnoc(mid, 1);
      UntokenizeSnoc(mid, 2);
      assert mid[..3] == mid;
    }
    AssignmentText("    ", literal);
    EndText();
    UntokenizeConcat(nl, Assignment("    ", literal));
    UntokenizeConcat(nl + Assignment("    ", literal), mid);
    UntokenizeConcat(nl + Assignment("    ", literal) + mid, End());
    var ts := LaterStrings(literal, alone);
    forall k | 0 < k < |ts| && ts[k].kind == StringLit ensures ts[k - 1].kind != Indent {
      assert k == 3 || k == 6;
    }
  }

  /** `test_format_code_with_regular_strings_too`: whatever the docstring
      becomes, the later triple-quoted literals are copied. */
  lemma RegularStringsExample(doc: string, config: Config)
    requires TripleQuoted(doc)
    ensures Untokenize(Rewrite(Foo("    ", doc, RegularRest()), config))
      == "def foo():\n" + "    " + Reformat("    ", doc, config)
         + ("\n" + ("    " + "x = " + (TripleDouble + "My non-docstring\n    This should not touched." + TripleDouble))
            + ("\n" + "\n" + "    " + (TripleDouble + "More stuff\n    that should not be\n    touched\t" + TripleDouble))
            + "\n")
  {
    LaterStringsText(TripleDouble + "My non-docstring\n    This should not touched." + TripleDouble,
                     TripleDouble + "More stuff\n    that should not be\n    touched\t" + TripleDouble);
    FooRewrite("    ", doc, RegularRest(), config);
  }

  /** `test_format_code_with_regular_strings_too` in full: the docstring
      is laid out as in `test_format_code_with_empty_lines`, and the later
      literals are copied. */
  lemma RegularStringsFullExample()
    ensures Untokenize(Rewrite(Foo("    ",
        TripleDouble + "\n    " + ("Hello" + "\n" + "    " + "foo.") + " "
        + ("This is a docstring." + "\n\n" + "    More stuff.") + "\n    " + TripleDouble, RegularRest()), Defaults))
      == "def foo():\n" + "    "
         + (TripleDouble + "Hello foo." + "\n\n" + ("    " + "This is a docstring." + "\n\n" + "    More stuff.")
            + "\n" + ("\n" + "    " + TripleDouble))
         + ("\n" + ("    " + "x = " + (TripleDouble + "My non-docstring\n    This should not touched." + TripleDouble))
            + ("\n" + "\n" + "    " + (TripleDouble + "More stuff\n    that should not be\n    touched\t" + TripleDouble))
            + "\n")
  {
    LineBreakBlank();
    EmptyLinesReformat("This is a docstring.", "\n    ");
    RegularStringsExample(
      TripleDouble + "\n    " + ("Hello" + "\n" + "    " + "foo.") + " "
      + ("This is a docstring." + "\n\n" + "    More stuff.") + "\n    " + TripleDouble, Defaults);
  }
}
