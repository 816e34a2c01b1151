/**
  Formatting a docstring that is already formatted. A wrapped summary
  line that opens with a list marker is read as the start of a
  description on the next pass, so formatting with summary wrapping is
  not idempotent; without wrapping, a lone summary is a fixed point.
 */
module Stability {
  import opened Wrappers
  import opened Text
  import opened Docstring
  import opened Wrap
  import opened Format

  /** A narrow summary wrap length, other options at their defaults. */
  const Narrow: Config := Config(8, false, true)

  // ---------------------------------------------------------------------
  // A wrapped summary that is not stable

  /** Text with no line break and no terminator holds no boundary. */
  lemma PlainNoCut(s: string)
    requires Plain(s)
    ensures NoCut(s)
  {
    forall q | 0 < q < |s| ensures !IsCut(s, q) {
      assert s[q - 1] != '\n' && !IsTerminator(s[q - 1]);
    }
  }

  /** Text without a double quote holds no triple double quotes. */
  lemma NoQuoteNoTriple(s: string)
    requires '"' !in s
    ensures !Contains(s, TripleDouble)
  {
    if Contains(s, TripleDouble) {
      ContainsFirst(s, TripleDouble);
    }
  }

  /** A body between triple double quotes that is already trimmed
      strips back to itself. */
  lemma StripTrimmed(body: string)
    requires Trimmed(body)
    ensures StripDocstring(TripleDouble + body + TripleDouble) == Some(body)
  {
    StripQuotedBody(TripleDouble, body);
    TrimTrimmed(body);
  }

  lemma ListSummaryStrips()
    ensures StripDocstring(TripleDouble + "aaaa - b" + TripleDouble) == Some("aaaa - b")
  {
    StripTrimmed("aaaa - b");
  }

  lemma ListSummaryPlain()
    ensures !Contains("aaaa - b", TripleDouble)
  {
    NoQuoteNoTriple("aaaa - b");
  }

  lemma ListSummaryNoCut()
    ensures NoCut("aaaa - b")
  {
    PlainNoCut("aaaa - b");
  }

  lemma ListSummaryNormal()
    ensures NormalizeSummary("aaaa - b") == "aaaa - b."
  {
    JoinThree("aaaa", "-", "b", " ");
    assert "aaaa" + " " + "-" + " " + "b" == "aaaa - b";
    WordsJoin(["aaaa", "-", "b"]);
  }

  lemma ListSummaryWords()
    ensures Words(TripleDouble + "aaaa - b." + TripleDouble) == [TripleDouble + "aaaa", "-", "b." + TripleDouble]
  {
    JoinThree("aaaa", "-", "b.", " ");
    assert "aaaa" + " " + "-" + " " + "b." == "aaaa - b.";
    TripleDoubleNoSpace();
    QuotedWords(TripleDouble, ["aaaa", "-", "b."], TripleDouble);
  }

  /** Greedy filling at width 8: `"""aaaa -` would be 9 long, so the
      marker starts the second line. */
  lemma ListSummaryWrap()
    ensures WrapWords([TripleDouble + "aaaa", "-", "b." + TripleDouble], 8, "")
      == [[TripleDouble + "aaaa"], ["-", "b." + TripleDouble]]
  {
    var a, c := TripleDouble + "aaaa", "b." + TripleDouble;
    var ws := [a, "-", c];
    JoinTwo(a, "-", " ");
    JoinTwo("-", c, " ");
    assert [] + [ws[0]] == [a] && ws[1..] == ["-", c];
    assert Fill([], ws, 8, "") == Fill([a], ["-", c], 8, "");
    assert [a] + ["-"] == [a, "-"] && !Fits([a, "-"], 8, "");
    assert ["-", c][1..] == [c];
    assert Fill([a], ["-", c], 8, "") == [[a]] + Fill(["-"], [c], 8, "");
    assert ["-"] + [c] == ["-", c] && Fits(["-", c], 8, "");
    assert [c][1..] == [];
    assert Fill(["-"], [c], 8, "") == Fill(["-", c], [], 8, "");
    assert Fill(["-", c], [], 8, "") == [["-", c]];
  }

  lemma ListSummaryRender()
    ensures Render([[TripleDouble + "aaaa"], ["-", "b." + TripleDouble]], "")
      == TripleDouble + "aaaa\n- b." + TripleDouble
  {
    var a, c := TripleDouble + "aaaa", "b." + TripleDouble;
    JoinTwo("-", c, " ");
    assert LineTexts([[a], ["-", c]]) == [a, "-" + " " + c];
    JoinTwo(a, "-" + " " + c, "\n" + "");
  }

  /** The first pass wraps the summary after its first word. */
  lemma ListSummaryFirstPass()
    ensures FormatDocstring("", TripleDouble + "aaaa - b" + TripleDouble, Narrow)
      == Some(TripleDouble + "aaaa\n- b." + TripleDouble)
  {
    ListSummaryStrips();
    ListSummaryPlain();
    ListSummaryNoCut();
    ListSummaryNormal();
    ListSummaryWords();
    ListSummaryWrap();
    ListSummaryRender();
    assert FormatDocstring("", TripleDouble + "aaaa - b" + TripleDouble, Narrow)
      == Some(WrapText(TripleDouble + "aaaa - b." + TripleDouble, 8, ""));
  }

  lemma ListLineStrips()
    ensures StripDocstring(TripleDouble + "aaaa\n- b." + TripleDouble) == Some("aaaa\n- b.")
  {
    StripTrimmed("aaaa\n- b.");
  }

  lemma ListLinePlain()
    ensures !Contains("aaaa\n- b.", TripleDouble)
  {
    NoQuoteNoTriple("aaaa\n- b.");
  }

  lemma ListLineSplits()
    ensures SplitSummary("aaaa\n- b.") == Parts("aaaa", "- b.")
  {
    ListLineText();
    SplitAtListLine("aaaa", "- b.");
  }

  lemma ListLineText()
    ensures "aaaa" + "\n" + "- b." == "aaaa\n- b."
  {
  }

  /** The summary `aaaa` alone fits on the opening line. */
  lemma OneWordBlock()
    ensures SummaryBlock("aaaa", "", Narrow) == TripleDouble + "aaaa."
  {
    NormalizeWord("aaaa");
    assert Terminate("aaaa") == "aaaa.";
    assert NoSpace("aaaa.");
    TripleDoubleNoSpace();
    NoSpaceConcat(TripleDouble, "aaaa.");
    OneWordWrap(TripleDouble + "aaaa.", 8, "");
    assert SummaryBlock("aaaa", "", Narrow) == WrapText(TripleDouble + "aaaa.", 8, "");
  }

  /** A single word is printed as it is at any wrap length. */
  lemma OneWordWrap(w: string, width: int, indent: string)
    requires |w| > 0 && NoSpace(w)
    ensures WrapText(w, width, indent) == w
  {
    WordsJoin([w]);
    assert [] + [w] == [w] && [w][1..] == [];
    assert Fill([], [w], width, indent) == Fill([w], [], width, indent) == [[w]];
    assert WrapWords([w], width, indent) == [[w]];
  }

  lemma ListTail()
    ensures DescriptionTail("- b.", "", Narrow) == "\n" + "- b." + "\n" + ("\n" + "" + TripleDouble)
  {
    var l := "- b.";
    SplitNoSeparator(l, '\n');
    assert "" + l == l;
    assert IndentLine(l, "") == l;
    TrimRightPadded(l, "");
    assert l + "" == l;
    assert Reindent([l], "")[0] == l;
    assert Reindent([l], "") == [l];
  }

  /** The second pass reads the wrapped line `- b.` as a list item: the
      summary gains a period and the item becomes the description. */
  lemma ListSummarySecondPass()
    ensures FormatDocstring("", TripleDouble + "aaaa\n- b." + TripleDouble, Narrow)
      == Some(TripleDouble + "aaaa.\n\n- b.\n\n" + TripleDouble)
  {
    ListLineStrips();
    ListLinePlain();
    ListLineSplits();
    OneWordBlock();
    ListTail();
    assert FormatDocstring("", TripleDouble + "aaaa\n- b." + TripleDouble, Narrow)
      == Some(TripleDouble + "aaaa." + "\n" + ("\n" + "- b." + "\n" + ("\n" + "" + TripleDouble)));
    SecondPassText();
  }

  lemma SecondPassText()
    ensures TripleDouble + "aaaa." + "\n" + ("\n" + "- b." + "\n" + ("\n" + "" + TripleDouble))
      == TripleDouble + "aaaa.\n\n- b.\n\n" + TripleDouble
  {
  }

  /** With summary wrapping on, formatting twice differs from formatting
      once: the wrapped summary `aaaa - b` is cut at its list marker. */
  lemma WrappedNotIdempotent()
    ensures var once := FormatDocstring("", TripleDouble + "aaaa - b" + TripleDouble, Narrow);
      once.Some? && FormatDocstring("", once.value, Narrow) != once
  {
    ListSummaryFirstPass();
    ListSummarySecondPass();
    assert |TripleDouble + "aaaa\n- b." + TripleDouble| != |TripleDouble + "aaaa.\n\n- b.\n\n" + TripleDouble|;
  }

  // ---------------------------------------------------------------------
  // A lone sentence is stable without wrapping

  /** Every character but the last is plain. */
  predicate PlainButLast(s: string) {
    |s| == 0 || Plain(s[..|s| - 1])
  }

  /** Words as they come out of a lone sentence: each plain but for its
      last character, each but the last plain throughout, none holding a
      double quote. */
  predicate SentenceWords(ws: seq<string>) {
    forall k :: 0 <= k < |ws| ==>
      |ws[k]| > 0 && PlainButLast(ws[k]) && '"' !in ws[k] && (k + 1 < |ws| ==> Plain(ws[k]))
  }

  /** Dropping a prefix keeps every character but the last plain. */
  lemma SuffixPlainButLast(s: string, m: nat)
    requires PlainButLast(s) && m <= |s|
    ensures PlainButLast(s[m..])
  {
    var t := s[m..];
    forall i | 0 <= i < |t| - 1 ensures t[i] != '\n' && !IsTerminator(t[i]) {
      assert t[i] == s[..|s| - 1][m + i];
    }
  }

  /** The words of a text whose only terminator or line break is its last
      character: every word is plain but for its last character, and every
      word but the last is plain throughout. */
  lemma {:induction false} WordsOfSentence(s: string)
    requires PlainButLast(s) && '"' !in s
    ensures SentenceWords(Words(s))
    decreases |s|
  {
    if |s| > 0 && IsSpace(s[0]) {
      SuffixPlainButLast(s, 1);
      WordsOfSentence(s[1..]);
      assert Words(s) == Words(s[1..]);
    } else if |s| > 0 {
      var n := WordLength(s);
      var w, rest := s[..n], s[n..];
      SuffixPlainButLast(s, n);
      WordsOfSentence(rest);
      var ws := Words(s);
      assert ws == [w] + Words(rest);
      assert '"' !in w by {
        forall i | 0 <= i < |w| ensures w[i] != '"' {
          assert w[i] == s[i];
        }
      }
      if n < |s| {
        forall i | 0 <= i < |w| ensures w[i] != '\n' && !IsTerminator(w[i]) {
          assert w[i] == s[..|s| - 1][i];
        }
        assert PlainButLast(w) by {
          forall i | 0 <= i < |w| - 1 ensures w[i] != '\n' && !IsTerminator(w[i]) {
            assert w[..|w| - 1][i] == w[i];
          }
        }
      } else {
        assert w == s;
        assert |Words(rest)| == 0;
      }
      forall k | 1 <= k < |ws|
        ensures |ws[k]| > 0 && PlainButLast(ws[k]) && '"' !in ws[k] && (k + 1 < |ws| ==> Plain(ws[k]))
      {
        assert ws[k] == Words(rest)[k - 1];
      }
    }
  }

  /** Words plain but for the last character of the last word join, with
      single spaces, into text plain but for its last character. */
  lemma {:induction false} JoinSentenceWords(ws: seq<string>)
    requires |ws| > 0 && SentenceWords(ws)
    ensures |Join(ws, " ")| > 0 && PlainButLast(Join(ws, " ")) && '"' !in Join(ws, " ")
    decreases |ws|
  {
    if |ws| > 1 {
      var h, t := ws[0], Join(ws[1..], " ");
      assert SentenceWords(ws[1..]) by {
        forall k | 0 <= k < |ws| - 1
          ensures |ws[1..][k]| > 0 && PlainButLast(ws[1..][k]) && '"' !in ws[1..][k]
            && (k + 1 < |ws| - 1 ==> Plain(ws[1..][k]))
        {
          assert ws[1..][k] == ws[k + 1];
        }
      }
      JoinSentenceWords(ws[1..]);
      var j := h + " " + t;
      assert Join(ws, " ") == j;
      forall i | 0 <= i < |j| - 1 ensures j[i] != '\n' && !IsTerminator(j[i]) {
        if i < |h| {
          assert j[i] == h[i];
        } else if i > |h| {
          assert j[i] == t[..|t| - 1][i - |h| - 1];
        }
      }
      forall i | 0 <= i < |j| ensures j[i] != '"' {
        if i < |h| {
          assert j[i] == h[i];
        } else if i > |h| {
          assert j[i] == t[i - |h| - 1];
        }
      }
    }
  }

  /** A lone sentence normalises to a lone sentence, and normalising that
      again changes nothing. */
  lemma NormalSentence(s: string)
    requires OneSentence(s)
    ensures OneSentence(NormalizeSummary(s))
    ensures NormalizeSummary(NormalizeSummary(s)) == NormalizeSummary(s)
  {
    var ws := Words(s);
    assert ws[0] == s[..WordLength(s)];
    WordsOfSentence(s);
    JoinSentenceWords(ws);
    var j := Join(ws, " ");
    var n := NormalizeSummary(s);
    JoinWordsTrimmed(ws);
    if !IsTerminator(j[|j| - 1]) {
      assert n[..|n| - 1] == j;
      forall i | 0 <= i < |j| ensures j[i] != '\n' && !IsTerminator(j[i]) {
        if i < |j| - 1 {
          assert j[i] == j[..|j| - 1][i];
        }
      }
    }
    JoinTerminateLast(ws);
    NormalizeWords(s);
    assert Join(Words(n), " ") == n;
  }

  /** Without wrapping, a docstring whose body is one sentence is formatted
      to a fixed point: formatting the result again changes nothing. */
  lemma UnwrappedSentenceStable(indentation: string, q: string, a: string, s: string, b: string, config: Config)
    requires IsTripleQuote(q) && AllSpace(a) && AllSpace(b) && OneSentence(s)
    requires config.summaryWrapLength <= 0
    ensures FormatDocstring(indentation, q + a + s + b + q, config)
      == Some(TripleDouble + NormalizeSummary(s) + TripleDouble)
    ensures FormatDocstring(indentation, TripleDouble + NormalizeSummary(s) + TripleDouble, config)
      == Some(TripleDouble + NormalizeSummary(s) + TripleDouble)
  {
    SentenceFirstPass(indentation, q, a, s, b, config);
    var n := NormalizeSummary(s);
    NormalSentence(s);
    SentenceDocstring(indentation, TripleDouble, "", n, "", config);
    Unpadded(TripleDouble, n);
  }

  lemma Unpadded(q: string, n: string)
    ensures q + "" + n + "" + q == q + n + q
  {
  }

  /** The first pass over a one-sentence body. */
  lemma SentenceFirstPass(indentation: string, q: string, a: string, s: string, b: string, config: Config)
    requires IsTripleQuote(q) && AllSpace(a) && AllSpace(b) && OneSentence(s)
    requires config.summaryWrapLength <= 0
    ensures FormatDocstring(indentation, q + a + s + b + q, config)
      == Some(TripleDouble + NormalizeSummary(s) + TripleDouble)
  {
    StripPadded(q, a, s, b);
    NoQuoteNoTriple(s);
    OneSentenceNoCut(s);
    SummaryOnly(indentation, q + a + s + b + q, config);
  }
}
