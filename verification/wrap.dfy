/**
  The summary wrapper: greedy filling of words into lines no wider than a
  given width, where every line is counted together with the indentation
  it is printed at. A word is never split; a word too long for any line
  sits alone on its own line. A width of zero or less disables wrapping.
 */
module Wrap {
  import opened Text

  /** A line of words, printed after `indent`, is at most `width` long. */
  predicate Fits(line: seq<string>, width: int, indent: string) {
    |indent| + |Join(line, " ")| <= width
  }

  function Flatten(lines: seq<seq<string>>): seq<string> {
    if |lines| == 0 then [] else lines[0] + Flatten(lines[1..])
  }

  /** Greedy filling; `line` holds the words already placed on the current
      line and `rest` those still to place. Every line but the last is
      full: the first word of the next line would not have fit. */
  function Fill(line: seq<string>, rest: seq<string>, width: int, indent: string): (lines: seq<seq<string>>)
    requires |line| <= 1 || Fits(line, width, indent)
    ensures Flatten(lines) == line + rest
    ensures forall k :: 0 <= k < |lines| ==> |lines[k]| > 0
    ensures forall k :: 0 <= k < |lines| && |lines[k]| > 1 ==> Fits(lines[k], width, indent)
    ensures forall k :: 0 <= k < |lines| - 1 ==> !Fits(lines[k] + [lines[k + 1][0]], width, indent)
    ensures |line| > 0 ==> |lines| > 0 && |line| <= |lines[0]| && lines[0][..|line|] == line
    decreases |rest|
  {
    if |rest| == 0 then
      if |line| == 0 then [] else [line]
    else if |line| == 0 || Fits(line + [rest[0]], width, indent) then
      var lines := Fill(line + [rest[0]], rest[1..], width, indent);
      assert line + [rest[0]] + rest[1..] == line + rest;
      assert lines[0][..|line|] == (lines[0][..|line| + 1])[..|line|];
      lines
    else
      var tail := Fill([rest[0]], rest[1..], width, indent);
      assert [rest[0]] + rest[1..] == rest;
      assert tail[0][..1] == [rest[0]];
      var lines := [line] + tail;
      assert lines[1..] == tail;
      lines
  }

  /** The lines of a wrapped word sequence; `width <= 0` keeps them on one. */
  function WrapWords(words: seq<string>, width: int, indent: string): (lines: seq<seq<string>>)
    ensures Flatten(lines) == words
    ensures forall k :: 0 <= k < |lines| ==> |lines[k]| > 0
    ensures width > 0 ==> forall k :: 0 <= k < |lines| && |lines[k]| > 1 ==> Fits(lines[k], width, indent)
    ensures width > 0 ==> forall k :: 0 <= k < |lines| - 1 ==> !Fits(lines[k] + [lines[k + 1][0]], width, indent)
    ensures width <= 0 ==> lines == if |words| == 0 then [] else [words]
  {
    if width <= 0 then
      if |words| == 0 then [] else [words]
    else
      Fill([], words, width, indent)
  }

  function LineTexts(lines: seq<seq<string>>): (texts: seq<string>)
    ensures |texts| == |lines|
    ensures forall k :: 0 <= k < |lines| ==> texts[k] == Join(lines[k], " ")
  {
    if |lines| == 0 then [] else [Join(lines[0], " ")] + LineTexts(lines[1..])
  }

  /** The wrapped text: lines joined by a newline and the indentation. */
  function Render(lines: seq<seq<string>>, indent: string): string {
    Join(LineTexts(lines), "\n" + indent)
  }

  function Indented(texts: seq<string>, indent: string): (r: seq<string>)
    ensures |r| == |texts|
    ensures forall k :: 0 <= k < |texts| ==> r[k] == indent + texts[k]
  {
    if |texts| == 0 then [] else [indent + texts[0]] + Indented(texts[1..], indent)
  }

  /** Printing the indentation before a joined text indents every line. */
  lemma {:induction false} IndentJoin(texts: seq<string>, indent: string)
    requires |texts| > 0
    ensures indent + Join(texts, "\n" + indent) == Join(Indented(texts, indent), "\n")
    decreases |texts|
  {
    if |texts| > 1 {
      IndentJoin(texts[1..], indent);
      assert Indented(texts, indent)[1..] == Indented(texts[1..], indent);
    }
  }

  lemma {:induction false} JoinNoNewline(ws: seq<string>)
    requires ValidWords(ws)
    ensures '\n' !in Join(ws, " ")
    decreases |ws|
  {
    if |ws| > 1 {
      JoinNoNewline(ws[1..]);
    }
    if |ws| > 0 {
      assert forall i :: 0 <= i < |ws[0]| ==> ws[0][i] != '\n';
    }
  }

  /** Every line with more than one word is at most `width` long. */
  predicate MultiWordLinesFit(out: seq<string>, width: int) {
    forall k :: 0 <= k < |out| && |Words(out[k])| > 1 ==> |out[k]| <= width
  }

  /** Wrap bound: once the indentation is printed in front of the wrapped
      text, every output line holding more than one word is at most
      `width` long; only a lone overlong word may exceed it. */
  lemma WrapBound(words: seq<string>, width: int, indent: string)
    requires ValidWords(words) && width > 0
    requires AllSpace(indent) && '\n' !in indent
    ensures MultiWordLinesFit(Split(indent + Render(WrapWords(words, width, indent), indent), '\n'), width)
  {
    var lines := WrapWords(words, width, indent);
    forall k | 0 <= k < |lines| ensures ValidWords(lines[k]) {
      FlattenValid(lines, k, words);
    }
    if |lines| == 0 {
      RenderNoLines(lines, width, indent);
    } else {
      RenderLinesBound(lines, width, indent);
    }
  }

  lemma RenderNoLines(lines: seq<seq<string>>, width: int, indent: string)
    requires |lines| == 0
    requires AllSpace(indent) && '\n' !in indent
    ensures MultiWordLinesFit(Split(indent + Render(lines, indent), '\n'), width)
  {
    assert indent + Render(lines, indent) == indent;
    SplitNoSeparator(indent, '\n');
    assert indent + "" == indent;
    WordsSkipSpace(indent, "");
  }

  lemma RenderLinesBound(lines: seq<seq<string>>, width: int, indent: string)
    requires |lines| > 0
    requires forall k :: 0 <= k < |lines| ==> |lines[k]| > 0 && ValidWords(lines[k])
    requires forall k :: 0 <= k < |lines| && |lines[k]| > 1 ==> Fits(lines[k], width, indent)
    requires AllSpace(indent) && '\n' !in indent
    ensures MultiWordLinesFit(Split(indent + Render(lines, indent), '\n'), width)
  {
    var texts := LineTexts(lines);
    IndentJoin(texts, indent);
    var parts := Indented(texts, indent);
    forall k | 0 <= k < |parts| ensures '\n' !in parts[k] && Words(parts[k]) == lines[k] {
      JoinNoNewline(lines[k]);
      WordsSkipSpace(indent, texts[k]);
      WordsJoin(lines[k]);
    }
    SplitJoin(parts, '\n');
  }

  /** The printed lines of the wrapped text: line `k` is the indentation
      followed by the `k`-th group of words, single-spaced, so every
      continuation line starts with the indentation. */
  lemma WrapLines(words: seq<string>, width: int, indent: string)
    requires ValidWords(words) && |words| > 0
    requires AllSpace(indent) && '\n' !in indent
    ensures var lines := WrapWords(words, width, indent);
      var out := Split(indent + Render(lines, indent), '\n');
      |out| == |lines| &&
      forall k :: 0 <= k < |out| ==> out[k] == indent + Join(lines[k], " ") && Words(out[k]) == lines[k]
  {
    var lines := WrapWords(words, width, indent);
    forall k | 0 <= k < |lines| ensures ValidWords(lines[k]) {
      FlattenValid(lines, k, words);
    }
    FlattenEnds(lines, words);
    var texts := LineTexts(lines);
    IndentJoin(texts, indent);
    var parts := Indented(texts, indent);
    forall k | 0 <= k < |parts| ensures '\n' !in parts[k] && Words(parts[k]) == lines[k] {
      JoinNoNewline(lines[k]);
      WordsSkipSpace(indent, texts[k]);
      WordsJoin(lines[k]);
    }
    SplitJoin(parts, '\n');
  }

  /** Every word of a line is one of the wrapped words. */
  lemma {:induction false} FlattenValid(lines: seq<seq<string>>, k: int, words: seq<string>)
    requires Flatten(lines) == words && ValidWords(words) && 0 <= k < |lines|
    ensures ValidWords(lines[k])
    decreases |lines|
  {
    assert words == lines[0] + Flatten(lines[1..]);
    if k == 0 {
      assert forall i :: 0 <= i < |lines[0]| ==> lines[0][i] == words[i];
    } else {
      var rest := Flatten(lines[1..]);
      assert forall i :: 0 <= i < |rest| ==> rest[i] == words[|lines[0]| + i];
      FlattenValid(lines[1..], k - 1, rest);
    }
  }

  /** Without wrapping the words come back on one single-spaced line. */
  lemma RenderUnwrapped(words: seq<string>, width: int, indent: string)
    requires width <= 0 && |words| > 0
    ensures Render(WrapWords(words, width, indent), indent) == Join(words, " ")
  {
  }

  /** The words of the rendered text are the words that were placed:
      rendering changes only the whitespace between them. */
  lemma {:induction false} RenderWords(lines: seq<seq<string>>, indent: string)
    requires forall k :: 0 <= k < |lines| ==> |lines[k]| > 0 && ValidWords(lines[k])
    requires AllSpace(indent)
    ensures Words(Render(lines, indent)) == Flatten(lines)
    decreases |lines|
  {
    if |lines| == 1 {
      WordsJoin(lines[0]);
      assert Flatten(lines) == lines[0] + Flatten([]);
    } else if |lines| > 1 {
      var texts := LineTexts(lines);
      var sep := "\n" + indent;
      assert texts[1..] == LineTexts(lines[1..]);
      assert IsSpace('\n');
      AllSpaceConcat("\n", indent);
      assert Render(lines, indent) == texts[0] + sep + Render(lines[1..], indent);
      WordsAround(texts[0], sep, Render(lines[1..], indent));
      WordsJoin(lines[0]);
      RenderWords(lines[1..], indent);
    }
  }

  /** Wrapping keeps every word, in order. */
  lemma WrapKeepsWords(words: seq<string>, width: int, indent: string)
    requires ValidWords(words) && AllSpace(indent)
    ensures Words(Render(WrapWords(words, width, indent), indent)) == words
  {
    var lines := WrapWords(words, width, indent);
    forall k | 0 <= k < |lines| ensures ValidWords(lines[k]) {
      FlattenValid(lines, k, words);
    }
    RenderWords(lines, indent);
  }

  /** The first line starts with the first word and the last line ends
      with the last word. */
  lemma {:induction false} FlattenEnds(lines: seq<seq<string>>, words: seq<string>)
    requires Flatten(lines) == words && |lines| > 0
    requires forall k :: 0 <= k < |lines| ==> |lines[k]| > 0
    ensures |words| > 0
    ensures lines[0][0] == words[0]
    ensures lines[|lines| - 1][|lines[|lines| - 1]| - 1] == words[|words| - 1]
    decreases |lines|
  {
    assert words == lines[0] + Flatten(lines[1..]);
    if |lines| > 1 {
      FlattenEnds(lines[1..], Flatten(lines[1..]));
    } else {
      assert Flatten(lines[1..]) == [];
    }
  }

  /** The rendered text starts with the first placed word and ends with
      the last one: no whitespace is added around it. */
  lemma RenderEnds(lines: seq<seq<string>>, indent: string)
    requires |lines| > 0
    requires forall k :: 0 <= k < |lines| ==> |lines[k]| > 0
    ensures StartsWith(Render(lines, indent), lines[0][0])
    ensures EndsWith(Render(lines, indent), lines[|lines| - 1][|lines[|lines| - 1]| - 1])
  {
    var texts := LineTexts(lines);
    var last := lines[|lines| - 1];
    JoinStartsWithFirst(texts, "\n" + indent);
    JoinStartsWithFirst(lines[0], " ");
    StartsWithTrans(Render(lines, indent), texts[0], lines[0][0]);
    JoinEndsWithLast(texts, "\n" + indent);
    JoinEndsWithLast(last, " ");
    EndsWithTrans(Render(lines, indent), texts[|texts| - 1], last[|last| - 1]);
  }

  /** The wrapped text starts with the first word and ends with the last. */
  lemma WrapEnds(words: seq<string>, width: int, indent: string)
    requires |words| > 0
    ensures StartsWith(Render(WrapWords(words, width, indent), indent), words[0])
    ensures EndsWith(Render(WrapWords(words, width, indent), indent), words[|words| - 1])
  {
    var lines := WrapWords(words, width, indent);
    FlattenEnds(lines, words);
    RenderEnds(lines, indent);
  }
}
