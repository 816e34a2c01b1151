/**
  Parsing one docstring literal: removing the quote delimiters
  (`strip_docstring`), cutting the body into a summary and a description
  (`split_summary_and_description`) and normalising the summary sentence
  (`normalize_summary`).
 */
module Docstring {
  import opened Wrappers
  import opened Text

  const TripleDouble: string := "\"\"\""
  const TripleSingle: string := "'''"

  /** The two delimiters a reformattable docstring may carry. */
  predicate IsTripleQuote(q: string) {
    q == TripleDouble || q == TripleSingle
  }

  // ---------------------------------------------------------------------
  // strip_docstring

  /** Python's `t.split(q, 1)[1].rsplit(q, 1)[0]` for a `t` that starts and
      ends with the three-character delimiter `q`: when the two delimiters
      overlap (`|t| < 6`) nothing is left to cut at the end. */
  function Unquote(t: string): (inner: string)
    requires |t| >= 3
    ensures |t| >= 6 ==> t == t[..3] + inner + t[|t| - 3..]
  {
    if |t| >= 6 then t[3..|t| - 3] else t[3..]
  }

  /** `t` starts and ends with the delimiter `q`. */
  predicate QuotedBy(t: string, q: string) {
    StartsWith(t, q) && EndsWith(t, q)
  }

  /** The text between the delimiters of a docstring, trimmed of
      surrounding whitespace; `None` when the trimmed literal does not
      start and end with the same triple quote. Triple double quotes are
      tried before triple single quotes. */
  function StripDocstring(docstring: string): (r: Option<string>)
    ensures r.Some? <==> QuotedBy(Trim(docstring), TripleDouble) || QuotedBy(Trim(docstring), TripleSingle)
    ensures r.Some? ==> Trimmed(r.value) && |r.value| + 3 <= |Trim(docstring)|
  {
    var t := Trim(docstring);
    if QuotedBy(t, TripleDouble) || QuotedBy(t, TripleSingle) then Some(Trim(Unquote(t)))
    else None
  }

  /** Round trip: a trimmed text wrapped in a triple quote, with any
      whitespace around it and around the delimiters, strips back to the
      text. */
  lemma StripQuoted(a: string, q: string, b: string, c: string, d: string, e: string)
    requires IsTripleQuote(q)
    requires AllSpace(a) && AllSpace(b) && AllSpace(d) && AllSpace(e)
    requires Trimmed(c)
    ensures StripDocstring(a + q + b + c + d + q + e) == Some(c)
  {
    var m := b + c + d;
    var lit := q + m + q;
    assert a + q + b + c + d + q + e == a + lit + e;
    assert Trimmed(lit) by {
      assert lit[0] == q[0];
      assert lit[|lit| - 1] == q[2];
    }
    TrimPadded(a, lit, e);
    UnquoteOf(q, m);
    TrimPadded(b, c, d);
    assert QuotedBy(lit, q);
  }

  /** Round trip for a bare literal: the body between two equal triple
      quotes comes back trimmed. */
  lemma StripQuotedBody(q: string, body: string)
    requires IsTripleQuote(q)
    ensures StripDocstring(q + body + q) == Some(Trim(body))
  {
    var lit := q + body + q;
    assert Trimmed(lit) by {
      assert lit[0] == q[0];
      assert lit[|lit| - 1] == q[2];
    }
    TrimPadded("", lit, "");
    assert "" + lit + "" == lit;
    UnquoteOf(q, body);
    assert QuotedBy(lit, q);
  }

  /** A trimmed text between a triple quote and blanks strips back to
      the text. */
  lemma StripPadded(q: string, a: string, c: string, b: string)
    requires IsTripleQuote(q) && AllSpace(a) && AllSpace(b) && Trimmed(c)
    ensures StripDocstring(q + a + c + b + q) == Some(c)
  {
    var m := a + c + b;
    assert q + m + q == q + a + c + b + q by {
      AppendAssoc(q, a + c, b);
      AppendAssoc(q, a, c);
    }
    StripQuotedBody(q, m);
    TrimPadded(a, c, b);
  }

  /** `Unquote` removes exactly the two delimiters. */
  lemma UnquoteOf(q: string, m: string)
    requires |q| == 3
    ensures Unquote(q + m + q) == m
  {
    var t := q + m + q;
    assert t[3..|t| - 3] == m;
  }

  // ---------------------------------------------------------------------
  // split_summary_and_description

  predicate IsTerminator(c: char) {
    c == '.' || c == '?' || c == '!'
  }

  /** Characters that open a list item or a field such as `@param`. */
  predicate IsListMarker(c: char) {
    c == '-' || c == '@'
  }

  /** Index of the newline that ends the line containing `p`, or `|s|`. */
  function LineEnd(s: string, p: nat): (e: nat)
    requires p <= |s|
    ensures p <= e <= |s|
    ensures forall k :: p <= k < e ==> s[k] != '\n'
    ensures e == |s| || s[e] == '\n'
    decreases |s| - p
  {
    if p == |s| || s[p] == '\n' then p else LineEnd(s, p + 1)
  }

  /** A line that cannot continue a summary: blank, or a list item. */
  predicate OpensDescription(line: string) {
    var t := TrimLeft(line);
    |t| == 0 || IsListMarker(t[0])
  }

  /** A sentence ends at `p`: a terminator followed by whitespace. */
  predicate SentenceCut(s: string, p: int) {
    0 < p < |s| && IsTerminator(s[p - 1]) && IsSpace(s[p])
  }

  /** A line other than the first starts at `p` and opens the description. */
  predicate LineCut(s: string, p: int) {
    0 < p < |s| && s[p - 1] == '\n' && OpensDescription(s[p..LineEnd(s, p)])
  }

  /** `p` is a summary/description boundary. */
  predicate IsCut(s: string, p: int) {
    SentenceCut(s, p) || LineCut(s, p)
  }

  /** `p` is the leftmost boundary of `s`. */
  predicate IsFirstCut(s: string, p: int) {
    IsCut(s, p) && forall q :: 0 < q < p ==> !IsCut(s, q)
  }

  /** `s` has no boundary at all. */
  predicate NoCut(s: string) {
    forall q :: 0 < q < |s| ==> !IsCut(s, q)
  }

  /** Scans left to right from `i` for the first boundary. */
  function CutFrom(s: string, i: nat): (r: Option<nat>)
    requires 0 < i
    ensures r.Some? ==> i <= r.value < |s| && IsCut(s, r.value)
    ensures forall q :: i <= q < |s| && (r.None? || q < r.value) ==> !IsCut(s, q)
    decreases |s| - i
  {
    if i >= |s| then None
    else if IsCut(s, i) then Some(i)
    else CutFrom(s, i + 1)
  }

  /** The leftmost boundary of `s`, if any. */
  function FirstCut(s: string): (r: Option<nat>)
    ensures r.Some? <==> !NoCut(s)
    ensures r.Some? ==> IsFirstCut(s, r.value)
  {
    CutFrom(s, 1)
  }

  datatype Parts = Parts(summary: string, description: string)

  /** Cuts a docstring body at its first boundary: the summary is the
      trimmed text before it and the description the trimmed text after
      it; with no boundary the whole body is the summary. */
  function SplitSummary(s: string): (parts: Parts)
    ensures NoCut(s) ==> parts == Parts(s, "")
    ensures forall p :: IsFirstCut(s, p) ==> parts == Parts(Trim(s[..p]), Trim(s[p..]))
  {
    var cut := FirstCut(s);
    if cut.Some? then FirstCutUnique(s, cut.value); SplitAt(s, cut)
    else SplitAt(s, cut)
  }

  /** The two trimmed sides of a cut, or the whole text when there is none. */
  function SplitAt(s: string, cut: Option<nat>): Parts
    requires cut.Some? ==> cut.value <= |s|
  {
    match cut
    case None => Parts(s, "")
    case Some(p) => Parts(Trim(s[..p]), Trim(s[p..]))
  }

  lemma FirstCutUnique(s: string, p: int)
    requires IsFirstCut(s, p)
    ensures forall p' :: IsFirstCut(s, p') ==> p' == p
  {
  }

  /** Text holding no newline and no sentence terminator: it can hold no
      boundary of its own. */
  predicate Plain(s: string) {
    forall i :: 0 <= i < |s| ==> s[i] != '\n' && !IsTerminator(s[i])
  }

  /** Text without whitespace holds no boundary. */
  lemma NoSpaceNoCut(w: string)
    requires NoSpace(w)
    ensures NoCut(w)
  {
    forall p | 0 < p < |w| ensures !IsCut(w, p) {
      assert !IsSpace(w[p]) && !IsSpace(w[p - 1]);
    }
  }

  /** A summary sentence followed by whitespace is cut right after its
      terminator. */
  lemma SplitAtSentence(s: string, g: string, d: string)
    requires |s| > 0 && Plain(s[..|s| - 1]) && IsTerminator(s[|s| - 1]) && Trimmed(s)
    requires |g| > 0 && AllSpace(g) && Trimmed(d)
    ensures SplitSummary(s + g + d) == Parts(s, d)
  {
    var t := s + g + d;
    var p := |s|;
    assert SentenceCut(t, p);
    forall q | 0 < q < p ensures !IsCut(t, q) {
      assert t[q - 1] == s[..|s| - 1][q - 1];
    }
    assert t[..p] == s;
    assert t[p..] == g + d;
    TrimTrimmed(s);
    TrimLeading(g, d);
  }

  /** A summary wrapped over two lines ends at the sentence end on its
      second line: the summary keeps its line break, and what follows the
      whitespace after the terminator is the description. */
  lemma SplitAtWrappedSentence(l1: string, ind: string, s2: string, g: string, d: string)
    requires |l1| > 0 && Plain(l1) && Trimmed(l1)
    requires AllSpace(ind) && '\n' !in ind
    requires |s2| > 0 && Plain(s2[..|s2| - 1]) && IsTerminator(s2[|s2| - 1])
    requires !IsSpace(s2[0]) && !IsListMarker(s2[0])
    requires |g| > 0 && AllSpace(g) && Trimmed(d)
    ensures SplitSummary(l1 + "\n" + ind + s2 + g + d) == Parts(l1 + "\n" + ind + s2, d)
  {
    var s := l1 + "\n" + ind + s2;
    var t := s + g + d;
    var m := |l1| + 1;
    var p := |s|;
    assert SentenceCut(t, p);
    SecondLineContinues(t, m, ind, s2[0]);
    forall q | 0 < q < p ensures !IsCut(t, q) {
      if q - 1 < |l1| {
        assert t[q - 1] == l1[q - 1];
      } else if q - 1 > |l1| {
        if q - 1 < m + |ind| {
          assert t[q - 1] == ind[q - 1 - m];
        } else {
          assert t[q - 1] == s2[..|s2| - 1][q - 1 - m - |ind|];
        }
      }
    }
    assert t[..p] == s;
    assert Trimmed(s) by {
      assert s[0] == l1[0];
      assert s[|s| - 1] == s2[|s2| - 1];
    }
    TrimTrimmed(s);
    assert t[p..] == g + d;
    TrimLeading(g, d);
  }

  /** A line whose first non-blank character is neither a list marker nor
      a line break continues the summary. */
  lemma SecondLineContinues(t: string, m: nat, ind: string, c: char)
    requires m + |ind| < |t| && t[m..m + |ind|] == ind && t[m + |ind|] == c
    requires AllSpace(ind) && '\n' !in ind && !IsSpace(c) && !IsListMarker(c)
    ensures !OpensDescription(t[m..LineEnd(t, m)])
  {
    var e := LineEnd(t, m);
    assert t[m + |ind|] != '\n';
    forall k | m <= k < m + |ind| ensures t[k] != '\n' {
      assert t[k] == t[m..m + |ind|][k - m];
    }
    var line := t[m..e];
    assert line == ind + line[|ind|..];
    assert line[|ind|..][0] == c;
    TrimLeftPadded(ind, line[|ind|..]);
  }

  /** The line break and indentation inside a wrapped summary become a
      single space once it is normalised. */
  lemma SummaryLineBreak(l1: string, ind: string, s2: string)
    requires AllSpace(ind)
    ensures NormalizeSummary(l1 + "\n" + ind + s2) == NormalizeSummary(l1 + " " + s2)
  {
    assert l1 + "\n" + ind + s2 == l1 + ("\n" + ind) + s2;
    assert AllSpace("\n" + ind) by {
      AllSpaceConcat("\n", ind);
    }
    WordsAround(l1, "\n" + ind, s2);
    WordsAround(l1, " ", s2);
  }

  /** The line starting at `p` is `line` when a newline or the end of the
      text follows it. */
  lemma LineAt(s: string, p: nat, line: string)
    requires p + |line| <= |s| && s[p..p + |line|] == line && '\n' !in line
    requires p + |line| == |s| || s[p + |line|] == '\n'
    ensures s[p..LineEnd(s, p)] == line
  {
  }

  /** A line starting with a list marker after blanks opens the
      description. */
  lemma ListLineOpens(s: string, p: nat, ind: string)
    requires p + |ind| < |s| && s[p..p + |ind|] == ind
    requires AllSpace(ind) && '\n' !in ind && IsListMarker(s[p + |ind|])
    ensures OpensDescription(s[p..LineEnd(s, p)])
  {
    var e := LineEnd(s, p);
    assert e > p + |ind|;
    var line := s[p..e];
    assert line == ind + line[|ind|..];
    TrimLeftPadded(ind, line[|ind|..]);
  }

  /** A summary line followed by a blank line is cut at the blank line. */
  lemma SplitAtBlankLine(l: string, g: string, d: string)
    requires Plain(l) && Trimmed(l)
    requires |g| >= 2 && g[0] == '\n' && g[1] == '\n' && AllSpace(g) && Trimmed(d)
    ensures SplitSummary(l + g + d) == Parts(l, d)
  {
    var s := l + g + d;
    var p := |l| + 1;
    assert LineEnd(s, p) == p;
    assert LineCut(s, p);
    forall q | 0 < q < p ensures !IsCut(s, q) {
      assert s[q - 1] == l[q - 1];
    }
    assert s[..p] == l + "\n";
    TrimTrailing(l, "\n");
    assert s[p..] == g[1..] + d;
    TrimLeading(g[1..], d);
  }

  /** A summary line followed by a list item or a field line is cut at
      that line. */
  lemma SplitAtListLine(l: string, d: string)
    requires Plain(l) && Trimmed(l)
    requires |d| > 0 && IsListMarker(d[0]) && Trimmed(d)
    ensures SplitSummary(l + "\n" + d) == Parts(l, d)
  {
    var s := l + "\n" + d;
    var p := |l| + 1;
    assert s[p..p + 0] == "";
    ListLineOpens(s, p, "");
    assert LineCut(s, p);
    forall q | 0 < q < p ensures !IsCut(s, q) {
      assert s[q - 1] == l[q - 1];
    }
    assert s[..p] == l + "\n";
    TrimTrailing(l, "\n");
    assert s[p..] == d;
    TrimTrimmed(d);
  }

  /** A summary over two lines, the second not opening the description,
      is cut at a third line that holds a list item or a field. */
  lemma SplitAtThirdLine(l1: string, l2: string, ind: string, d: string, b: string)
    requires Plain(l1) && Plain(l2) && !OpensDescription(l2)
    requires AllSpace(ind) && '\n' !in ind
    requires |d| > 0 && IsListMarker(d[0]) && Trimmed(d) && AllSpace(b)
    ensures SplitSummary(l1 + "\n" + l2 + "\n" + ind + d + b) == Parts(Trim(l1 + "\n" + l2), d)
  {
    var head := l1 + "\n" + l2 + "\n";
    var rest := ind + d + b;
    var s := head + rest;
    assert s == l1 + "\n" + l2 + "\n" + ind + d + b;
    var p := |head|;
    assert s[p..p + |ind|] == ind;
    ListLineOpens(s, p, ind);
    assert LineCut(s, p);
    TwoLineHead(l1, l2, rest);
    assert s[..p] == (l1 + "\n" + l2) + "\n";
    TrimNewline(l1 + "\n" + l2);
    assert s[p..] == ind + d + b;
    TrimPadded(ind, d, b);
  }

  /** Two summary lines, the second not opening the description, hold
      no boundary. */
  lemma TwoLineHead(l1: string, l2: string, rest: string)
    requires Plain(l1) && Plain(l2) && !OpensDescription(l2)
    ensures var s := l1 + "\n" + l2 + "\n" + rest;
      forall q :: 0 < q < |l1| + |l2| + 2 ==> !IsCut(s, q)
  {
    var s := l1 + "\n" + l2 + "\n" + rest;
    var m := |l1| + 1;
    assert s[m..m + |l2|] == l2;
    assert '\n' !in l2;
    LineAt(s, m, l2);
    forall q | 0 < q < |l1| + |l2| + 2 ensures !IsCut(s, q) {
      if q - 1 < |l1| {
        assert s[q - 1] == l1[q - 1];
      } else if q - 1 > |l1| {
        assert s[q - 1] == l2[q - 1 - m];
      }
    }
  }

  /** Splitting drops nothing but whitespace: the body is the summary and
      the description with only blanks around and between them. */
  lemma SplitLossless(s: string)
    ensures var parts := SplitSummary(s);
      exists a, g, b :: AllSpace(a) && AllSpace(g) && AllSpace(b) &&
        s == a + parts.summary + g + parts.description + b
  {
    var cut := FirstCut(s);
    assert SplitSummary(s) == SplitAt(s, cut);
    var a, g, b := SplitAtLossless(s, cut);
  }

  /** `SplitLossless` for an arbitrary cut, with the blanks as witnesses. */
  lemma SplitAtLossless(s: string, cut: Option<nat>) returns (a: string, g: string, b: string)
    requires cut.Some? ==> cut.value <= |s|
    ensures AllSpace(a) && AllSpace(g) && AllSpace(b)
    ensures s == a + SplitAt(s, cut).summary + g + SplitAt(s, cut).description + b
  {
    if cut.None? {
      a, g, b := "", "", "";
      assert SplitAt(s, cut) == Parts(s, "");
    } else {
      a, g, b := SplitAtCutLossless(s, cut.value);
    }
  }

  lemma SplitAtCutLossless(s: string, p: nat) returns (a: string, g: string, b: string)
    requires p <= |s|
    ensures AllSpace(a) && AllSpace(g) && AllSpace(b)
    ensures s == a + Trim(s[..p]) + g + Trim(s[p..]) + b
  {
    a, g, b := TrimBothLossless(s[..p], s[p..]);
    assert s[..p] + s[p..] == s;
  }

  /** Gluing two trimmed strings back together leaves only whitespace
      outside and between them. */
  lemma TrimBothLossless(left: string, right: string) returns (a: string, g: string, b: string)
    ensures AllSpace(a) && AllSpace(g) && AllSpace(b)
    ensures left + right == a + Trim(left) + g + Trim(right) + b
  {
    var i, j := TrimBounds(left);
    var i', j' := TrimBounds(right);
    a, g, b := left[..i], left[j..] + right[..i'], right[j'..];
    AllSpaceConcat(left[j..], right[..i']);
    assert left == left[..i] + left[i..j] + left[j..];
    assert right == right[..i'] + right[i'..j'] + right[j'..];
  }

  /** For a trimmed body (what `StripDocstring` yields) a description
      exists exactly when a boundary does, and then the summary is not
      empty. */
  lemma SplitTrimmed(s: string)
    requires Trimmed(s)
    ensures SplitSummary(s).description == "" <==> NoCut(s)
    ensures !NoCut(s) ==> SplitSummary(s).summary != ""
  {
    assert SplitSummary(s) == SplitAt(s, FirstCut(s));
    if !NoCut(s) {
      var p := FirstCut(s).value;
      assert s[p..][|s[p..]| - 1] == s[|s| - 1];
      assert !IsSpace(s[p..][|s[p..]| - 1]);
      TrimKeepsSolid(s[p..], |s[p..]| - 1);
      assert s[..p][0] == s[0];
      TrimKeepsSolid(s[..p], 0);
    }
  }

  /** Trimming a string that has a non-blank character leaves it non-empty. */
  lemma TrimKeepsSolid(s: string, k: int)
    requires 0 <= k < |s| && !IsSpace(s[k])
    ensures Trim(s) != ""
  {
    var i, j := TrimBounds(s);
  }

  // ---------------------------------------------------------------------
  // normalize_summary

  /** A word ending in a terminator is kept; any other gets a period. */
  function Terminate(w: string): (r: string)
    ensures |r| > 0 && IsTerminator(r[|r| - 1])
    ensures r == w || r == w + "."
  {
    if |w| > 0 && IsTerminator(w[|w| - 1]) then w else w + "."
  }

  /** The word list of a normalised summary: the last word terminated. */
  function TerminateLast(ws: seq<string>): (r: seq<string>)
    ensures |r| == |ws|
  {
    if |ws| == 0 then [] else ws[..|ws| - 1] + [Terminate(ws[|ws| - 1])]
  }

  /** The summary as one sentence: every whitespace run (spaces, tabs,
      newlines) becomes a single space, surrounding blanks go, and a period
      is added unless it already ends in `.`, `?` or `!`. A blank summary
      stays empty. */
  function NormalizeSummary(s: string): (r: string)
    ensures r == "" <==> Words(s) == []
    ensures r != "" ==> Trimmed(r) && IsTerminator(r[|r| - 1])
  {
    var ws := Words(s);
    var j := Join(ws, " ");
    JoinWordsTrimmed(ws);
    if |j| > 0 && !IsTerminator(j[|j| - 1]) then j + "." else j
  }

  /** Terminating the last word terminates the joined text. */
  lemma JoinTerminateLast(ws: seq<string>)
    requires |ws| > 0 && |ws[|ws| - 1]| > 0
    ensures var j := Join(ws, " ");
      |j| > 0 &&
      Join(TerminateLast(ws), " ") == if IsTerminator(j[|j| - 1]) then j else j + "."
  {
    var j := Join(ws, " ");
    var l := ws[|ws| - 1];
    JoinEndsWithLast(ws, " ");
    assert j[|j| - 1] == l[|l| - 1] by {
      assert j[|j| - |l|..] == l;
      assert j[|j| - |l|..][|l| - 1] == j[|j| - 1];
    }
    var init := ws[..|ws| - 1];
    assert TerminateLast(ws) == init + [Terminate(l)];
    if IsTerminator(l[|l| - 1]) {
      assert init + [l] == ws;
    } else {
      assert Terminate(l) == l + ".";
      JoinExtendLast(ws, " ", ".");
    }
  }

  /** Terminating the last word keeps every word non-empty and blank-free. */
  lemma TerminateLastWords(ws: seq<string>)
    requires forall k :: 0 <= k < |ws| ==> |ws[k]| > 0 && NoSpace(ws[k])
    ensures var ts := TerminateLast(ws);
      forall k :: 0 <= k < |ts| ==> |ts[k]| > 0 && NoSpace(ts[k])
  {
    var ts := TerminateLast(ws);
    forall k | 0 <= k < |ts| ensures |ts[k]| > 0 && NoSpace(ts[k]) {
      if k == |ts| - 1 {
        var w := ws[|ws| - 1];
        assert forall i :: 0 <= i < |w| ==> (w + ".")[i] == w[i];
      } else {
        assert ts[k] == ws[k];
      }
    }
  }

  /** Normalising keeps every word in order; only the last one may gain a
      period. */
  lemma NormalizeWords(s: string)
    ensures Words(NormalizeSummary(s)) == TerminateLast(Words(s))
  {
    var ws := Words(s);
    if |ws| > 0 {
      JoinTerminateLast(ws);
      var ts := TerminateLast(ws);
      TerminateLastWords(ws);
      WordsJoin(ts);
    }
  }

  /** Normalising twice is the same as normalising once. */
  lemma NormalizeIdempotent(s: string)
    ensures NormalizeSummary(NormalizeSummary(s)) == NormalizeSummary(s)
  {
    var r := NormalizeSummary(s);
    var ws := Words(s);
    NormalizeWords(s);
    if |ws| > 0 {
      JoinTerminateLast(ws);
      var ts := TerminateLast(ws);
      assert Join(ts, " ") == r;
    }
  }

  /** A summary that is already single-spaced words ending in a terminator
      comes back unchanged. */
  lemma NormalizeFixed(ws: seq<string>)
    requires |ws| > 0
    requires forall k :: 0 <= k < |ws| ==> |ws[k]| > 0 && NoSpace(ws[k])
    requires IsTerminator(ws[|ws| - 1][|ws[|ws| - 1]| - 1])
    ensures NormalizeSummary(Join(ws, " ")) == Join(ws, " ")
  {
    var j := Join(ws, " ");
    WordsJoin(ws);
    assert Words(j) == ws;
    JoinEndsWithLast(ws, " ");
    var l := ws[|ws| - 1];
    assert j[|j| - 1] == j[|j| - |l|..][|l| - 1] == l[|l| - 1];
  }

  /** A normalised summary is its words joined by single spaces. */
  lemma NormalizeSingleSpaced(s: string)
    ensures Join(Words(NormalizeSummary(s)), " ") == NormalizeSummary(s)
    ensures ValidWords(Words(NormalizeSummary(s)))
  {
    var ws := Words(s);
    NormalizeWords(s);
    if |ws| > 0 {
      JoinTerminateLast(ws);
    }
  }

  /** A one-word summary is the word, terminated. */
  lemma NormalizeWord(w: string)
    requires |w| > 0 && NoSpace(w)
    ensures NormalizeSummary(w) == Terminate(w)
  {
    WordsJoin([w]);
  }
}
