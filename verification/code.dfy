/**
  `format_code`: the whole-file pass. The lexer is outside the model; its
  output is taken as a sequence of tokens, each carrying the source text
  that separates it from the previous token, so that concatenating the
  tokens gives the file back. Exactly the string tokens that qualify as
  docstrings are replaced by their reformatted text.
 */
module Code {
  import opened Wrappers
  import opened Text
  import opened Docstring
  import opened Format

  /** Python's token kinds. */
  datatype Kind =
    | Name | Number | StringLit | Op | Comment | NL | Newline | Indent | Dedent | EndMarker

  /** A token: its kind, the source text between the previous token and
      this one (spaces, a backslash continuation, ...), and its own text. */
  datatype Token = Token(kind: Kind, lead: string, text: string)

  /** The source text of a token sequence. */
  function Untokenize(ts: seq<Token>): string {
    if |ts| == 0 then ""
    else Untokenize(ts[..|ts| - 1]) + ts[|ts| - 1].lead + ts[|ts| - 1].text
  }

  /** Tokens that may precede a module docstring: comments and line ends. */
  predicate Preamble(k: Kind) {
    k == Comment || k == NL || k == Newline
  }

  predicate OnlyPreamble(ts: seq<Token>, i: int)
    requires 0 <= i <= |ts|
  {
    forall k :: 0 <= k < i ==> Preamble(ts[k].kind)
  }

  /** A literal opening with a bare triple quote; a prefixed literal such
      as `r"""` does not. */
  predicate TripleQuoted(text: string) {
    StartsWith(text, TripleDouble) || StartsWith(text, TripleSingle)
  }

  /** What the pass does with one token. */
  datatype Role = DocstringAt(indentation: string) | Verbatim

  /** A triple-quoted string token right after an indentation token is a
      docstring at that indentation; one preceded by comments and line ends
      only is the module docstring, at no indentation. Every other token is
      copied. */
  function RoleOf(ts: seq<Token>, i: int): (r: Role)
    requires 0 <= i < |ts|
    ensures r.DocstringAt? ==> ts[i].kind == StringLit && TripleQuoted(ts[i].text)
    ensures r.DocstringAt? ==>
      (i > 0 && ts[i - 1].kind == Indent && r.indentation == ts[i - 1].text)
      || (OnlyPreamble(ts, i) && r.indentation == "")
    ensures ts[i].kind == StringLit && TripleQuoted(ts[i].text) && i > 0 && ts[i - 1].kind == Indent ==>
      r == DocstringAt(ts[i - 1].text)
    ensures ts[i].kind == StringLit && TripleQuoted(ts[i].text) && OnlyPreamble(ts, i) ==> r.DocstringAt?
  {
    if ts[i].kind == StringLit && TripleQuoted(ts[i].text) then
      if i > 0 && ts[i - 1].kind == Indent then DocstringAt(ts[i - 1].text)
      else if OnlyPreamble(ts, i) then DocstringAt("")
      else Verbatim
    else Verbatim
  }

  /** The text a token is replaced by: its reformatted docstring, or the
      token itself when it plays no docstring role or cannot be parsed. */
  function NewText(ts: seq<Token>, i: int, config: Config): string
    requires 0 <= i < |ts|
  {
    match RoleOf(ts, i)
    case Verbatim => ts[i].text
    case DocstringAt(indentation) =>
      Reformat(indentation, ts[i].text, config)
  }

  /** The rewritten token sequence. Only the text of docstring tokens
      changes: kinds and leading text stay, and every other token is
      copied as it is. */
  function Rewrite(ts: seq<Token>, config: Config): (r: seq<Token>)
    ensures |r| == |ts|
    ensures forall k :: 0 <= k < |ts| ==> r[k].kind == ts[k].kind && r[k].lead == ts[k].lead
    ensures forall k :: 0 <= k < |ts| && RoleOf(ts, k) == Verbatim ==> r[k] == ts[k]
    ensures forall k :: 0 <= k < |ts| && RoleOf(ts, k).DocstringAt? ==>
      r[k].text == Reformat(RoleOf(ts, k).indentation, ts[k].text, config)
  {
    seq(|ts|, k requires 0 <= k < |ts| => Token(ts[k].kind, ts[k].lead, NewText(ts, k, config)))
  }

  /** `format_code` as a single pass over the tokens that remembers only
      the previous token and whether only comments and line ends have been
      seen so far. */
  method FormatCode(ts: seq<Token>, config: Config) returns (out: string)
    ensures out == Untokenize(Rewrite(ts, config))
  {
    out := "";
    var previous: Option<Token> := None;
    var onlyComments := true;
    ghost var r := Rewrite(ts, config);
    for i := 0 to |ts|
      invariant out == Untokenize(r[..i])
      invariant previous == if i == 0 then None else Some(ts[i - 1])
      invariant onlyComments == OnlyPreamble(ts, i)
    {
      var t := ts[i];
      var text := TokenText(ts, i, previous, onlyComments, config);
      UntokenizeSnoc(r, i);
      out := out + t.lead + text;
      onlyComments := onlyComments && Preamble(t.kind);
      previous := Some(t);
    }
    assert r[..|ts|] == r;
  }

  /** One step of the pass: the text written for token `i`, decided from
      the remembered previous token and preamble flag alone. */
  method TokenText(ts: seq<Token>, i: int, previous: Option<Token>, onlyComments: bool, config: Config)
    returns (text: string)
    requires 0 <= i < |ts|
    requires previous == if i == 0 then None else Some(ts[i - 1])
    requires onlyComments == OnlyPreamble(ts, i)
    ensures text == NewText(ts, i, config)
  {
    var t := ts[i];
    text := t.text;
    if t.kind == StringLit && TripleQuoted(t.text) {
      if previous.Some? && previous.value.kind == Indent {
        text := Reformat(previous.value.text, t.text, config);
      } else if onlyComments {
        text := Reformat("", t.text, config);
      }
    }
  }

  /** One docstring reformatted, or left alone when it cannot be parsed. */
  function Reformat(indentation: string, text: string, config: Config): string {
    match FormatDocstring(indentation, text, config)
    case Some(formatted) => formatted
    case None => text
  }

  lemma UntokenizeSnoc(ts: seq<Token>, i: int)
    requires 0 <= i < |ts|
    ensures Untokenize(ts[..i + 1]) == Untokenize(ts[..i]) + ts[i].lead + ts[i].text
  {
    assert ts[..i + 1][..i] == ts[..i];
  }

  /** Untokenizing distributes over concatenation. */
  lemma {:induction false} UntokenizeConcat(a: seq<Token>, b: seq<Token>)
    ensures Untokenize(a + b) == Untokenize(a) + Untokenize(b)
    decreases |b|
  {
    if |b| == 0 {
      assert a + b == a;
    } else {
      var c := a + b;
      assert c[..|c| - 1] == a + b[..|b| - 1];
      UntokenizeConcat(a, b[..|b| - 1]);
    }
  }

  /** Fidelity: a file without docstrings comes back byte-identical. */
  lemma NoDocstringUnchanged(ts: seq<Token>, config: Config)
    requires forall k :: 0 <= k < |ts| ==> RoleOf(ts, k) == Verbatim
    ensures Untokenize(Rewrite(ts, config)) == Untokenize(ts)
  {
    assert Rewrite(ts, config) == ts;
  }

  /** A literal that does not open with bare triple quotes (a prefixed
      `r"""`, a single-quoted string) is never a docstring: its token is
      copied. */
  lemma PrefixedLiteralCopied(ts: seq<Token>, i: int, config: Config)
    requires 0 <= i < |ts|
    requires |ts[i].text| > 0 && ts[i].text[0] != '"' && ts[i].text[0] != '\''
    ensures RoleOf(ts, i) == Verbatim && Rewrite(ts, config)[i] == ts[i]
  {
    var t := ts[i].text;
    assert |t| < 3 || (t[..3][0] != TripleDouble[0] && t[..3][0] != TripleSingle[0]);
  }

  /** A literal that follows code on the same logical line (an assignment)
      or stands alone later in a body is copied: only the first statement
      of a block, or a literal with only comments and line ends before it,
      can be a docstring. */
  lemma LaterLiteralCopied(ts: seq<Token>, i: int, j: int, config: Config)
    requires 0 <= j < i < |ts|
    requires !Preamble(ts[j].kind) && ts[i - 1].kind != Indent
    ensures RoleOf(ts, i) == Verbatim && Rewrite(ts, config)[i] == ts[i]
  {
    assert !OnlyPreamble(ts, i);
  }

  /** A triple-quoted literal right after an indentation token is the
      docstring of that block: it gets its reformatted text, at the
      indentation the token carries, and keeps its kind and leading text. */
  lemma BlockDocstringRewritten(ts: seq<Token>, i: int, config: Config)
    requires 0 < i < |ts|
    requires ts[i].kind == StringLit && TripleQuoted(ts[i].text) && ts[i - 1].kind == Indent
    ensures Rewrite(ts, config)[i] == Token(StringLit, ts[i].lead, Reformat(ts[i - 1].text, ts[i].text, config))
  {
  }

  /** A triple-quoted literal preceded only by comments and line ends is
      the module docstring, reformatted at no indentation. */
  lemma ModuleDocstringRewritten(ts: seq<Token>, i: int, config: Config)
    requires 0 <= i < |ts|
    requires ts[i].kind == StringLit && TripleQuoted(ts[i].text) && OnlyPreamble(ts, i)
    ensures Rewrite(ts, config)[i] == Token(StringLit, ts[i].lead, Reformat("", ts[i].text, config))
  {
    if i > 0 {
      assert Preamble(ts[i - 1].kind);
    }
  }

  /** The empty file comes back empty. */
  lemma EmptySource(config: Config)
    ensures Untokenize(Rewrite([], config)) == ""
  {
    assert Rewrite([], config) == [];
  }

  /** Output and input agree everywhere but in docstring tokens: the
      output is the input with the text of each docstring token replaced. */
  lemma RewriteSplices(ts: seq<Token>, i: int, config: Config)
    requires 0 <= i < |ts|
    requires forall k :: 0 <= k < |ts| && k != i ==> RoleOf(ts, k) == Verbatim
    ensures Untokenize(Rewrite(ts, config))
      == Untokenize(ts[..i]) + ts[i].lead + NewText(ts, i, config) + Untokenize(ts[i + 1..])
  {
    var r := Rewrite(ts, config);
    assert r[..i] == ts[..i];
    assert r[i + 1..] == ts[i + 1..];
    assert r == r[..i] + [r[i]] + r[i + 1..];
    UntokenizeConcat(r[..i] + [r[i]], r[i + 1..]);
    UntokenizeConcat(r[..i], [r[i]]);
    assert Untokenize([r[i]]) == Untokenize([r[i]][..0]) + r[i].lead + r[i].text;
  }
}
