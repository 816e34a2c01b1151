# docformatter, modelled in Dafny

docformatter rewrites the docstrings of a Python file into one canonical
style. Everything else in the file is left exactly as it was. The canonical
docstring has these parts:

- triple double quotes;
- a one-sentence summary, normalised to single spaces and ending in a
  terminator, optionally wrapped;
- a blank line, then the description lines, re-indented and stripped of
  trailing whitespace;
- an optional blank line;
- the closing quotes on their own line.

This project models two parts of docformatter as pure Dafny functions and
proves properties of them:

- The docstring pipeline:
  - `strip_docstring` (module `Docstring`);
  - `split_summary_and_description` (`Docstring.SplitSummary`);
  - `normalize_summary` (`Docstring.NormalizeSummary`);
  - the summary wrapper (module `Wrap`);
  - `format_docstring` (module `Format`).
- `format_code`, the whole-file pass (module `Code`). It works on a
  sequence of lexer tokens. Each token carries its kind, its own text, and
  the source text that separates it from the previous token, so
  concatenating the tokens (`Untokenize`) gives the file back. Exactly the
  tokens that qualify as docstrings get new text.

`docformatter.py` is not part of this model. The behaviour is taken from
the project's unit tests in `test_docformatter.py`; where the tests leave
a choice open, "## Left out" names the rule chosen.

Files:

| file | module | contents |
|---|---|---|
| `wrappers.dfy` | `Wrappers` | `Option` |
| `text.dfy` | `Text` | whitespace, trimming, words, `Join`/`Split` on strings and their lemmas |
| `docstring.dfy` | `Docstring` | stripping delimiters, the summary/description boundary, summary normalisation |
| `wrap.dfy` | `Wrap` | greedy word wrapping with the indentation counted on every line |
| `format.dfy` | `Format` | `format_docstring` and its layout lemmas |
| `code.dfy` | `Code` | tokens, docstring qualification, `format_code` as a loop and as a map over tokens |
| `examples.dfy` | `Examples` | the unit tests of the string functions, stated as lemmas |
| `code_examples.dfy` | `CodeExamples` | the unit tests of `format_code`, stated as lemmas over token sequences |
| `stability.dfy` | `Stability` | formatting an already formatted docstring: a counterexample with wrapping on, a fixed point without it |

## Model

| member | source | states |
|---|---|---|
| Docstring.StripDocstring | test_docformatter.py:26-47 | stripping succeeds exactly when the trimmed literal opens and closes with `"""` or `'''`; the result is trimmed and at least three characters shorter than the trimmed literal |
| Docstring.StripQuoted | test_docformatter.py:26-44 | blanks around the literal, blanks inside the quotes and either quote style all go, leaving the trimmed body |
| Docstring.StripQuotedBody | test_docformatter.py:26-47 | any body between matching triple quotes strips to that body, trimmed; the empty body strips to the empty string |
| Docstring.UnquoteOf | test_docformatter.py:26-47 | cutting the delimiters off a quoted body gives the body back (delimiter round trip) |
| Docstring.LineEnd | test_docformatter.py:502-508 | the end of the line containing a position is the first newline at or after it, or the end of the text |
| Docstring.CutFrom | test_docformatter.py:478-514 | the scan returns a boundary, and no position between its start and that boundary is one |
| Docstring.FirstCut | test_docformatter.py:478-514 | a first boundary is found exactly when the body has a boundary at all, and it is the leftmost one |
| Docstring.SplitSummary | test_docformatter.py:478-514 | a body with no boundary is all summary; otherwise the summary is the trimmed text before the leftmost boundary and the description the trimmed text after it |
| Docstring.FirstCutUnique | test_docformatter.py:478-514 | the leftmost boundary is unique |
| Docstring.SplitAtSentence | test_docformatter.py:478-482 | a sentence followed by whitespace ends the summary, which keeps its terminator |
| Docstring.SplitAtBlankLine | test_docformatter.py:484-488 | a blank line ends the summary and no period is added at this stage |
| Docstring.SplitAtListLine | test_docformatter.py:496-500 | a line opening with `-` or `@` starts the description |
| Docstring.SplitAtThirdLine | test_docformatter.py:502-508 | a list line after a two-line summary starts the description; the summary keeps its line break and its indentation |
| Docstring.SplitAtWrappedSentence | test_docformatter.py:359-376 | a sentence that continues on an indented second line, not a list item, stays one summary; the description starts after the blanks that follow it |
| Docstring.SummaryLineBreak | test_docformatter.py:359-376 | normalising joins the two lines of such a summary with a single space |
| Docstring.TwoLineHead | test_docformatter.py:502-508 | two plain lines, the second not blank and not a list item, hold no boundary |
| Docstring.ListLineOpens | test_docformatter.py:502-514 | an indented line whose first non-blank character is a list marker opens the description |
| Docstring.SplitLossless | test_docformatter.py:478-514 | splitting loses only whitespace: the body is blanks, summary, blanks, description, blanks |
| Docstring.SplitTrimmed | test_docformatter.py:478-514 | for a trimmed body the description is empty exactly when there is no boundary, and a boundary leaves a non-empty summary |
| Docstring.NoSpaceNoCut | test_docformatter.py:138-154 | a single word has no boundary |
| Docstring.Terminate | test_docformatter.py:516-525 | the result ends in `.`, `?` or `!` and is the word itself or the word plus `.` |
| Docstring.NormalizeSummary | test_docformatter.py:516-525 | the result is empty exactly when the summary has no words; otherwise it is trimmed and ends in a terminator |
| Docstring.NormalizeWords | test_docformatter.py:516-525 | normalising keeps the words in order and changes at most the last one, which gains a period when it has no terminator |
| Docstring.JoinTerminateLast | test_docformatter.py:516-525 | a period is appended to the joined words exactly when the last character is not a terminator |
| Docstring.NormalizeIdempotent | test_docformatter.py:516-525 | normalising twice is the same as normalising once |
| Docstring.NormalizeFixed | test_docformatter.py:521-525 | single-spaced words ending in a terminator (such as `?`) are returned unchanged |
| Docstring.NormalizeSingleSpaced | test_docformatter.py:516-519 | the normalised summary is its own words joined by single spaces |
| Docstring.NormalizeWord | test_docformatter.py:138-145 | a single word is only terminated |
| Wrap.Fill | test_docformatter.py:172-187 | greedy filling keeps every word in order, puts at least one word on each line, keeps each multi-word line within the width, and fills every line but the last |
| Wrap.WrapWords | test_docformatter.py:172-187 | wrapping keeps the words in order and every multi-word line fits; a width of zero or less keeps all words on one line |
| Wrap.LineTexts | test_docformatter.py:172-187 | each printed line is its words joined by single spaces |
| Wrap.Indented | test_docformatter.py:172-187 | every line is given the indentation |
| Wrap.IndentJoin | test_docformatter.py:172-187 | joining lines with newline-plus-indentation after one leading indentation is the same as indenting every line |
| Wrap.WrapBound | test_docformatter.py:172-187 | for every width and indentation, each output line holding more than one word is at most the width long, counting the indentation |
| Wrap.WrapLines | test_docformatter.py:172-187 | each printed line of the wrapped text is the indentation followed by one group of words, so continuation lines start with the indentation |
| Wrap.WrapKeepsWords | test_docformatter.py:172-187 | wrapping changes only whitespace: the words of the output are the input words |
| Wrap.WrapEnds | test_docformatter.py:172-187 | the wrapped text starts with the first word and ends with the last |
| Wrap.RenderUnwrapped | test_docformatter.py:49-170 | without a wrap length the words come back single-spaced on one line |
| Format.Reindent | test_docformatter.py:67-98 | every description line is given the indentation unless it already starts with whitespace, and trailing whitespace is stripped |
| Format.FormatDocstring | test_docformatter.py:49-170 | formatting succeeds exactly when stripping succeeds; a body holding `"""` comes back unchanged |
| Format.QuotedWords | test_docformatter.py:49-65 | quotes glued to the first and last words keep the words valid, and the text splits back into those words |
| Format.EmptyBody | test_docformatter.py:134-136 | a docstring whose body is blank formats to `""""""` |
| Format.EmptyFixedPoint | test_docformatter.py:134-136 | `""""""` is a fixed point for every indentation and option |
| Format.SummaryOnly | test_docformatter.py:49-65 | without wrapping, a body with no boundary formats to `"""`, the normalised summary, and `"""` on one line |
| Format.SummaryOnlyWords | test_docformatter.py:49-65 | at any wrap length, the words of a summary-only docstring are the normalised words, with the quotes glued to the first and last |
| Format.SummaryOnlyWrapBound | test_docformatter.py:172-187 | a wrapped summary-only docstring keeps every multi-word line within the wrap length |
| Format.SummaryOnlyTerminated | test_docformatter.py:49-65 | at any wrap length, the character right before the closing quotes of a lone summary is `.`, `?` or `!` |
| Format.QuotedEndTerminated | test_docformatter.py:49-65 | wrapping a terminated, single-spaced summary between triple double quotes leaves the terminator as the fourth character from the end, directly before the closing quotes |
| Format.SummaryBlockTerminated | test_docformatter.py:116-132 | the summary block ends in `.`, `?` or `!`, with or without the newline after the opening quotes |
| Format.DescribedSummaryTerminated | test_docformatter.py:67-132 | with a description, the output starts with the summary block, which ends in a terminator, followed by a blank line |
| Format.DoubleQuotes | test_docformatter.py:147-170 | every reformatted docstring opens and closes with `"""`, whichever quotes the input used |
| Format.LayoutQuotes | test_docformatter.py:147-170 | both layouts open and close with `"""` |
| Format.SummaryBlockQuotes | test_docformatter.py:116-132 | the summary block opens with `"""`, with or without the newline before the summary |
| Format.ReindentLine | test_docformatter.py:67-98 | re-indenting a line keeps its words, leaves no trailing whitespace, and puts the indentation before a line that started with text |
| Format.ReindentKeepsText | test_docformatter.py:67-98 | the same for every description line |
| Format.ReindentNoNewline | test_docformatter.py:67-98 | re-indented lines hold no line break |
| Format.DescriptionLines | test_docformatter.py:67-132 | with a description, the lines are the summary block, one blank line, the re-indented description lines, an optional blank line and the closing quotes |
| Format.ClosingSplit | test_docformatter.py:100-114 | the closing is a blank line (only when the post-description blank is on) and the quotes at the indentation |
| Format.SummaryBlockLines | test_docformatter.py:116-132 | without wrapping, the summary block is one line `"""Summary.`, or two lines `"""` and the indented summary when the pre-summary newline is on |
| Format.DescriptionLayout | test_docformatter.py:67-132 | for any docstring with a description, its printed lines are the summary line(s), a blank line, the re-indented description lines, the optional blank line and the closing quotes |
| Format.SummaryBlockWrapBound | test_docformatter.py:172-187 | the summary block keeps every multi-word line within the wrap length, in both the inline and the pre-summary-newline form |
| Format.LettersWrapBound | test_docformatter.py:172-187 | for every body of letters and spaces between triple quotes, every indentation and every positive wrap length, each multi-word output line fits |
| Format.OneWordDocstring | test_docformatter.py:49-65 | a one-word body between blank lines formats to that word, terminated, between `"""` quotes |
| Format.SentenceDocstring | test_docformatter.py:49-56 | a one-sentence body formats to that sentence between `"""` quotes |
| Format.DescribedDocstring | test_docformatter.py:67-132 | a sentence followed by description lines formats to the opening, a blank line, the re-indented lines, and the closing |
| Format.WrappedSummaryDocstring | test_docformatter.py:359-376 | without wrapping, a summary spread over two lines becomes one line, followed by a blank line, the re-indented description lines and the closing |
| Format.Layout | test_docformatter.py:67-132 | with a description, the output opens with the summary block and a blank line and ends with a line break, the indentation and `"""` |
| Format.TailCloses | test_docformatter.py:100-114 | with or without the post-description blank, the description part ends with a line break, the indentation and `"""` |
| Format.DescribedBody | test_docformatter.py:67-132 | the body of such a docstring strips to summary, gap and description, and holds no `"""` |
| Format.DescribedLayout | test_docformatter.py:67-132 | the layout of a normalised summary and a description is opening, blank line, re-indented lines, closing |
| Format.IndentStripped | test_docformatter.py:67-98 | a line at the margin with trailing blanks is indented and stripped |
| Format.IndentKept | test_docformatter.py:67-82 | an already indented line is kept as it is |
| Code.Rewrite | test_docformatter.py:189-476 | only docstring tokens change: kinds and leading text stay, every token that plays no docstring role is copied, and a changed docstring token holds its reformatted text |
| Code.FormatCode | test_docformatter.py:189-476 | the one-pass loop over tokens, which remembers only the previous token and whether only comments and line ends were seen, produces the text of the rewritten token sequence |
| Code.RoleOf | test_docformatter.py:189-476 | a literal is a docstring only when it opens with bare triple quotes and either directly follows an indentation, whose text becomes its indentation, or is preceded only by comments and line ends, with no indentation; both conditions are also sufficient |
| Code.PrefixedLiteralCopied | test_docformatter.py:280-312 | a literal whose first character is not a quote, such as an `r` prefix, is not a docstring and is copied |
| Code.LaterLiteralCopied | test_docformatter.py:431-476 | a literal that does not directly follow an indentation, once code has been seen, is not a docstring and is copied |
| Code.BlockDocstringRewritten | test_docformatter.py:189-201 | a triple-quoted literal directly after an indentation keeps its kind and leading text and gets the docstring reformatted at that indentation |
| Code.ModuleDocstringRewritten | test_docformatter.py:189-206 | a triple-quoted literal preceded only by comments and line ends gets the docstring reformatted with no indentation |
| Code.TokenText | test_docformatter.py:189-476 | one step of that loop writes the same text as the role-based definition |
| Code.UntokenizeConcat | test_docformatter.py:189-476 | the text of two token runs is the two texts concatenated |
| Code.NoDocstringUnchanged | test_docformatter.py:424-441 | a token sequence with no docstring comes back byte-identical |
| Code.RewriteSplices | test_docformatter.py:189-476 | with one docstring, the output is the source before it, its new text, and the source after it, unchanged |
| Code.EmptySource | test_docformatter.py:203-206 | the empty source formats to the empty string |
| Examples.StripDoubleExample | test_docformatter.py:26-34 | the `"""` example strips to `Hello.` |
| Examples.StripSingleExample | test_docformatter.py:36-44 | the `'''` example strips to `Hello.` |
| Examples.StripEmptyExample | test_docformatter.py:46-47 | `""""""` strips to the empty string |
| Examples.NormalizeExample | test_docformatter.py:516-519 | the blanks of the example collapse and a period is added |
| Examples.NormalizeQuestionExample | test_docformatter.py:521-525 | a summary ending in `?` keeps it and gains no period |
| Examples.SplitExample | test_docformatter.py:478-482 | the first sentence is the summary |
| Examples.SplitBlankLineExample | test_docformatter.py:484-488 | a blank line ends the summary |
| Examples.SplitLineEndExample | test_docformatter.py:490-494 | a period at the end of a line ends the summary |
| Examples.SplitListExample | test_docformatter.py:496-500 | a `-` line starts the description |
| Examples.SplitFieldExample | test_docformatter.py:502-508 | an `@` line after a two-line summary starts the description |
| Examples.SplitOtherSymbolExample | test_docformatter.py:510-514 | an `@` line directly after the summary starts the description |
| Examples.FormatExample | test_docformatter.py:49-56 | blank lines around a one-line summary go |
| Examples.QuoteEndingExample | test_docformatter.py:58-65 | the period goes after a summary's own closing quote |
| Examples.EmptyExample | test_docformatter.py:134-136 | `""""""` formats to itself |
| Examples.NoPeriodExample | test_docformatter.py:138-145 | a missing period is added |
| Examples.SingleQuotesExample | test_docformatter.py:147-154 | `'''` becomes `"""` |
| Examples.NoPostBlankExample | test_docformatter.py:100-114 | without the post-description blank the closing quotes follow the description directly |
| Examples.PreSummaryNewlineExample | test_docformatter.py:116-132 | with the pre-summary newline the summary starts on the next line at the indentation |
| Examples.SingleQuotesMultilineExample | test_docformatter.py:156-170 | a `'''` docstring with a description is re-quoted with `"""` and laid out |
| Examples.BadIndentationExample | test_docformatter.py:67-82 | description lines at the margin are indented and an indented one is kept |
| Examples.TrailingWhitespaceExample | test_docformatter.py:84-98 | trailing blanks and tabs go from every line |
| CodeExamples.FooRewrite | test_docformatter.py:189-476 | in a function body the first literal is reformatted exactly when it opens with bare triple quotes, and the rest is copied |
| CodeExamples.SentenceAt | test_docformatter.py:189-201 | a one-sentence docstring in a function is rewritten to `"""Sentence."""` and the rest of the file is copied |
| CodeExamples.DescribedAt | test_docformatter.py:322-357 | a docstring with a sentence and a description line in a function is laid out and the rest of the file is copied |
| CodeExamples.FormatCodeExample | test_docformatter.py:189-201 | the example file, with its docstring rewritten |
| CodeExamples.TabsExample | test_docformatter.py:208-224 | tab-indented code after the docstring is copied |
| CodeExamples.MixedTabsExample | test_docformatter.py:226-242 | mixed tab and space indentation is copied |
| CodeExamples.EscapedNewlinesExample | test_docformatter.py:244-258 | a backslash continuation is copied |
| CodeExamples.CommentsExample | test_docformatter.py:260-278 | comments after the docstring are copied |
| CodeExamples.SkipRawExample | test_docformatter.py:280-295 | an `r"""` docstring is copied |
| CodeExamples.SkipRawSingleExample | test_docformatter.py:297-312 | an `r'''` docstring is copied |
| CodeExamples.SkipNestedExample | test_docformatter.py:314-320 | a `'''` docstring holding `"""` is copied |
| CodeExamples.MultipleSentencesExample | test_docformatter.py:322-339 | the second line becomes the description |
| CodeExamples.SameLineExample | test_docformatter.py:341-357 | the second sentence on the same line becomes the description |
| CodeExamples.WrappedSummaryReformat | test_docformatter.py:359-422 | with the default options, a docstring whose summary spans two lines and is followed by description lines becomes the joined summary, a blank line, the re-indented lines, a blank line and the closing |
| CodeExamples.MultilineSummaryExample | test_docformatter.py:359-376 | the example file with a two-line summary, with its docstring rewritten and the rest copied |
| CodeExamples.EmptyLinesReformat | test_docformatter.py:378-422 | the docstring of the empty-lines and trailing-whitespace tests reformats to the same text whether or not its lines carry trailing tabs |
| CodeExamples.EmptyLinesExample | test_docformatter.py:378-399 | the blank line inside the description is kept and the rest of the file is copied |
| CodeExamples.TrailingTabsExample | test_docformatter.py:401-422 | trailing tabs inside the docstring go and the rest of the file is copied |
| CodeExamples.NoDocstringExample | test_docformatter.py:424-429 | a single-quoted string is copied |
| CodeExamples.AssignmentExample | test_docformatter.py:431-441 | a triple-quoted literal assigned on the first line of a body is copied with the whole file |
| CodeExamples.LaterStringsText | test_docformatter.py:443-476 | the text after the docstring holds the assigned literal and the later stand-alone literal |
| CodeExamples.RegularStringsExample | test_docformatter.py:443-476 | whatever the docstring becomes, the assigned and the later stand-alone triple-quoted literals are copied byte for byte |
| CodeExamples.RegularStringsFullExample | test_docformatter.py:443-476 | the whole expected file: the docstring laid out and both later literals copied |
| Stability.ListSummaryFirstPass | test_docformatter.py:172-187 | at wrap length 8, `"""aaaa - b"""` wraps so that its second line opens with `-` |
| Stability.ListSummarySecondPass | test_docformatter.py:496-500 | formatting that output again reads the `- b.` line as the description |
| Stability.WrappedNotIdempotent | test_docformatter.py:172-187 | with summary wrapping on, formatting twice can differ from formatting once |
| Stability.NormalSentence | test_docformatter.py:516-525 | a one-sentence summary normalises to one sentence, which normalising again keeps |
| Stability.UnwrappedSentenceStable | test_docformatter.py:49-56 | without wrapping, a one-sentence docstring formats to `"""Sentence."""`, and formatting that again gives the same text |

## Left out

- The Python tokenizer and untokenizer. A token sequence is an input, and token positions are reduced to the text between tokens. The line and column shifts after an edit follow from concatenation.
- The command line, unified diff output, in-place writing, error reporting for missing files, encoding detection, file discovery and hidden-directory skipping. All of these are I/O.
- The random docstring generator and temporary-file helpers. The randomised wrap test is replaced by `Format.LettersWrapBound` and `Wrap.WrapBound`, which hold for every width and indentation.
- Description wrapping. No test exercises it.
- Wrap.WrapWords: never splits a word. Python's `textwrap` would break long words and hyphenated words; no test here shows that.
- Text.IsSpace: the blanks are only space, `\t`, `\n`, `\r`, `\x0b` and `\x0c`. Python's `str.split()` and `str.strip()` also treat `\x1c`-`\x1f` and the non-ASCII spaces as whitespace; here those characters are part of words.
- Docstring.StripDocstring: a literal that does not open and close with triple quotes gives `None`. No test passes such a literal to `strip_docstring`; `format_code` copies such a token (test lines 424-429), and `Code.Reformat` does the same for `None`.
- Format.FormatDocstring: a body holding `"""` is returned unchanged. The only test of this case is the skip-nested test at lines 314-320, which shows the literal copied.
- Format.FormatDocstring: `pre_summary_newline` applies only when there is a description; a lone summary stays `"""Summary."""` on one line whatever the option (`Format.SummaryOnly`). No test sets the option on a docstring without a description.
- Format.Defaults: summary wrapping is off (wrap length 0) when no options are given. The unit tests at lines 49-170 pass no wrap length, and every summary there is a few words long, so they cannot tell this choice from a fixed default column count.
- Format.FormatDocstring: the blank line before the closing quotes appears only when `post_description_blank` is set. The tests at lines 100-114 and 642-675 omit the blank when the option is off.
- Code.RoleOf: a string standing alone later in a body is not a docstring. The test at lines 443-476 leaves such a string untouched.
- Code.RoleOf: the module docstring is the first literal preceded only by comments and line ends. No unit test covers it.
- Format.FormatDocstring: formatting again is stable only when no wrapped summary line opens with a list marker (`-` or `@`). `Stability.WrappedNotIdempotent` gives a counterexample at wrap length 8: `"""aaaa - b"""` becomes `"""aaaa` / `- b."""`, and that becomes `"""aaaa.`, a blank line, `- b.`, a blank line and `"""`. Idempotence is proved only for `""""""` (`Format.EmptyFixedPoint`) and, without wrapping, for one-sentence docstrings (`Stability.UnwrappedSentenceStable`).
- Docstring.SentenceCut: any `.`, `?` or `!` followed by any whitespace ends the summary, with no exception for abbreviations. So `"""Use e.g. this one"""` becomes `"""Use e.g.`, a blank line, `this one`, a blank line and `"""`. The tests at lines 478-482 and 490-494 only show sentence ends.
- Long example strings are written as concatenations of shorter pieces. The value is the same.
