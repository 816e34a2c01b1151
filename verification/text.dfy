/**
  String helpers shared by the docstring pipeline: whitespace, trimming,
  word splitting and joining, line splitting. Strings are `seq<char>`.
  The blanks are exactly space, tab, line feed, carriage return, vertical
  tab and form feed.
 */
module Text {

  predicate IsSpace(c: char) {
    c == ' ' || c == '\t' || c == '\n' || c == '\r' || c == '\U{000B}' || c == '\U{000C}'
  }

  /** True iff every character of `s` is whitespace (vacuously for ""). */
  predicate AllSpace(s: string) {
    forall i :: 0 <= i < |s| ==> IsSpace(s[i])
  }

  /** True iff `s` has no whitespace character at all. */
  predicate NoSpace(s: string) {
    forall i :: 0 <= i < |s| ==> !IsSpace(s[i])
  }

  /** True iff `s` neither starts nor ends with whitespace. */
  predicate Trimmed(s: string) {
    |s| == 0 || (!IsSpace(s[0]) && !IsSpace(s[|s| - 1]))
  }

  predicate StartsWith(s: string, p: string) {
    |p| <= |s| && s[..|p|] == p
  }

  predicate EndsWith(s: string, p: string) {
    |p| <= |s| && s[|s| - |p|..] == p
  }

  /** True iff `p` occurs in `s` as a contiguous substring. */
  predicate Contains(s: string, p: string)
    decreases |s|
  {
    StartsWith(s, p) || (|s| > 0 && Contains(s[1..], p))
  }

  /** Python's `str.lstrip()`. */
  function TrimLeft(s: string): (r: string)
    ensures |r| <= |s|
    ensures |r| == 0 || !IsSpace(r[0])
    decreases |s|
  {
    if |s| > 0 && IsSpace(s[0]) then TrimLeft(s[1..]) else s
  }

  /** Python's `str.rstrip()`. */
  function TrimRight(s: string): (r: string)
    ensures |r| <= |s|
    ensures |r| == 0 || !IsSpace(r[|r| - 1])
    decreases |s|
  {
    if |s| > 0 && IsSpace(s[|s| - 1]) then TrimRight(s[..|s| - 1]) else s
  }

  /** Python's `str.strip()`: the result is the slice of `s` left after
      removing the whitespace on both ends. */
  function Trim(s: string): (r: string)
    ensures Trimmed(r)
    ensures |r| <= |s|
  {
    var right := TrimRight(s);
    TrimLeftSlice(right);
    TrimLeft(right)
  }

  /** `TrimLeft` drops a whitespace prefix and keeps the rest. */
  lemma {:induction false} TrimLeftSlice(s: string)
    ensures var r := TrimLeft(s);
      r == s[|s| - |r|..] && AllSpace(s[..|s| - |r|])
    decreases |s|
  {
    if |s| > 0 && IsSpace(s[0]) {
      TrimLeftSlice(s[1..]);
      var r := TrimLeft(s);
      assert s[1..][..|s| - 1 - |r|] == s[1..|s| - |r|];
      assert forall k :: 1 <= k < |s| - |r| ==> s[k] == s[1..][k - 1];
    }
  }

  /** `TrimRight` drops a whitespace suffix and keeps the rest. */
  lemma {:induction false} TrimRightSlice(s: string)
    ensures var r := TrimRight(s);
      r == s[..|r|] && AllSpace(s[|r|..])
    decreases |s|
  {
    if |s| > 0 && IsSpace(s[|s| - 1]) {
      var s' := s[..|s| - 1];
      TrimRightSlice(s');
      var r := TrimRight(s);
      assert forall k :: |r| <= k < |s| - 1 ==> s[k] == s'[k];
    }
  }

  /** The bounds of the slice `Trim` keeps. */
  lemma TrimBounds(s: string) returns (i: nat, j: nat)
    ensures i <= j <= |s| && Trim(s) == s[i..j]
    ensures AllSpace(s[..i]) && AllSpace(s[j..])
  {
    var right := TrimRight(s);
    TrimRightSlice(s);
    var r := TrimLeft(right);
    TrimLeftSlice(right);
    i, j := |right| - |r|, |right|;
    assert r == s[i..j];
    assert s[..i] == right[..|right| - |r|];
  }

  /** Two whitespace-only strings concatenate to one. */
  lemma AllSpaceConcat(a: string, b: string)
    requires AllSpace(a) && AllSpace(b)
    ensures AllSpace(a + b)
  {
    forall k | 0 <= k < |a + b| ensures IsSpace((a + b)[k]) {
      if k >= |a| {
        assert (a + b)[k] == b[k - |a|];
      }
    }
  }

  /** Removing whitespace that surrounds an already trimmed string gives it back. */
  lemma {:induction false} TrimPadded(a: string, c: string, b: string)
    requires AllSpace(a) && AllSpace(b) && Trimmed(c)
    ensures Trim(a + c + b) == c
  {
    if |c| == 0 {
      assert a + c + b == "" + (a + b);
      TrimRightPadded("", a + b);
    } else {
      TrimRightPadded(a + c, b);
      TrimLeftPadded(a, c);
    }
  }

  lemma {:induction false} TrimRightPadded(c: string, b: string)
    requires AllSpace(b) && (|c| == 0 || !IsSpace(c[|c| - 1]))
    ensures TrimRight(c + b) == c
    decreases |b|
  {
    if |b| > 0 {
      var b' := b[..|b| - 1];
      assert (c + b)[..|c + b| - 1] == c + b';
      TrimRightPadded(c, b');
    } else {
      assert c + b == c;
    }
  }

  lemma {:induction false} TrimLeftPadded(a: string, c: string)
    requires AllSpace(a) && (|c| == 0 || !IsSpace(c[0]))
    ensures TrimLeft(a + c) == c
    decreases |a|
  {
    if |a| > 0 {
      assert (a + c)[1..] == a[1..] + c;
      TrimLeftPadded(a[1..], c);
    } else {
      assert a + c == c;
    }
  }

  /** Length of the leading run of non-whitespace characters. */
  function WordLength(s: string): (n: nat)
    ensures 0 < n <= |s| || (n == 0 && (|s| == 0 || IsSpace(s[0])))
    ensures NoSpace(s[..n])
    ensures n == |s| || IsSpace(s[n])
    decreases |s|
  {
    if |s| == 0 || IsSpace(s[0]) then 0 else 1 + WordLength(s[1..])
  }

  /** Python's `str.split()` with no argument: the maximal runs of
      non-whitespace characters, in order. */
  function Words(s: string): (ws: seq<string>)
    ensures forall k :: 0 <= k < |ws| ==> |ws[k]| > 0 && NoSpace(ws[k])
    decreases |s|
  {
    if |s| == 0 then []
    else if IsSpace(s[0]) then Words(s[1..])
    else
      var n := WordLength(s);
      [s[..n]] + Words(s[n..])
  }

  /** `sep.join(parts)`. */
  function Join(parts: seq<string>, sep: string): string
    decreases |parts|
  {
    if |parts| == 0 then ""
    else if |parts| == 1 then parts[0]
    else parts[0] + sep + Join(parts[1..], sep)
  }

  lemma JoinTwo(a: string, b: string, sep: string)
    ensures Join([a, b], sep) == a + sep + b
  {
    assert [a, b][1..] == [b];
  }

  lemma JoinThree(a: string, b: string, c: string, sep: string)
    ensures Join([a, b, c], sep) == a + sep + b + sep + c
  {
    assert [a, b, c][1..] == [b, c];
    JoinTwo(b, c, sep);
  }

  /** Python's `s.split(sep)` for a one-character separator: the pieces
      between separators, empty ones included, so "" gives [""]. */
  function Split(s: string, sep: char): (parts: seq<string>)
    ensures |parts| > 0
    ensures forall k :: 0 <= k < |parts| ==> sep !in parts[k]
    decreases |s|
  {
    if |s| == 0 then [""]
    else
      var rest := Split(s[1..], sep);
      if s[0] == sep then [""] + rest
      else [[s[0]] + rest[0]] + rest[1..]
  }

  /** `Split` undoes `Join` when no piece contains the separator. */
  lemma {:induction false} SplitJoin(parts: seq<string>, sep: char)
    requires |parts| > 0
    requires forall k :: 0 <= k < |parts| ==> sep !in parts[k]
    ensures Split(Join(parts, [sep]), sep) == parts
    decreases |parts|
  {
    if |parts| == 1 {
      SplitNoSeparator(parts[0], sep);
    } else {
      SplitJoin(parts[1..], sep);
      SplitAround(parts[0], Join(parts[1..], [sep]), sep);
      assert [parts[0]] + parts[1..] == parts;
    }
  }

  lemma {:induction false} SplitNoSeparator(s: string, sep: char)
    requires sep !in s
    ensures Split(s, sep) == [s]
    decreases |s|
  {
    if |s| > 0 {
      assert sep !in s[1..] by {
        forall k | 0 <= k < |s[1..]| ensures s[1..][k] != sep {
          assert s[1..][k] == s[k + 1];
        }
      }
      SplitNoSeparator(s[1..], sep);
      assert [s[0]] + s[1..] == s;
    }
  }

  lemma {:induction false} SplitAround(a: string, b: string, sep: char)
    requires sep !in a
    ensures Split(a + [sep] + b, sep) == [a] + Split(b, sep)
    decreases |a|
  {
    if |a| == 0 {
      assert a + [sep] + b == [sep] + b;
      assert ([sep] + b)[1..] == b;
    } else {
      assert (a + [sep] + b)[1..] == a[1..] + [sep] + b;
      assert sep !in a[1..] by {
        forall k | 0 <= k < |a[1..]| ensures a[1..][k] != sep {
          assert a[1..][k] == a[k + 1];
        }
      }
      SplitAround(a[1..], b, sep);
      assert [a[0]] + a[1..] == a;
    }
  }

  /** Splitting distributes over a separator: the pieces of the left part
      followed by those of the right part. */
  lemma {:induction false} SplitConcat(a: string, b: string, sep: char)
    ensures Split(a + [sep] + b, sep) == Split(a, sep) + Split(b, sep)
    decreases |a|
  {
    var s := a + [sep] + b;
    if |a| == 0 {
      assert s == [sep] + b;
      assert s[1..] == b;
    } else {
      assert s[1..] == a[1..] + [sep] + b;
      SplitConcat(a[1..], b, sep);
    }
  }

  /** `Join` undoes `Split`: splitting loses nothing but the separators. */
  lemma {:induction false} JoinSplit(s: string, sep: char)
    ensures Join(Split(s, sep), [sep]) == s
    decreases |s|
  {
    if |s| > 0 {
      var rest := Split(s[1..], sep);
      JoinSplit(s[1..], sep);
      if s[0] == sep {
        assert Join([""] + rest, [sep]) == "" + [sep] + Join(rest, [sep]);
        assert [s[0]] + s[1..] == s;
      } else {
        var parts := [[s[0]] + rest[0]] + rest[1..];
        if |rest| == 1 {
          assert Join(parts, [sep]) == [s[0]] + rest[0];
        } else {
          assert parts[1..] == rest[1..];
          assert Join(parts, [sep]) == [s[0]] + rest[0] + [sep] + Join(rest[1..], [sep]);
        }
        assert [s[0]] + s[1..] == s;
      }
    }
  }

  /** The word that starts a string is the whole leading non-blank run. */
  lemma {:induction false} WordLengthOf(w: string, rest: string)
    requires NoSpace(w)
    requires |rest| == 0 || IsSpace(rest[0])
    ensures WordLength(w + rest) == |w|
    decreases |w|
  {
    if |w| > 0 {
      assert (w + rest)[1..] == w[1..] + rest;
      WordLengthOf(w[1..], rest);
    } else {
      assert w + rest == rest;
    }
  }

  /** Words of a string that starts with whitespace are those of the rest. */
  lemma {:induction false} WordsSkipSpace(a: string, b: string)
    requires AllSpace(a)
    ensures Words(a + b) == Words(b)
    decreases |a|
  {
    if |a| > 0 {
      assert (a + b)[1..] == a[1..] + b;
      WordsSkipSpace(a[1..], b);
    } else {
      assert a + b == b;
    }
  }

  /** Words distribute over a concatenation that is cut at whitespace. */
  lemma {:induction false} WordsAppend(w: string, sp: string, rest: string)
    requires |w| > 0 && NoSpace(w)
    requires |sp| > 0 && AllSpace(sp)
    ensures Words(w + sp + rest) == [w] + Words(rest)
  {
    var s := w + sp + rest;
    WordLengthOf(w, sp + rest);
    assert s == w + (sp + rest);
    assert s[..|w|] == w;
    assert s[|w|..] == sp + rest;
    WordsSkipSpace(sp, rest);
  }

  /** `Words` undoes `Join` with a single space: the classic round trip. */
  lemma {:induction false} WordsJoin(ws: seq<string>)
    requires forall k :: 0 <= k < |ws| ==> |ws[k]| > 0 && NoSpace(ws[k])
    ensures Words(Join(ws, " ")) == ws
    decreases |ws|
  {
    if |ws| == 1 {
      WordLengthOf(ws[0], "");
      assert ws[0] + "" == ws[0];
      assert ws[0][..|ws[0]|] == ws[0];
      assert Words(ws[0][|ws[0]|..]) == [];
    } else if |ws| > 1 {
      WordsJoin(ws[1..]);
      WordsAppend(ws[0], " ", Join(ws[1..], " "));
      assert [ws[0]] + ws[1..] == ws;
    }
  }

  /** Words on both sides of a whitespace run are kept apart: the words
      of the whole are those of the left part followed by those of the
      right part. */
  lemma {:induction false} WordsAround(a: string, sp: string, b: string)
    requires |sp| > 0 && AllSpace(sp)
    ensures Words(a + sp + b) == Words(a) + Words(b)
    decreases |a|
  {
    var s := a + sp + b;
    if |a| == 0 {
      assert s == sp + b;
      WordsSkipSpace(sp, b);
    } else if IsSpace(a[0]) {
      assert s[1..] == a[1..] + sp + b;
      WordsAround(a[1..], sp, b);
    } else {
      var n := WordLength(a);
      var tail := a[n..] + sp + b;
      assert |tail| > 0 && IsSpace(tail[0]) by {
        if n < |a| { assert tail[0] == a[n]; } else { assert tail[0] == sp[0]; }
      }
      assert s == a[..n] + tail;
      WordLengthOf(a[..n], tail);
      assert s[..n] == a[..n];
      assert s[n..] == tail;
      WordsAround(a[n..], sp, b);
    }
  }

  /** Trailing whitespace adds no word. */
  lemma WordsTrailingSpace(a: string, b: string)
    requires AllSpace(b)
    ensures Words(a + b) == Words(a)
  {
    if |b| == 0 {
      assert a + b == a;
    } else {
      WordsAround(a, b, "");
      assert a + b + "" == a + b;
    }
  }

  /** `sep.join` of two non-empty lists is the two joins glued by `sep`. */
  lemma {:induction false} JoinConcat(a: seq<string>, b: seq<string>, sep: string)
    requires |a| > 0 && |b| > 0
    ensures Join(a + b, sep) == Join(a, sep) + sep + Join(b, sep)
    decreases |a|
  {
    if |a| == 1 {
      assert (a + b)[1..] == b;
    } else {
      assert (a + b)[1..] == a[1..] + b;
      JoinConcat(a[1..], b, sep);
    }
  }

  /** A joined text ends with its last part. */
  lemma {:induction false} JoinEndsWithLast(ws: seq<string>, sep: string)
    requires |ws| > 0
    ensures EndsWith(Join(ws, sep), ws[|ws| - 1])
    decreases |ws|
  {
    if |ws| > 1 {
      JoinEndsWithLast(ws[1..], sep);
      var rest := Join(ws[1..], sep);
      var l := ws[|ws| - 1];
      assert ws[1..][|ws[1..]| - 1] == l;
      var j := ws[0] + sep + rest;
      assert j[|j| - |l|..] == rest[|rest| - |l|..];
    }
  }

  /** Appending to the last part appends to the joined text. */
  lemma {:induction false} JoinExtendLast(ws: seq<string>, sep: string, x: string)
    requires |ws| > 0
    ensures Join(ws[..|ws| - 1] + [ws[|ws| - 1] + x], sep) == Join(ws, sep) + x
    decreases |ws|
  {
    var ws' := ws[..|ws| - 1] + [ws[|ws| - 1] + x];
    if |ws| > 1 {
      JoinExtendLast(ws[1..], sep, x);
      assert ws'[1..] == ws[1..][..|ws[1..]| - 1] + [ws[1..][|ws[1..]| - 1] + x];
      assert ws'[0] == ws[0];
    }
  }

  /** A joined text starts with its first part. */
  lemma JoinStartsWithFirst(ws: seq<string>, sep: string)
    requires |ws| > 0
    ensures StartsWith(Join(ws, sep), ws[0])
  {
    var j := Join(ws, sep);
    if |ws| > 1 {
      assert j == ws[0] + (sep + Join(ws[1..], sep));
      assert j[..|ws[0]|] == ws[0];
    }
  }

  /** Prefixing a joined text prefixes its first part. */
  lemma JoinPrefixFirst(ws: seq<string>, sep: string, p: string)
    requires |ws| > 0
    ensures p + Join(ws, sep) == Join([p + ws[0]] + ws[1..], sep)
  {
    var f := [p + ws[0]] + ws[1..];
    if |ws| > 1 {
      assert f[1..] == ws[1..];
    }
  }

  /** Joined words with single spaces: no leading, trailing or doubled blanks. */
  lemma {:induction false} JoinWordsTrimmed(ws: seq<string>)
    requires forall k :: 0 <= k < |ws| ==> |ws[k]| > 0 && NoSpace(ws[k])
    ensures Trimmed(Join(ws, " "))
    ensures |ws| > 0 ==> |Join(ws, " ")| > 0
    decreases |ws|
  {
    if |ws| > 1 {
      JoinWordsTrimmed(ws[1..]);
    }
  }

  /** A single word is its own only word. */
  lemma WordOf(w: string)
    requires |w| > 0 && NoSpace(w)
    ensures Words(w) == [w]
  {
    WordLengthOf(w, "");
    assert w + "" == w;
  }

  /** Leading whitespace before a trimmed string is all `Trim` removes. */
  lemma TrimLeading(a: string, c: string)
    requires AllSpace(a) && Trimmed(c)
    ensures Trim(a + c) == c
  {
    TrimPadded(a, c, "");
    assert a + c + "" == a + c;
  }

  /** Trailing whitespace after a trimmed string is all `Trim` removes. */
  lemma TrimTrailing(c: string, b: string)
    requires AllSpace(b) && Trimmed(c)
    ensures Trim(c + b) == c
  {
    TrimPadded("", c, b);
    assert "" + c + b == c + b;
  }

  /** A final newline makes no difference to `Trim`. */
  lemma TrimNewline(x: string)
    ensures Trim(x + "\n") == Trim(x)
  {
    assert (x + "\n")[..|x|] == x;
  }

  /** A string already trimmed is its own trim. */
  lemma TrimTrimmed(c: string)
    requires Trimmed(c)
    ensures Trim(c) == c
  {
    TrimPadded("", c, "");
    assert "" + c + "" == c;
  }

  /** A text holds whatever is written inside it. */
  lemma {:induction false} ContainsInside(a: string, p: string, b: string)
    ensures Contains(a + p + b, p)
    decreases |a|
  {
    if |a| == 0 {
      assert a + p + b == p + b;
      assert (p + b)[..|p|] == p;
    } else {
      assert (a + p + b)[1..] == a[1..] + p + b;
      ContainsInside(a[1..], p, b);
    }
  }

  lemma StartsWithTrans(a: string, b: string, c: string)
    requires StartsWith(a, b) && StartsWith(b, c)
    ensures StartsWith(a, c)
  {
    assert a[..|c|] == a[..|b|][..|c|];
  }

  lemma EndsWithTrans(a: string, b: string, c: string)
    requires EndsWith(a, b) && EndsWith(b, c)
    ensures EndsWith(a, c)
  {
    assert a[|a| - |c|..] == a[|a| - |b|..][|b| - |c|..];
  }

  lemma NoSpaceConcat(a: string, b: string)
    requires NoSpace(a) && NoSpace(b)
    ensures NoSpace(a + b)
  {
    forall k | 0 <= k < |a + b| ensures !IsSpace((a + b)[k]) {
      if k >= |a| { assert (a + b)[k] == b[k - |a|]; }
    }
  }

  lemma StartsWithAppend(a: string, b: string, p: string)
    requires StartsWith(a, p)
    ensures StartsWith(a + b, p)
  {
    assert (a + b)[..|p|] == a[..|p|];
  }

  lemma EndsWithAppend(a: string, b: string, p: string)
    requires EndsWith(b, p)
    ensures EndsWith(a + b, p)
  {
    assert (a + b)[|a + b| - |p|..] == b[|b| - |p|..];
  }

  lemma AppendAssoc<T>(a: seq<T>, b: seq<T>, c: seq<T>)
    ensures a + (b + c) == (a + b) + c
  {
  }

  /** Non-empty words without whitespace, as `Words` produces them. */
  predicate ValidWords(ws: seq<string>) {
    forall k :: 0 <= k < |ws| ==> |ws[k]| > 0 && NoSpace(ws[k])
  }

  /** An ASCII letter: the alphabet random test words are drawn from. */
  predicate IsLetter(c: char) {
    ('a' <= c <= 'z') || ('A' <= c <= 'Z')
  }
}
