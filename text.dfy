/**
 * The Python string operations the test scripts are built from, over `string`
 * (a sequence of Unicode scalar values, as a Python `str` is):
 * `sub in s`, `s.splitlines()`, `s.split()`, `s.split(c)`, `sep.join(parts)` and `str(n)`.
 */
module Text {

  // ---------------------------------------------------------------------------
  // Substrings
  // ---------------------------------------------------------------------------

  /** Python's `sub in s`: `sub` occurs in `s` as a contiguous block. */
  predicate Contains(s: string, sub: string) {
    exists i :: 0 <= i <= |s| && sub <= s[i..]
  }

  lemma ContainsAt(s: string, sub: string, i: nat)
    requires i <= |s| && sub <= s[i..]
    ensures Contains(s, sub)
  {
  }

  /** An occurrence inside `mid` is an occurrence inside any text that has `mid` in it. */
  lemma ContainsInfix(pre: string, mid: string, post: string, sub: string)
    requires Contains(mid, sub)
    ensures Contains(pre + mid + post, sub)
  {
    var i :| 0 <= i <= |mid| && sub <= mid[i..];
    var s := pre + mid + post;
    assert s[|pre| + i..] == mid[i..] + post;
    ContainsAt(s, sub, |pre| + i);
  }

  /** An occurrence in a suffix is an occurrence in the text. */
  lemma ContainsInSuffix(s: string, i: nat, sub: string)
    requires i <= |s| && Contains(s[i..], sub)
    ensures Contains(s, sub)
  {
    var m :| 0 <= m <= |s[i..]| && sub <= s[i..][m..];
    assert s[i..][m..] == s[i + m..];
    ContainsAt(s, sub, i + m);
  }

  /** Being a substring is transitive. */
  lemma ContainsTransitive(s: string, mid: string, sub: string)
    requires Contains(s, mid) && Contains(mid, sub)
    ensures Contains(s, sub)
  {
    var i :| 0 <= i <= |s| && mid <= s[i..];
    assert s == s[..i] + mid + s[i + |mid|..];
    ContainsInfix(s[..i], mid, s[i + |mid|..], sub);
  }

  /** A text without the first character of `sub` does not contain it. */
  lemma MissingFirstCharNotContained(s: string, sub: string)
    requires sub != [] && sub[0] !in s
    ensures !Contains(s, sub)
  {
    forall i | 0 <= i <= |s|
      ensures !(sub <= s[i..])
    {
      if i < |s| {
        assert s[i..][0] == s[i];
      }
    }
  }

  /** A text shorter than `sub` does not contain it. */
  lemma ShorterDoesNotContain(s: string, sub: string)
    requires |s| < |sub|
    ensures !Contains(s, sub)
  {
  }

  // ---------------------------------------------------------------------------
  // Lines: str.splitlines()
  // ---------------------------------------------------------------------------

  /** The line boundaries of `str.splitlines`: \n \v \f \r, \x1c \x1d \x1e, \x85, U+2028, U+2029. */
  predicate IsLineBreak(c: char) {
    '\n' <= c <= '\r' || '\U{1C}' <= c <= '\U{1E}' || c == '\U{85}' || c == '\U{2028}' || c == '\U{2029}'
  }

  /** The index of the first line boundary in `s`, or `|s|` when there is none. */
  function LineEnd(s: string): (k: nat)
    ensures k <= |s|
    ensures forall j :: 0 <= j < k ==> !IsLineBreak(s[j])
    ensures k < |s| ==> IsLineBreak(s[k])
  {
    if s == [] || IsLineBreak(s[0]) then 0 else 1 + LineEnd(s[1..])
  }

  /** The length of the boundary at `k`: two for a "\r\n" pair, else one. */
  function BreakLength(s: string, k: nat): (n: nat)
    requires k < |s|
    ensures 1 <= n && k + n <= |s|
  {
    if s[k] == '\r' && k + 1 < |s| && s[k + 1] == '\n' then 2 else 1
  }

  /**
   * `s.splitlines()`: the text between line boundaries, a "\r\n" pair counting as one
   * boundary, and no empty line after a final boundary.
   */
  function Lines(s: string): (r: seq<string>)
    decreases |s|
  {
    if s == [] then []
    else if LineEnd(s) == |s| then [s]
    else [s[..LineEnd(s)]] + Lines(s[LineEnd(s) + BreakLength(s, LineEnd(s))..])
  }

  predicate NoLineBreak(l: string) {
    forall j :: 0 <= j < |l| ==> !IsLineBreak(l[j])
  }

  /** No line holds a line boundary. */
  lemma {:induction false} LinesHaveNoBreak(s: string)
    ensures forall j :: 0 <= j < |Lines(s)| ==> NoLineBreak(Lines(s)[j])
    decreases |s|
  {
    if s != [] && LineEnd(s) < |s| {
      var k := LineEnd(s);
      LinesHaveNoBreak(s[k + BreakLength(s, k)..]);
    }
  }

  /** Line `j` is a piece of the text. */
  lemma {:induction false} LineIsInfix(s: string, j: nat)
    requires j < |Lines(s)|
    ensures Contains(s, Lines(s)[j])
    decreases |s|
  {
    var k := LineEnd(s);
    if k == |s| {
      ContainsAt(s, s, 0);
    } else if j == 0 {
      ContainsAt(s, s[..k], 0);
    } else {
      var next := k + BreakLength(s, k);
      var tail := s[next..];
      assert Lines(s) == [s[..k]] + Lines(tail);
      LineIsInfix(tail, j - 1);
      ContainsInSuffix(s, next, Lines(tail)[j - 1]);
    }
  }

  /** Every line is a piece of the text. */
  lemma LinesAreInfixes(s: string)
    ensures forall j :: 0 <= j < |Lines(s)| ==> Contains(s, Lines(s)[j])
  {
    forall j | 0 <= j < |Lines(s)|
      ensures Contains(s, Lines(s)[j])
    {
      LineIsInfix(s, j);
    }
  }

  /** A text without line boundaries is a single line (or none, when empty). */
  lemma LinesOfOneLine(l: string)
    requires l != [] && NoLineBreak(l)
    ensures Lines(l) == [l]
  {
    LineEndOf(l, "");
    assert l + "" == l;
  }

  /** LineEnd of `a + t` is `|a|` when `a` holds no boundary and `t` starts with one. */
  lemma {:induction false} LineEndOf(a: string, t: string)
    requires NoLineBreak(a) && (t == [] || IsLineBreak(t[0]))
    ensures LineEnd(a + t) == |a|
  {
    if a == [] {
      assert a + t == t;
    } else {
      assert (a + t)[0] == a[0];
      assert (a + t)[1..] == a[1..] + t;
      assert NoLineBreak(a[1..]) by {
        assert forall j :: 0 <= j < |a[1..]| ==> a[1..][j] == a[j + 1];
      }
      LineEndOf(a[1..], t);
    }
  }

  /**
   * `splitlines` undoes `"\n".join` for lines without boundaries whose last line is not
   * empty (an empty last line would leave a final "\n", after which there is no line).
   */
  lemma {:induction false} LinesOfJoin(ls: seq<string>)
    requires forall j :: 0 <= j < |ls| ==> NoLineBreak(ls[j])
    requires ls == [] || ls[|ls| - 1] != []
    ensures Lines(Join(ls, "\n")) == ls
  {
    if |ls| == 1 {
      LinesOfOneLine(ls[0]);
    } else if |ls| > 1 {
      var rest := Join(ls[1..], "\n");
      var s := Join(ls, "\n");
      assert s == ls[0] + ("\n" + rest);
      LineEndOf(ls[0], "\n" + rest);
      assert BreakLength(s, |ls[0]|) == 1;
      assert s[|ls[0]| + 1..] == rest;
      assert s[..|ls[0]|] == ls[0];
      LinesOfJoin(ls[1..]);
    }
  }

  // ---------------------------------------------------------------------------
  // Words: str.split() with no separator
  // ---------------------------------------------------------------------------

  /**
   * Python's `str.isspace` characters: \t \n \v \f \r, \x1c-\x1f, space, \x85, \xa0,
   * U+1680, U+2000-U+200A, U+2028, U+2029, U+202F, U+205F, U+3000.
   */
  predicate IsSpace(c: char) {
    || c == ' ' || '\t' <= c <= '\r' || '\U{1C}' <= c <= '\U{1F}'
    || c == '\U{85}' || c == '\U{A0}' || c == '\U{1680}' || '\U{2000}' <= c <= '\U{200A}'
    || c == '\U{2028}' || c == '\U{2029}' || c == '\U{202F}' || c == '\U{205F}' || c == '\U{3000}'
  }

  /** The index of the first whitespace character in `s`, or `|s|`. */
  function WordEnd(s: string): (k: nat)
    ensures k <= |s|
    ensures forall j :: 0 <= j < k ==> !IsSpace(s[j])
    ensures k < |s| ==> IsSpace(s[k])
  {
    if s == [] || IsSpace(s[0]) then 0 else 1 + WordEnd(s[1..])
  }

  /** `s.split()`: the maximal runs of non-whitespace characters, in order. */
  function Words(s: string): (r: seq<string>)
    decreases |s|
  {
    if s == [] then []
    else if IsSpace(s[0]) then Words(s[1..])
    else
      var k := WordEnd(s);
      [s[..k]] + Words(s[k..])
  }

  /** What `split()` can return: a non-empty string without whitespace. */
  predicate IsWord(w: string) {
    w != [] && forall j :: 0 <= j < |w| ==> !IsSpace(w[j])
  }

  lemma {:induction false} WordsAreWords(s: string)
    ensures forall j :: 0 <= j < |Words(s)| ==> IsWord(Words(s)[j])
    decreases |s|
  {
    if s != [] {
      if IsSpace(s[0]) {
        WordsAreWords(s[1..]);
      } else {
        WordsAreWords(s[WordEnd(s)..]);
      }
    }
  }

  lemma {:induction false} WordEndOf(w: string, t: string)
    requires forall j :: 0 <= j < |w| ==> !IsSpace(w[j])
    requires t == [] || IsSpace(t[0])
    ensures WordEnd(w + t) == |w|
  {
    if w == [] {
      assert w + t == t;
    } else {
      assert (w + t)[0] == w[0];
      assert (w + t)[1..] == w[1..] + t;
      assert forall j :: 0 <= j < |w[1..]| ==> w[1..][j] == w[j + 1];
      WordEndOf(w[1..], t);
    }
  }

  /** `split()` undoes `" ".join` of words: the words are exactly the argument vector. */
  lemma {:induction false} WordsOfUnwords(ws: seq<string>)
    requires forall j :: 0 <= j < |ws| ==> IsWord(ws[j])
    ensures Words(Join(ws, " ")) == ws
  {
    if |ws| == 1 {
      WordEndOf(ws[0], "");
      assert ws[0] + "" == ws[0];
      assert ws[0][..|ws[0]|] == ws[0];
      assert ws[0][|ws[0]|..] == [];
    } else if |ws| > 1 {
      var rest := Join(ws[1..], " ");
      var s := Join(ws, " ");
      assert s == ws[0] + (" " + rest);
      WordEndOf(ws[0], " " + rest);
      assert s[..|ws[0]|] == ws[0];
      assert s[|ws[0]|..] == " " + rest;
      assert Words(" " + rest) == Words(rest) by {
        assert (" " + rest)[1..] == rest;
      }
      WordsOfUnwords(ws[1..]);
    }
  }

  // ---------------------------------------------------------------------------
  // Split on one character, and join
  // ---------------------------------------------------------------------------

  /** `s.split(sep)` for a one-character separator: empty pieces are kept. */
  function Split(s: string, sep: char): (r: seq<string>)
    ensures |r| >= 1
  {
    if s == [] then [""]
    else
      var rest := Split(s[1..], sep);
      if s[0] == sep then [""] + rest else [[s[0]] + rest[0]] + rest[1..]
  }

  /** `sep.join(parts)`. */
  function Join(parts: seq<string>, sep: string): (r: string) {
    if |parts| == 0 then ""
    else if |parts| == 1 then parts[0]
    else parts[0] + sep + Join(parts[1..], sep)
  }

  /** The pieces of a split hold no separator and only characters of the text, and joining them back gives the text. */
  lemma JoinCons(head: string, rest: seq<string>, sep: string)
    requires rest != []
    ensures Join([head] + rest, sep) == head + sep + Join(rest, sep)
  {
    assert ([head] + rest)[1..] == rest;
  }

  /** Every character of a join comes from the separator or from one of the parts. */
  lemma {:induction false} JoinChars(parts: seq<string>, sep: string, c: char)
    requires c in Join(parts, sep)
    ensures c in sep || exists j :: 0 <= j < |parts| && c in parts[j]
  {
    if |parts| > 1 {
      var rest := Join(parts[1..], sep);
      if c !in parts[0] && c !in sep {
        assert c in rest;
        JoinChars(parts[1..], sep, c);
        var j :| 0 <= j < |parts[1..]| && c in parts[1..][j];
        assert parts[1..][j] == parts[j + 1];
      }
    }
  }

  /** Words joined by single spaces hold no line boundary. */
  lemma JoinedWordsHaveNoBreak(ws: seq<string>)
    requires forall j :: 0 <= j < |ws| ==> IsWord(ws[j])
    ensures NoLineBreak(Join(ws, " "))
  {
    var s := Join(ws, " ");
    forall k | 0 <= k < |s|
      ensures !IsLineBreak(s[k])
    {
      JoinChars(ws, " ", s[k]);
      if s[k] !in " " {
        var j :| 0 <= j < |ws| && s[k] in ws[j];
        var m :| 0 <= m < |ws[j]| && ws[j][m] == s[k];
        assert !IsSpace(ws[j][m]);
      }
    }
  }

  /** Joining the pieces of a split with the separator gives the text back. */
  lemma {:induction false} JoinSplit(s: string, sep: char)
    ensures Join(Split(s, sep), [sep]) == s
  {
    if s != [] {
      var rest := Split(s[1..], sep);
      JoinSplit(s[1..], sep);
      if s[0] != sep && |rest| > 1 {
        assert Join(Split(s, sep), [sep]) == [s[0]] + rest[0] + [sep] + Join(rest[1..], [sep]);
      }
      assert s == [s[0]] + s[1..];
    }
  }

  /** The pieces of a split hold no separator and only characters of the text. */
  lemma {:induction false} SplitPieces(s: string, sep: char)
    ensures forall j, k :: 0 <= j < |Split(s, sep)| && 0 <= k < |Split(s, sep)[j]| ==>
              Split(s, sep)[j][k] != sep && Split(s, sep)[j][k] in s
  {
    if s != [] {
      var rest := Split(s[1..], sep);
      SplitPieces(s[1..], sep);
      assert forall c :: c in s[1..] ==> c in s;
      if s[0] != sep {
        var r := Split(s, sep);
        assert r == [[s[0]] + rest[0]] + rest[1..];
        forall j, k | 0 <= j < |r| && 0 <= k < |r[j]|
          ensures r[j][k] != sep && r[j][k] in s
        {
          if j == 0 {
            if k > 0 {
              assert r[0][k] == rest[0][k - 1];
            }
          } else {
            assert r[j] == rest[j];
          }
        }
      }
    }
  }

  lemma {:induction false} SplitPrefix(p: string, t: string, sep: char)
    requires sep !in p
    ensures Split(p + t, sep) == [p + Split(t, sep)[0]] + Split(t, sep)[1..]
  {
    if p == [] {
      var st := Split(t, sep);
      assert p + t == t && p + st[0] == st[0];
      assert st == [st[0]] + st[1..];
    } else {
      assert p[0] != sep;
      assert sep !in p[1..] by {
        assert forall x :: x in p[1..] ==> x in p;
      }
      SplitPrefix(p[1..], t, sep);
      assert (p + t)[0] == p[0];
      assert (p + t)[1..] == p[1..] + t;
      assert p == [p[0]] + p[1..];
      var st := Split(t, sep);
      var rest := Split(p[1..] + t, sep);
      assert rest == [p[1..] + st[0]] + st[1..];
      assert rest[0] == p[1..] + st[0] && rest[1..] == st[1..];
      assert Split(p + t, sep) == [[p[0]] + rest[0]] + rest[1..];
      assert [p[0]] + (p[1..] + st[0]) == p + st[0];
    }
  }

  /** `s.split(sep)` undoes `sep.join(parts)` when no part holds the separator. */
  lemma {:induction false} SplitJoin(parts: seq<string>, sep: char)
    requires |parts| >= 1
    requires forall j :: 0 <= j < |parts| ==> sep !in parts[j]
    ensures Split(Join(parts, [sep]), sep) == parts
  {
    if |parts| == 1 {
      SplitPrefix(parts[0], "", sep);
      assert parts[0] + "" == parts[0];
    } else {
      var rest := Join(parts[1..], [sep]);
      assert Join(parts, [sep]) == parts[0] + ([sep] + rest);
      assert forall j :: 0 <= j < |parts[1..]| ==> sep !in parts[1..][j];
      SplitJoin(parts[1..], sep);
      SplitPrefix(parts[0], [sep] + rest, sep);
      assert ([sep] + rest)[1..] == rest;
      assert Split([sep] + rest, sep) == [""] + parts[1..];
      assert parts[0] + "" == parts[0];
      assert parts == [parts[0]] + parts[1..];
    }
  }

  // ---------------------------------------------------------------------------
  // Decimal numerals: int(digits) and str(n)
  // ---------------------------------------------------------------------------

  predicate IsDigit(c: char) {
    '0' <= c <= '9'
  }

  predicate AllDigits(d: string) {
    forall j :: 0 <= j < |d| ==> IsDigit(d[j])
  }

  function DigitValue(c: char): (r: nat)
    requires IsDigit(c)
  {
    (c as int) - ('0' as int)
  }

  /** `int(d)` for a string of ASCII digits (leading zeros allowed). */
  function DigitsValue(d: string): (r: nat)
    requires AllDigits(d)
  {
    if d == [] then 0 else 10 * DigitsValue(d[..|d| - 1]) + DigitValue(d[|d| - 1])
  }

  function DigitChar(d: nat): (c: char)
    requires d < 10
    ensures IsDigit(c) && DigitValue(c) == d
  {
    (('0' as int) + d) as char
  }

  /** `str(n)` for a non-negative integer: its shortest decimal numeral. */
  function NatToString(n: nat): (r: string)
    ensures |r| >= 1 && AllDigits(r)
    ensures r[0] == '0' ==> n == 0
  {
    if n < 10 then [DigitChar(n)] else NatToString(n / 10) + [DigitChar(n % 10)]
  }

  /** Reading back the numeral `str(n)` gives `n`. */
  lemma {:induction false} NatToStringRoundTrip(n: nat)
    ensures DigitsValue(NatToString(n)) == n
  {
    if n >= 10 {
      NatToStringRoundTrip(n / 10);
      var r := NatToString(n);
      assert r[..|r| - 1] == NatToString(n / 10);
    }
  }

  /** `str(i)` for any integer. */
  function IntToString(i: int): (r: string) {
    if i < 0 then "-" + NatToString(-i) else NatToString(i)
  }

  lemma IntToStringIsWord(i: int)
    ensures IsWord(IntToString(i))
  {
    var d := NatToString(if i < 0 then -i else i);
    assert forall j :: 0 <= j < |d| ==> IsDigit(d[j]) && !IsSpace(d[j]);
  }
}
