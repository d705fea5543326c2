/**
 * Quoting a password for `echo '<password>' | sudo -S ...`, and the reading the shell gives
 * such a word back, after IEEE Std 1003.1 (POSIX), Shell Command Language, section 2.2.2
 * "Single-Quotes" and section 2.2.3 "Double-Quotes".
 */
module Shell {
  import opened Wrappers

  const Quote := '\''
  const DoubleQuote := '"'

  /** The password made safe for single quotes: each single quote becomes close-quote, a double-quoted quote, reopen-quote. */
  function Escape(pwd: string): (r: string) {
    if pwd == [] then [] else EscapeChar(pwd[0]) + Escape(pwd[1..])
  }

  function EscapeChar(c: char): (r: string) {
    if c == Quote then [Quote, DoubleQuote, Quote, DoubleQuote, Quote] else [c]
  }

  /** The password as the one word `'<safe>'`. */
  function QuotedWord(pwd: string): (r: string) {
    [Quote] + Escape(pwd) + [Quote]
  }

  // ---------------------------------------------------------------------------
  // Reading a word back
  // ---------------------------------------------------------------------------

  /** Where the reader is: outside quotes, inside single quotes, inside double quotes. */
  datatype QuoteState = Unquoted | InSingleQuotes | InDoubleQuotes

  /** Characters that keep a special meaning inside double quotes (section 2.2.3). */
  predicate SpecialInDoubleQuotes(c: char) {
    c == '$' || c == '`' || c == '\\'
  }

  /** Characters that end or change an unquoted word: blanks, operators, escape and expansion characters. */
  predicate SpecialUnquoted(c: char) {
    c == ' ' || c == '\t' || c == '\n' || c == '|' || c == '&' || c == ';' || c == '<' || c == '>'
    || c == '(' || c == ')' || c == '$' || c == '`' || c == '\\'
    || c == '*' || c == '?' || c == '[' || c == '#' || c == '~'
  }

  function Prepend(p: string, rest: Option<string>): (r: Option<string>) {
    if rest.Some? then Some(p + rest.value) else None
  }

  /**
   * The literal text of the rest of a word, read from state `st`, or None when it is not one
   * plain word: a quote left open, an expansion or escape inside double quotes, or an unquoted
   * special character. Inside single quotes every character but the closing quote stands for
   * itself; inside double quotes likewise, unless it is special there.
   */
  function Read(s: string, st: QuoteState): (r: Option<string>)
    decreases |s|
  {
    if s == [] then (if st == Unquoted then Some([]) else None)
    else match st
      case InSingleQuotes =>
        if s[0] == Quote then Read(s[1..], Unquoted) else Prepend([s[0]], Read(s[1..], InSingleQuotes))
      case InDoubleQuotes =>
        if s[0] == DoubleQuote then Read(s[1..], Unquoted)
        else if SpecialInDoubleQuotes(s[0]) then None
        else Prepend([s[0]], Read(s[1..], InDoubleQuotes))
      case Unquoted =>
        if s[0] == Quote then Read(s[1..], InSingleQuotes)
        else if s[0] == DoubleQuote then Read(s[1..], InDoubleQuotes)
        else if SpecialUnquoted(s[0]) then None
        else Prepend([s[0]], Read(s[1..], Unquoted))
  }

  /** The literal text a shell word stands for. */
  function Unquote(s: string): (r: Option<string>) {
    Read(s, Unquoted)
  }

  lemma PrependPrepend(a: string, b: string, x: Option<string>)
    ensures Prepend(a, Prepend(b, x)) == Prepend(a + b, x)
  {
    if x.Some? {
      assert a + (b + x.value) == a + b + x.value;
    }
  }

  /** Inside single quotes, `'"'"'` reads as one single quote and leaves the reader inside single quotes. */
  lemma ReadQuoteGroup(after: string)
    ensures Read([Quote, DoubleQuote, Quote, DoubleQuote, Quote] + after, InSingleQuotes)
            == Prepend([Quote], Read(after, InSingleQuotes))
  {
    var w := [Quote, DoubleQuote, Quote, DoubleQuote, Quote] + after;
    var w1 := [DoubleQuote, Quote, DoubleQuote, Quote] + after;
    var w2 := [Quote, DoubleQuote, Quote] + after;
    var w3 := [DoubleQuote, Quote] + after;
    var w4 := [Quote] + after;
    assert w[1..] == w1 && w1[1..] == w2 && w2[1..] == w3 && w3[1..] == w4 && w4[1..] == after;
    assert Read(w, InSingleQuotes) == Read(w1, Unquoted);
    assert Read(w1, Unquoted) == Read(w2, InDoubleQuotes);
    assert Read(w2, InDoubleQuotes) == Prepend([Quote], Read(w3, InDoubleQuotes));
    assert Read(w3, InDoubleQuotes) == Read(w4, Unquoted);
  }

  /**
   * Inside single quotes, the quoting of `rest` followed by the closing quote reads as `rest`,
   * and reading goes on outside quotes.
   */
  lemma {:induction false} ReadEscaped(rest: string, t: string)
    ensures Read(Escape(rest) + [Quote] + t, InSingleQuotes) == Prepend(rest, Read(t, Unquoted))
    decreases |rest|
  {
    var w := Escape(rest) + [Quote] + t;
    if rest == [] {
      assert w == [Quote] + t;
      assert w[1..] == t;
      var r := Read(t, Unquoted);
      if r.Some? {
        assert [] + r.value == r.value;
      }
    } else {
      var c := rest[0];
      var after := Escape(rest[1..]) + [Quote] + t;
      assert w == EscapeChar(c) + after;
      ReadEscapedChar(c, after);
      ReadEscaped(rest[1..], t);
      PrependPrepend([c], rest[1..], Read(t, Unquoted));
      assert [c] + rest[1..] == rest;
    }
  }

  /** Inside single quotes, the quoting of one character reads as that character. */
  lemma ReadEscapedChar(c: char, after: string)
    ensures Read(EscapeChar(c) + after, InSingleQuotes) == Prepend([c], Read(after, InSingleQuotes))
  {
    if c == Quote {
      ReadQuoteGroup(after);
    } else {
      assert ([c] + after)[1..] == after;
    }
  }

  /** The shell reads the quoted password back as exactly the password. */
  lemma QuotedWordRoundTrip(pwd: string)
    ensures Unquote(QuotedWord(pwd)) == Some(pwd)
  {
    var w := QuotedWord(pwd);
    assert w[1..] == Escape(pwd) + [Quote] + [];
    ReadEscaped(pwd, []);
    assert pwd + [] == pwd;
  }

  /** Different passwords are quoted differently. */
  lemma EscapeInjective(a: string, b: string)
    requires Escape(a) == Escape(b)
    ensures a == b
  {
    QuotedWordRoundTrip(a);
    QuotedWordRoundTrip(b);
  }

  /** A password without single quotes is left as it is. */
  lemma {:induction false} EscapeWithoutQuotes(pwd: string)
    requires Quote !in pwd
    ensures Escape(pwd) == pwd
  {
    if pwd != [] {
      assert Quote !in pwd[1..];
      EscapeWithoutQuotes(pwd[1..]);
      assert pwd == [pwd[0]] + pwd[1..];
    }
  }

  /** Each single quote of the password costs four more characters; every other character is kept as one. */
  lemma {:induction false} EscapeLength(pwd: string)
    ensures |Escape(pwd)| == |pwd| + 4 * multiset(pwd)[Quote]
  {
    if pwd != [] {
      EscapeLength(pwd[1..]);
      assert pwd == [pwd[0]] + pwd[1..];
      assert multiset(pwd) == multiset([pwd[0]]) + multiset(pwd[1..]);
    }
  }
}
