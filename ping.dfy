/**
 * The ping helpers of the scripts: the packet loss read from the ping summary with the
 * regular expression `(\d+)% packet loss` (first match, 100 when there is none), the pass
 * verdict `loss == 0`, its comparison with the expected verdict, and the ping command line.
 */
module Ping {
  import opened Wrappers
  import opened Text

  /** The literal tail of the loss pattern. */
  const LossPhrase := "% packet loss"

  // ---------------------------------------------------------------------------
  // re.search(r"(\d+)% packet loss", output)
  // ---------------------------------------------------------------------------

  /** The regular expression matches at `i` with a group of `k` digits. */
  predicate PatternAt(s: string, i: nat, k: nat) {
    k >= 1 && i + k <= |s| && AllDigits(s[i..i + k]) && LossPhrase <= s[i + k..]
  }

  /** The end of the run of digits that starts at `i`. */
  function RunEnd(s: string, i: nat): (e: nat)
    requires i <= |s|
    ensures i <= e <= |s| && AllDigits(s[i..e])
    ensures e == |s| || !IsDigit(s[e])
    decreases |s| - i
  {
    if i < |s| && IsDigit(s[i]) then
      var e := RunEnd(s, i + 1);
      assert s[i..e] == [s[i]] + s[i + 1..e];
      e
    else i
  }

  /** The greedy group `\d+` starting at `i` is followed by the phrase. */
  predicate MatchAt(s: string, i: nat)
    requires i <= |s|
  {
    i < |s| && IsDigit(s[i]) && LossPhrase <= s[RunEnd(s, i)..]
  }

  /** A run of digits that stops before a non-digit (or the end) ends where `RunEnd` says. */
  lemma {:induction false} RunEndOfDigits(s: string, i: nat, j: nat)
    requires i <= j <= |s| && AllDigits(s[i..j])
    requires j == |s| || !IsDigit(s[j])
    ensures RunEnd(s, i) == j
    decreases j - i
  {
    if i < j {
      assert s[i] == s[i..j][0];
      assert s[i + 1..j] == s[i..j][1..];
      RunEndOfDigits(s, i + 1, j);
    }
  }

  /** A digit run starting at `i` cannot reach past a non-digit at `m`. */
  lemma {:induction false} RunEndBefore(s: string, i: nat, m: nat)
    requires i <= m < |s| && !IsDigit(s[m])
    ensures RunEnd(s, i) <= m
    decreases m - i
  {
    if i < m && IsDigit(s[i]) {
      RunEndBefore(s, i + 1, m);
    }
  }

  /**
   * The pattern matches at `i` exactly when `MatchAt` holds, and then only with the whole
   * digit run as its group: `% packet loss` starts with a non-digit, so backtracking the
   * greedy `\d+` never helps.
   */
  lemma PatternAtIsMatchAt(s: string, i: nat, k: nat)
    requires i <= |s|
    ensures PatternAt(s, i, k) ==> MatchAt(s, i) && i + k == RunEnd(s, i)
    ensures MatchAt(s, i) ==> PatternAt(s, i, RunEnd(s, i) - i)
  {
    if PatternAt(s, i, k) {
      assert s[i + k] == LossPhrase[0];
      RunEndOfDigits(s, i, i + k);
      assert s[i] == s[i..i + k][0];
    }
  }

  /** `re.search` from `from`: the leftmost position where the pattern matches. */
  function FirstMatch(s: string, from: nat): (r: Option<nat>)
    requires from <= |s|
    ensures r.Some? ==> from <= r.value < |s|
    decreases |s| - from
  {
    if from == |s| then None
    else if MatchAt(s, from) then Some(from)
    else FirstMatch(s, from + 1)
  }

  /** The search finds a match, and none before it; or it finds none because there is none. */
  lemma {:induction false} FirstMatchSpec(s: string, from: nat)
    requires from <= |s|
    ensures FirstMatch(s, from).Some? ==> MatchAt(s, FirstMatch(s, from).value)
    ensures FirstMatch(s, from).Some? ==> forall k :: from <= k < FirstMatch(s, from).value ==> !MatchAt(s, k)
    ensures FirstMatch(s, from).None? ==> forall k :: from <= k <= |s| ==> !MatchAt(s, k)
    decreases |s| - from
  {
    if from == |s| {
      assert FirstMatch(s, from) == None;
    } else if MatchAt(s, from) {
      assert FirstMatch(s, from) == Some(from);
    } else {
      FirstMatchSpec(s, from + 1);
      assert FirstMatch(s, from) == FirstMatch(s, from + 1);
    }
  }

  /**
   * The leftmost match starts at the beginning of a number, so the group is the whole
   * number in front of the `%` ("100% packet loss" is read as 100, not 0).
   */
  lemma LeftmostMatchTakesWholeNumber(s: string)
    requires FirstMatch(s, 0).Some?
    ensures var i := FirstMatch(s, 0).value; i == 0 || !IsDigit(s[i - 1])
  {
    var i := FirstMatch(s, 0).value;
    FirstMatchSpec(s, 0);
    if i > 0 && IsDigit(s[i - 1]) {
      assert RunEnd(s, i - 1) == RunEnd(s, i);
      assert MatchAt(s, i - 1);
      assert false;
    }
  }

  /** `loss = int(m.group(1)) if m else 100`. */
  function LossPercent(output: string): (r: nat) {
    match FirstMatch(output, 0)
    case Some(i) => DigitsValue(output[i..RunEnd(output, i)])
    case None => 100
  }

  /** `ping_passed = loss == 0`. */
  predicate PingPassed(output: string) {
    LossPercent(output) == 0
  }

  /** Output without the phrase (an error message, an empty reply) counts as total loss. */
  lemma NoReportMeansTotalLoss(output: string)
    requires !Contains(output, LossPhrase)
    ensures LossPercent(output) == 100
    ensures !PingPassed(output)
  {
    FirstMatchSpec(output, 0);
  }

  /**
   * The number written in front of the first "% packet loss" is the loss, when nothing
   * earlier could be read as one: the text before it has no '%' and does not end in a digit.
   */
  lemma LossOfReport(pre: string, n: nat, post: string)
    requires '%' !in pre
    requires pre == [] || !IsDigit(pre[|pre| - 1])
    ensures LossPercent(pre + NatToString(n) + LossPhrase + post) == n
    ensures PingPassed(pre + NatToString(n) + LossPhrase + post) <==> n == 0
  {
    var d := NatToString(n);
    var s := pre + d + LossPhrase + post;
    var i, j := |pre|, |pre| + |d|;
    assert s[i..j] == d;
    assert s[j..] == LossPhrase + post;
    assert forall k :: 0 <= k < i ==> s[k] == pre[k];
    LossAtNumber(s, i, j);
    NatToStringRoundTrip(n);
  }

  /**
   * When the digits `s[i..j]` are followed by the phrase, and no '%' and no digit run reaching
   * `i` comes before them, the loss is their value.
   */
  lemma LossAtNumber(s: string, i: nat, j: nat)
    requires i < j <= |s| && AllDigits(s[i..j]) && LossPhrase <= s[j..]
    requires i == 0 || !IsDigit(s[i - 1])
    requires forall k :: 0 <= k < i ==> s[k] != '%'
    ensures LossPercent(s) == DigitsValue(s[i..j])
  {
    assert MatchAt(s, i) && RunEnd(s, i) == j by {
      assert s[j] == LossPhrase[0];
      RunEndOfDigits(s, i, j);
      assert s[i] == s[i..j][0];
    }
    assert FirstMatch(s, 0) == Some(i) by {
      NoMatchBefore(s, i);
      FirstMatchSpec(s, 0);
    }
    LossOfMatch(s, i, j);
  }

  /** The loss is the value of the digit run at the first match. */
  lemma LossOfMatch(s: string, i: nat, e: nat)
    requires i <= e <= |s| && FirstMatch(s, 0) == Some(i) && RunEnd(s, i) == e
    ensures AllDigits(s[i..e]) && LossPercent(s) == DigitsValue(s[i..e])
  {
  }

  /** No match starts before `i` when no '%' comes before `i` and no digit run reaches `i`. */
  lemma NoMatchBefore(s: string, i: nat)
    requires i <= |s|
    requires i == 0 || !IsDigit(s[i - 1])
    requires forall k :: 0 <= k < i ==> s[k] != '%'
    ensures forall k :: 0 <= k < i ==> !MatchAt(s, k)
  {
    forall k | 0 <= k < i
      ensures !MatchAt(s, k)
    {
      if IsDigit(s[k]) {
        RunEndBefore(s, k, i - 1);
        var e := RunEnd(s, k);
        assert s[e] != LossPhrase[0];
      }
    }
  }

  /** The counters in front of the loss on the iputils ping summary line hold no '%' and end in a space. */
  lemma SummaryPrefixHoldsNoLoss(tx: nat, rx: nat)
    ensures var pre := NatToString(tx) + " packets transmitted, " + NatToString(rx) + " received, ";
      '%' !in pre && pre[|pre| - 1] == ' '
  {
    var a, b := NatToString(tx), NatToString(rx);
    var t, r := " packets transmitted, ", " received, ";
    assert '%' !in a && '%' !in b by {
      assert forall c :: c in a ==> IsDigit(c);
      assert forall c :: c in b ==> IsDigit(c);
    }
    assert '%' !in t && '%' !in r;
    var pre := a + t + b + r;
    assert pre[|pre| - 1] == r[|r| - 1];
  }

  /**
   * The summary line of iputils ping, "<tx> packets transmitted, <rx> received, <n>% packet loss...",
   * gives loss `n`.
   */
  lemma SummaryLineLoss(tx: nat, rx: nat, n: nat, rest: string)
    ensures LossPercent(NatToString(tx) + " packets transmitted, " + NatToString(rx) + " received, "
                        + NatToString(n) + LossPhrase + rest) == n
  {
    SummaryPrefixHoldsNoLoss(tx, rx);
    LossOfReport(NatToString(tx) + " packets transmitted, " + NatToString(rx) + " received, ", n, rest);
  }

  // ---------------------------------------------------------------------------
  // The expect_pass check of the scripts that take an expected verdict
  // ---------------------------------------------------------------------------

  /** How `ping_test` ends: it returns the verdict, or `assert False` fails with the loss logged. */
  datatype Outcome = Returned(passed: bool) | AssertionFailed(loss: nat)

  /**
   * `ping_test` with `expect_pass`: a verdict that differs from the expected one fails the
   * assertion; otherwise the verdict is returned, and it is then always the expected one.
   */
  function CheckExpectation(output: string, expectPass: bool): (r: Outcome)
    ensures r.AssertionFailed? <==> expectPass != PingPassed(output)
    ensures r.AssertionFailed? ==> r.loss == LossPercent(output)
    ensures r.Returned? ==> r.passed == expectPass == PingPassed(output)
  {
    var loss := LossPercent(output);
    var passed := loss == 0;
    if expectPass && !passed then AssertionFailed(loss)
    else if !expectPass && passed then AssertionFailed(loss)
    else Returned(passed)
  }

  /**
   * A test that expects the ping to fail is satisfied by any output without a loss report,
   * including the error text of a ping that never ran.
   */
  lemma NoReportSatisfiesNegativeTest(output: string)
    requires !Contains(output, LossPhrase)
    ensures CheckExpectation(output, false) == Returned(false)
    ensures CheckExpectation(output, true) == AssertionFailed(100)
  {
    NoReportMeansTotalLoss(output);
  }

  // ---------------------------------------------------------------------------
  // The ping command line with an optional source interface
  // ---------------------------------------------------------------------------

  /** `ping <dst> -I <src> -c <count> -s <size>`, or without `-I <src>` when no source is given. */
  function SourcedPingCommand(dst: string, size: int, count: int, src: Option<string>): (r: string) {
    if Given(src) then
      "ping " + dst + " -I " + src.value + " -c " + IntToString(count) + " -s " + IntToString(size)
    else
      "ping " + dst + " -c " + IntToString(count) + " -s " + IntToString(size)
  }

  /** The argument vector the command stands for. */
  function SourcedPingArguments(dst: string, size: int, count: int, src: Option<string>): (r: seq<string>) {
    ["ping", dst] + (if Given(src) then ["-I", src.value] else []) + ["-c", IntToString(count), "-s", IntToString(size)]
  }

  lemma JoinFour(a: string, b: string, c: string, d: string)
    ensures Join([a, b, c, d], " ") == a + " " + b + " " + c + " " + d
  {
    JoinCons(c, [d], " ");
    assert [c, d] == [c] + [d];
    JoinCons(b, [c, d], " ");
    assert [b, c, d] == [b] + [c, d];
    JoinCons(a, [b, c, d], " ");
    assert [a, b, c, d] == [a] + [b, c, d];
  }

  lemma JoinAppend(xs: seq<string>, ys: seq<string>)
    requires xs != [] && ys != []
    ensures Join(xs + ys, " ") == Join(xs, " ") + " " + Join(ys, " ")
    decreases |xs|
  {
    if |xs| == 1 {
      assert xs + ys == [xs[0]] + ys;
      JoinCons(xs[0], ys, " ");
    } else {
      assert xs + ys == [xs[0]] + (xs[1..] + ys);
      JoinCons(xs[0], xs[1..] + ys, " ");
      JoinAppend(xs[1..], ys);
      JoinCons(xs[0], xs[1..], " ");
      assert [xs[0]] + xs[1..] == xs;
    }
  }

  lemma OptionsTail(c: string, z: string)
    ensures " -c " + c + " -s " + z == " " + Join(["-c", c, "-s", z], " ")
  {
    JoinFour("-c", c, "-s", z);
  }

  lemma SourcedHead(dst: string, src: string)
    ensures "ping " + dst + " -I " + src == Join(["ping", dst, "-I", src], " ")
  {
    JoinFour("ping", dst, "-I", src);
  }

  lemma PlainHead(dst: string)
    ensures "ping " + dst == Join(["ping", dst], " ")
  {
    JoinCons("ping", [dst], " ");
    assert ["ping", dst] == ["ping"] + [dst];
  }

  lemma SourcedJoin(dst: string, src: string, c: string, z: string)
    ensures "ping " + dst + " -I " + src + " -c " + c + " -s " + z
            == Join(["ping", dst, "-I", src] + ["-c", c, "-s", z], " ")
  {
    var h, t := "ping " + dst + " -I " + src, " -c " + c + " -s " + z;
    assert "ping " + dst + " -I " + src + " -c " + c + " -s " + z == h + t;
    OptionsTail(c, z);
    SourcedHead(dst, src);
    JoinAppend(["ping", dst, "-I", src], ["-c", c, "-s", z]);
    assert h + t == h + " " + Join(["-c", c, "-s", z], " ");
  }

  lemma PlainJoin(dst: string, c: string, z: string)
    ensures "ping " + dst + " -c " + c + " -s " + z == Join(["ping", dst] + ["-c", c, "-s", z], " ")
  {
    var h, t := "ping " + dst, " -c " + c + " -s " + z;
    assert "ping " + dst + " -c " + c + " -s " + z == h + t;
    OptionsTail(c, z);
    PlainHead(dst);
    JoinAppend(["ping", dst], ["-c", c, "-s", z]);
    assert h + t == h + " " + Join(["-c", c, "-s", z], " ");
  }

  /** The command is its arguments joined by single spaces. */
  lemma SourcedPingCommandIsJoin(dst: string, size: int, count: int, src: Option<string>)
    ensures SourcedPingCommand(dst, size, count, src) == Join(SourcedPingArguments(dst, size, count, src), " ")
  {
    var c, z := IntToString(count), IntToString(size);
    if Given(src) {
      SourcedJoin(dst, src.value, c, z);
      assert SourcedPingArguments(dst, size, count, src) == ["ping", dst, "-I", src.value] + ["-c", c, "-s", z];
    } else {
      PlainJoin(dst, c, z);
      assert SourcedPingArguments(dst, size, count, src) == ["ping", dst] + ["-c", c, "-s", z];
    }
  }

  /** `split()` on the command gives back its arguments. */
  lemma SourcedPingCommandArguments(dst: string, size: int, count: int, src: Option<string>)
    requires IsWord(dst) && (Given(src) ==> IsWord(src.value))
    ensures Words(SourcedPingCommand(dst, size, count, src)) == SourcedPingArguments(dst, size, count, src)
  {
    SourcedPingCommandIsJoin(dst, size, count, src);
    IntToStringIsWord(count);
    IntToStringIsWord(size);
    var args := SourcedPingArguments(dst, size, count, src);
    assert forall j :: 0 <= j < |args| ==> IsWord(args[j]) by {
      if Given(src) {
        assert args == ["ping", dst, "-I", src.value, "-c", IntToString(count), "-s", IntToString(size)];
      } else {
        assert args == ["ping", dst, "-c", IntToString(count), "-s", IntToString(size)];
      }
    }
    WordsOfUnwords(args);
  }

  /** The command carries the `-I` option exactly when a source interface is given. */
  lemma SourceOptionIffGiven(dst: string, size: int, count: int, src: Option<string>)
    requires IsWord(dst) && dst != "-I" && (Given(src) ==> IsWord(src.value))
    ensures "-I" in Words(SourcedPingCommand(dst, size, count, src)) <==> Given(src)
  {
    SourcedPingCommandArguments(dst, size, count, src);
    SourceArgumentIffGiven(dst, size, count, src);
  }

  /** A number written as text is never the word `-I`. */
  lemma NumberIsNotSourceOption(i: int)
    ensures IntToString(i) != "-I"
  {
    var d := NatToString(if i < 0 then -i else i);
    assert IsDigit(d[0]);
    assert "-I"[1] == 'I';
  }

  lemma SourceArgumentIffGiven(dst: string, size: int, count: int, src: Option<string>)
    requires dst != "-I"
    ensures "-I" in SourcedPingArguments(dst, size, count, src) <==> Given(src)
  {
    var args := SourcedPingArguments(dst, size, count, src);
    if Given(src) {
      assert args[2] == "-I";
    } else {
      NumberIsNotSourceOption(count);
      NumberIsNotSourceOption(size);
      assert args == ["ping", dst, "-c", IntToString(count), "-s", IntToString(size)];
    }
  }
}
