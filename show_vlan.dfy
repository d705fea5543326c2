/**
 * What the scripts read from `show vlan` / `show vlan brief`: the member ports of a VLAN,
 * taken from the raw text, and the two-tier check of a VLAN and a port against the
 * template-parsed records or, when parsing gave nothing, against the raw text.
 */
module ShowVlan {
  import opened Wrappers
  import opened Text

  /** How a script recognises a line of `show vlan` output as belonging to a VLAN. */
  datatype LineFilter =
    | NameOnly      // the line contains "Vlan<id>"
    | NameOrBareId  // the line contains "Vlan<id>" or " <id> "

  /** The interface name of a VLAN, as the device prints it: "Vlan<id>". */
  function VlanName(vlan: string): (r: string) {
    "Vlan" + vlan
  }

  predicate Mentions(line: string, vlan: string, filter: LineFilter) {
    Contains(line, VlanName(vlan)) || (filter == NameOrBareId && Contains(line, " " + vlan + " "))
  }

  /** The comma-separated pieces of every token that contains "Ethernet", in token order. */
  function EthernetPieces(tokens: seq<string>): (r: seq<string>) {
    if tokens == [] then []
    else (if Contains(tokens[0], "Ethernet") then Split(tokens[0], ',') else []) + EthernetPieces(tokens[1..])
  }

  /** What one line adds to the member list. */
  function LineMembers(line: string, vlan: string, filter: LineFilter): (r: seq<string>) {
    if Mentions(line, vlan, filter) then EthernetPieces(Words(line)) else []
  }

  function MembersOfLines(lines: seq<string>, vlan: string, filter: LineFilter): (r: seq<string>) {
    if lines == [] then [] else LineMembers(lines[0], vlan, filter) + MembersOfLines(lines[1..], vlan, filter)
  }

  /** The member ports the scripts read for `vlan` from the text of `show vlan`. */
  function Members(output: string, vlan: string, filter: LineFilter): (r: seq<string>) {
    MembersOfLines(Lines(output), vlan, filter)
  }

  lemma {:induction false} EthernetPiecesAppend(a: seq<string>, b: seq<string>)
    ensures EthernetPieces(a + b) == EthernetPieces(a) + EthernetPieces(b)
  {
    if a != [] {
      assert (a + b)[1..] == a[1..] + b;
      EthernetPiecesAppend(a[1..], b);
    } else {
      assert a + b == b;
    }
  }

  /** The members of a text split in two are the members of the first part, then those of the second. */
  lemma {:induction false} MembersOfLinesAppend(a: seq<string>, b: seq<string>, vlan: string, filter: LineFilter)
    ensures MembersOfLines(a + b, vlan, filter) == MembersOfLines(a, vlan, filter) + MembersOfLines(b, vlan, filter)
  {
    if a != [] {
      assert (a + b)[1..] == a[1..] + b;
      MembersOfLinesAppend(a[1..], b, vlan, filter);
    } else {
      assert a + b == b;
    }
  }

  lemma MembersOfLinesSnoc(lines: seq<string>, i: nat, vlan: string, filter: LineFilter)
    requires i < |lines|
    ensures MembersOfLines(lines[..i + 1], vlan, filter)
            == MembersOfLines(lines[..i], vlan, filter) + LineMembers(lines[i], vlan, filter)
  {
    MembersOfLinesAppend(lines[..i], [lines[i]], vlan, filter);
    assert lines[..i + 1] == lines[..i] + [lines[i]];
    assert MembersOfLines([lines[i]], vlan, filter) == LineMembers(lines[i], vlan, filter) + MembersOfLines([], vlan, filter);
  }

  /** The inner loop of `get_vlan_members`: the comma pieces of each token that contains "Ethernet". */
  method CollectPieces(tokens: seq<string>) returns (pieces: seq<string>)
    ensures pieces == EthernetPieces(tokens)
  {
    pieces := [];
    var j := 0;
    while j < |tokens|
      invariant 0 <= j <= |tokens|
      invariant pieces == EthernetPieces(tokens[..j])
    {
      if Contains(tokens[j], "Ethernet") {
        pieces := pieces + Split(tokens[j], ',');
      }
      EthernetPiecesAppend(tokens[..j], [tokens[j]]);
      assert tokens[..j + 1] == tokens[..j] + [tokens[j]];
      j := j + 1;
    }
    assert tokens[..j] == tokens;
  }

  /**
   * `get_vlan_members`: for each line of the output that mentions the VLAN, for each of its
   * whitespace tokens that contains "Ethernet", extend the list with the token's comma pieces.
   */
  method CollectMembers(output: string, vlan: string, filter: LineFilter) returns (members: seq<string>)
    ensures members == Members(output, vlan, filter)
  {
    var lines := Lines(output);
    members := [];
    var i := 0;
    while i < |lines|
      invariant 0 <= i <= |lines|
      invariant members == MembersOfLines(lines[..i], vlan, filter)
    {
      var line := lines[i];
      MembersOfLinesSnoc(lines, i, vlan, filter);
      if Mentions(line, vlan, filter) {
        var pieces := CollectPieces(Words(line));
        members := members + pieces;
      }
      i := i + 1;
    }
    assert lines[..i] == lines;
  }

  /** A line that does not mention the VLAN contributes nothing, wherever it stands. */
  lemma UnmentionedLineContributesNothing(a: seq<string>, line: string, b: seq<string>, vlan: string, filter: LineFilter)
    requires !Mentions(line, vlan, filter)
    ensures MembersOfLines(a + [line] + b, vlan, filter) == MembersOfLines(a + b, vlan, filter)
  {
    MembersOfLinesAppend(a + [line], b, vlan, filter);
    MembersOfLinesAppend(a, [line], vlan, filter);
    MembersOfLinesAppend(a, b, vlan, filter);
  }

  /** When no line mentions the VLAN, there are no members. */
  lemma {:induction false} NoMentionNoMembers(lines: seq<string>, vlan: string, filter: LineFilter)
    requires forall j :: 0 <= j < |lines| ==> !Mentions(lines[j], vlan, filter)
    ensures MembersOfLines(lines, vlan, filter) == []
  {
    if lines != [] {
      NoMentionNoMembers(lines[1..], vlan, filter);
    }
  }

  /** Every member comes from a token containing "Ethernet" on a line that mentions the VLAN. */
  lemma {:induction false} MembersComeFromMentioningLines(lines: seq<string>, vlan: string, filter: LineFilter, k: nat)
    requires k < |MembersOfLines(lines, vlan, filter)|
    ensures exists j :: 0 <= j < |lines| && Mentions(lines[j], vlan, filter) &&
                        MembersOfLines(lines, vlan, filter)[k] in EthernetPieces(Words(lines[j]))
  {
    var here := LineMembers(lines[0], vlan, filter);
    if k < |here| {
      assert MembersOfLines(lines, vlan, filter)[k] == here[k];
    } else {
      MembersComeFromMentioningLines(lines[1..], vlan, filter, k - |here|);
      var j :| 0 <= j < |lines[1..]| && Mentions(lines[1..][j], vlan, filter) &&
               MembersOfLines(lines[1..], vlan, filter)[k - |here|] in EthernetPieces(Words(lines[1..][j]));
      assert lines[1..][j] == lines[j + 1];
    }
  }

  /** A piece is free of commas and whitespace. */
  predicate IsPortName(p: string) {
    forall c :: c in p ==> c != ',' && !IsSpace(c)
  }

  lemma {:induction false} EthernetPiecesArePortNames(tokens: seq<string>)
    requires forall j :: 0 <= j < |tokens| ==> IsWord(tokens[j])
    ensures forall k :: 0 <= k < |EthernetPieces(tokens)| ==> IsPortName(EthernetPieces(tokens)[k])
  {
    if tokens != [] {
      EthernetPiecesArePortNames(tokens[1..]);
      SplitPieces(tokens[0], ',');
    }
  }

  lemma {:induction false} MembersOfLinesArePortNames(lines: seq<string>, vlan: string, filter: LineFilter)
    ensures forall k :: 0 <= k < |MembersOfLines(lines, vlan, filter)| ==> IsPortName(MembersOfLines(lines, vlan, filter)[k])
  {
    if lines != [] {
      WordsAreWords(lines[0]);
      EthernetPiecesArePortNames(Words(lines[0]));
      MembersOfLinesArePortNames(lines[1..], vlan, filter);
    }
  }

  /** No member holds a comma or whitespace: each is one port name as the table lists it. */
  lemma MembersArePortNames(output: string, vlan: string, filter: LineFilter)
    ensures forall k :: 0 <= k < |Members(output, vlan, filter)| ==> IsPortName(Members(output, vlan, filter)[k])
  {
    MembersOfLinesArePortNames(Lines(output), vlan, filter);
  }

  /** A VLAN with members is mentioned in the output as a whole. */
  lemma MembersImplyMention(output: string, vlan: string, filter: LineFilter)
    requires Members(output, vlan, filter) != []
    ensures Mentions(output, vlan, filter)
  {
    var lines := Lines(output);
    MembersComeFromMentioningLines(lines, vlan, filter, 0);
    var j :| 0 <= j < |lines| && Mentions(lines[j], vlan, filter);
    LinesAreInfixes(output);
    assert Contains(output, lines[j]);
    if Contains(lines[j], VlanName(vlan)) {
      ContainsTransitive(output, lines[j], VlanName(vlan));
    } else {
      ContainsTransitive(output, lines[j], " " + vlan + " ");
    }
  }

  /** A token without "Ethernet" in it adds no pieces. */
  lemma PlainTokensAddNothing(tokens: seq<string>)
    requires forall t :: t in tokens ==> !Contains(t, "Ethernet")
    ensures EthernetPieces(tokens) == []
  {
  }

  /** The ports column `p1,p2,...` contains "Ethernet" when `p1` does. */
  lemma PortsColumnMentionsEthernet(ports: seq<string>)
    requires ports != [] && Contains(ports[0], "Ethernet")
    ensures Contains(Join(ports, [',']), "Ethernet")
  {
    if |ports| > 1 {
      var tail := [','] + Join(ports[1..], [',']);
      JoinCons(ports[0], ports[1..], [',']);
      assert [ports[0]] + ports[1..] == ports;
      assert Join(ports, [',']) == [] + ports[0] + tail;
      ContainsInfix([], ports[0], tail, "Ethernet");
    }
  }

  /** The ports column `p1,p2,...` of non-empty, space-free port names is one word. */
  lemma PortsColumnIsWord(ports: seq<string>)
    requires ports != []
    requires forall j :: 0 <= j < |ports| ==> IsWord(ports[j])
    ensures IsWord(Join(ports, [',']))
  {
    var col := Join(ports, [',']);
    if |ports| > 1 {
      JoinCons(ports[0], ports[1..], [',']);
      assert [ports[0]] + ports[1..] == ports;
    }
    assert |col| >= |ports[0]| > 0;
    forall k | 0 <= k < |col|
      ensures !IsSpace(col[k])
    {
      JoinChars(ports, [','], col[k]);
      if col[k] != ',' {
        var j :| 0 <= j < |ports| && col[k] in ports[j];
        var m :| 0 <= m < |ports[j]| && ports[j][m] == col[k];
        assert IsWord(ports[j]);
      }
    }
  }

  /** A text of one line has the members that line has. */
  lemma OneLineMembers(row: string, vlan: string, filter: LineFilter)
    requires row != [] && NoLineBreak(row)
    ensures Members(row, vlan, filter) == LineMembers(row, vlan, filter)
  {
    LinesOfOneLine(row);
    assert MembersOfLines([row], vlan, filter) == LineMembers(row, vlan, filter) + MembersOfLines([], vlan, filter);
  }

  lemma PlainTokenAddsNothing(token: string)
    requires !Contains(token, "Ethernet")
    ensures EthernetPieces([token]) == []
  {
  }

  lemma EthernetTokenAddsItsPieces(token: string)
    requires Contains(token, "Ethernet")
    ensures EthernetPieces([token]) == Split(token, ',')
  {
    assert EthernetPieces([token]) == Split(token, ',') + EthernetPieces([]);
  }

  /** The pieces of `[head] + before + [col] + after` are those of `col` when no other token has any. */
  lemma PiecesOfRow(head: string, before: seq<string>, col: string, after: seq<string>)
    requires !Contains(head, "Ethernet")
    requires forall w :: w in before ==> !Contains(w, "Ethernet")
    requires forall w :: w in after ==> !Contains(w, "Ethernet")
    requires Contains(col, "Ethernet")
    ensures EthernetPieces([head] + before + [col] + after) == Split(col, ',')
  {
    var x := [head] + before;
    var y := [col] + after;
    assert [head] + before + [col] + after == x + y;
    EthernetPiecesAppend(x, y);
    EthernetPiecesAppend([head], before);
    PlainTokenAddsNothing(head);
    PlainTokensAddNothing(before);
    EthernetPiecesAppend([col], after);
    EthernetTokenAddsItsPieces(col);
    PlainTokensAddNothing(after);
  }

  lemma RowTokensAreWords(before: seq<string>, col: string, after: seq<string>)
    requires IsWord(col)
    requires forall w :: w in before ==> IsWord(w)
    requires forall w :: w in after ==> IsWord(w)
    ensures forall w :: w in before + [col] + after ==> IsWord(w)
  {
  }

  /** A single-spaced row of words whose first word names the VLAN has the members its words give. */
  lemma WordRowMembers(head: string, rest: seq<string>, vlan: string, filter: LineFilter)
    requires IsWord(head) && Contains(head, VlanName(vlan)) && rest != []
    requires forall w :: w in rest ==> IsWord(w)
    ensures Members(Join([head] + rest, " "), vlan, filter) == EthernetPieces([head] + rest)
  {
    var tokens := [head] + rest;
    assert forall j :: 0 <= j < |tokens| ==> IsWord(tokens[j]) by {
      forall j | 0 <= j < |tokens|
        ensures IsWord(tokens[j])
      {
        assert tokens[j] in tokens;
      }
    }
    var row := Join(tokens, " ");
    JoinedWordsHaveNoBreak(tokens);
    JoinCons(head, rest, " ");
    ContainsAt(row, head, 0);
    ContainsTransitive(row, head, VlanName(vlan));
    OneLineMembers(row, vlan, filter);
    WordsOfUnwords(tokens);
  }

  /**
   * A `show vlan` row of single-spaced words whose first word names the VLAN and whose only
   * word with "Ethernet" in it is the ports column `p1,p2,...` yields exactly those ports, in order.
   */
  lemma RowMembers(head: string, vlan: string, before: seq<string>, ports: seq<string>, after: seq<string>, filter: LineFilter)
    requires IsWord(head) && Contains(head, VlanName(vlan)) && !Contains(head, "Ethernet")
    requires forall w :: w in before ==> IsWord(w) && !Contains(w, "Ethernet")
    requires forall w :: w in after ==> IsWord(w) && !Contains(w, "Ethernet")
    requires ports != [] && Contains(ports[0], "Ethernet")
    requires forall p :: p in ports ==> IsWord(p) && ',' !in p
    ensures Members(Join([head] + before + [Join(ports, [','])] + after, " "), vlan, filter) == ports
  {
    var col := Join(ports, [',']);
    var rest := before + [col] + after;
    assert [head] + before + [col] + after == [head] + rest;
    assert Members(Join([head] + rest, " "), vlan, filter) == EthernetPieces([head] + rest) by {
      PortsColumnIsWord(ports);
      RowTokensAreWords(before, col, after);
      WordRowMembers(head, rest, vlan, filter);
    }
    assert EthernetPieces([head] + rest) == ports by {
      PortsColumnMentionsEthernet(ports);
      SplitJoin(ports, ',');
      PiecesOfRow(head, before, col, after);
    }
  }

  /** "Vlan<id>" for a numeric id is one word, without "Ethernet" in it. */
  lemma DigitVlanName(id: string)
    requires AllDigits(id)
    ensures IsWord(VlanName(id)) && !Contains(VlanName(id), "Ethernet")
  {
    var h := VlanName(id);
    forall j | 0 <= j < |h|
      ensures h[j] != 'E' && !IsSpace(h[j])
    {
      if j >= 4 {
        assert h[j] == id[j - 4];
      }
    }
    MissingFirstCharNotContained(h, "Ethernet");
  }

  /**
   * The name test is a substring test: the row of VLAN `vlan` followed by one more digit
   * (Vlan100 for VLAN 10) counts as a row of VLAN `vlan`, and its ports are read as its members.
   */
  lemma LongerVlanNameMatches(vlan: string, d: char, port: string, filter: LineFilter)
    requires AllDigits(vlan) && IsDigit(d)
    requires IsWord(port) && ',' !in port && Contains(port, "Ethernet")
    ensures Members(Join([VlanName(vlan + [d])] + [] + [Join([port], [','])] + [], " "), vlan, filter) == [port]
  {
    var head := VlanName(vlan + [d]);
    assert head == VlanName(vlan) + [d];
    ContainsAt(head, VlanName(vlan), 0);
    assert AllDigits(vlan + [d]) by {
      assert forall j :: 0 <= j < |vlan| ==> (vlan + [d])[j] == vlan[j];
    }
    DigitVlanName(vlan + [d]);
    assert forall p :: p in [port] ==> IsWord(p) && ',' !in p;
    RowMembers(head, vlan, [], [port], [], filter);
  }

  /**
   * A ports column that ends in a comma (`Ethernet4,`) yields an empty piece after the last
   * port: the empty string is read as a member.
   */
  lemma TrailingCommaGivesEmptyMember(head: string, port: string, vlan: string, filter: LineFilter)
    requires IsWord(head) && Contains(head, VlanName(vlan)) && !Contains(head, "Ethernet")
    requires IsWord(port) && ',' !in port && Contains(port, "Ethernet")
    ensures Members(head + " " + port + ",", vlan, filter) == [port, ""]
  {
    var col := port + ",";
    TrailingCommaColumn(port);
    WordRowMembers(head, [col], vlan, filter);
    JoinCons(head, [col], " ");
    assert Join([head] + [col], " ") == head + " " + port + ",";
    PiecesOfRow(head, [], col, []);
    assert [head] + [] + [col] + [] == [head] + [col];
  }

  /** A port name followed by a comma is one token that mentions `Ethernet` and splits into the name and "". */
  lemma TrailingCommaColumn(port: string)
    requires IsWord(port) && ',' !in port && Contains(port, "Ethernet")
    ensures IsWord(port + ",") && Contains(port + ",", "Ethernet") && Split(port + ",", ',') == [port, ""]
  {
    var col := port + ",";
    assert IsWord(col) by {
      assert forall j :: 0 <= j < |col| ==> col[j] == ',' || col[j] == port[j];
    }
    assert Contains(col, "Ethernet") by {
      ContainsInfix("", port, ",", "Ethernet");
      assert "" + port + "," == col;
    }
    SplitPrefix(port, ",", ',');
    assert Split(",", ',') == ["", ""] by {
      assert ","[1..] == "";
    }
    assert port + "" == port;
  }

  // ---------------------------------------------------------------------------
  // verify_vlan
  // ---------------------------------------------------------------------------

  /** The value under "ports" in a parsed record: absent, a text, or a list of port names. */
  datatype PortsField = NoPorts | PortsText(text: string) | PortList(items: seq<string>)

  /** One record of the template-parsed `show vlan`: the "vid" key, when present, and "ports". */
  datatype VlanRecord = VlanRecord(vid: Option<string>, ports: PortsField)

  /** `port in entry.get("ports", "")`: a substring test on a text, a membership test on a list. */
  predicate ListsPort(e: VlanRecord, port: string) {
    match e.ports
    case NoPorts => Contains("", port)
    case PortsText(text) => Contains(text, port)
    case PortList(items) => port in items
  }

  /**
   * `verify_vlan`: `ok` is false exactly when the script reports a failure. With no parsed
   * records the raw text must contain "Vlan<id>" and, when a port is given, the port; otherwise
   * some record must have vid "Vlan<id>" and, when a port is given, every such record's ports
   * must contain it.
   */
  method VerifyVlan(parsed: seq<VlanRecord>, raw: string, vlan: string, port: Option<string>) returns (ok: bool)
    ensures parsed == [] ==>
      (ok <==> Contains(raw, VlanName(vlan)) && (Given(port) ==> Contains(raw, port.value)))
    ensures parsed != [] ==>
      (ok <==> (exists k :: 0 <= k < |parsed| && parsed[k].vid == Some(VlanName(vlan)))
               && (Given(port) ==>
                     forall k :: 0 <= k < |parsed| && parsed[k].vid == Some(VlanName(vlan)) ==>
                       ListsPort(parsed[k], port.value)))
  {
    var name := VlanName(vlan);
    ok := true;
    if parsed == [] {
      if !Contains(raw, name) {
        ok := false;
      }
      if Given(port) && !Contains(raw, port.value) {
        ok := false;
      }
      return;
    }
    var found := false;
    var i := 0;
    while i < |parsed|
      invariant 0 <= i <= |parsed|
      invariant found <==> exists k :: 0 <= k < i && parsed[k].vid == Some(name)
      invariant ok <==> (Given(port) ==>
                           forall k :: 0 <= k < i && parsed[k].vid == Some(name) ==>
                             ListsPort(parsed[k], port.value))
    {
      if parsed[i].vid == Some(name) {
        found := true;
        if Given(port) && !ListsPort(parsed[i], port.value) {
          ok := false;
        }
      }
      i := i + 1;
    }
    if !found {
      ok := false;
    }
  }
}
