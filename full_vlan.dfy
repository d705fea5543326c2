/**
 * The plain full VLAN test: its cleanup sends the whole teardown as one command list, built
 * one command at a time from the members read out of `show vlan`, without checking first
 * whether the VLAN exists.
 */
module FullVlan {
  import opened Text
  import opened Klish
  import opened ShowVlan
  import opened CleanupList

  /**
   * `cleanup_vlan`, given the `show vlan` text its member reader sees: the one list it sends,
   * which is the cleanup list for the members of lines naming "Vlan<id>".
   */
  method CleanupVlan(raw: string, vlan: string) returns (cmds: seq<string>)
    ensures cmds == CleanupCommands(vlan, Members(raw, vlan, NameOnly))
  {
    var members := CollectMembers(raw, vlan, NameOnly);
    cmds := ["configure terminal"];
    cmds := cmds + ["interface Vlan" + vlan];
    cmds := cmds + ["no ip address"];
    cmds := cmds + ["exit"];
    var i := 0;
    while i < |members|
      invariant 0 <= i <= |members|
      invariant cmds == ["configure terminal", "interface Vlan" + vlan, "no ip address", "exit"] + DetachAll(members[..i])
    {
      DetachAllAppend(members[..i], members[i]);
      assert members[..i + 1] == members[..i] + [members[i]];
      cmds := cmds + ["interface " + members[i]];
      cmds := cmds + ["no switchport access vlan"];
      cmds := cmds + ["exit"];
      i := i + 1;
    }
    assert members[..i] == members;
    cmds := cmds + ["no vlan " + vlan];
    cmds := cmds + ["exit"];
  }

  /** When no line names "Vlan<id>", the list is the six fixed commands. */
  lemma NoMatchingLineSixCommands(raw: string, vlan: string)
    requires forall j :: 0 <= j < |Lines(raw)| ==> !Contains(Lines(raw)[j], VlanName(vlan))
    ensures CleanupCommands(vlan, Members(raw, vlan, NameOnly)) ==
      ["configure terminal", "interface Vlan" + vlan, "no ip address", "exit", "no vlan " + vlan, "exit"]
  {
    NoMentionNoMembers(Lines(raw), vlan, NameOnly);
    NoMembersSixCommands(vlan);
  }

  /**
   * A row whose ports column ends in a comma gives the empty member, and the list then holds
   * the command `interface ` with no port name after the real port's triple.
   */
  lemma TrailingCommaSendsBareInterface(head: string, port: string, vlan: string)
    requires IsWord(head) && Contains(head, VlanName(vlan)) && !Contains(head, "Ethernet")
    requires IsWord(port) && ',' !in port && Contains(port, "Ethernet")
    ensures var c := CleanupCommands(vlan, Members(head + " " + port + ",", vlan, NameOnly));
      |c| == 12 && c[4] == "interface " + port && c[7] == "interface "
  {
    TrailingCommaGivesEmptyMember(head, port, vlan, NameOnly);
    CleanupLayout(vlan, [port, ""]);
    var c := CleanupCommands(vlan, [port, ""]);
    assert c[4 + 3 * 1] == "interface " + [port, ""][1];
    assert "interface " + "" == "interface ";
  }
}
