/**
 * The full VLAN test with artifact logging: its member reader and its cleanup, which sends the
 * teardown as separate batches (the VLAN interface first, then each member port, then the
 * deletions) and reads `show vlan` once more to see whether the VLAN is gone.
 */
module FullVlans {
  import opened Text
  import opened Klish
  import opened ShowVlan
  import opened CleanupList
  import opened ConfigBatches

  /** `get_vlan_members`: only lines naming "Vlan<id>" count. */
  method GetVlanMembers(raw: string, vlan: string) returns (members: seq<string>)
    ensures members == Members(raw, vlan, NameOnly)
    ensures forall p :: p in members ==> IsPortName(p)
  {
    members := CollectMembers(raw, vlan, NameOnly);
    MembersArePortNames(raw, vlan, NameOnly);
  }

  /** A line without "Vlan<id>" never contributes, even when it holds " <id> ". */
  lemma BareIdIsNotEnough(a: seq<string>, line: string, b: seq<string>, vlan: string)
    requires !Contains(line, VlanName(vlan))
    ensures MembersOfLines(a + [line] + b, vlan, NameOnly) == MembersOfLines(a + b, vlan, NameOnly)
  {
    UnmentionedLineContributesNothing(a, line, b, vlan, NameOnly);
  }

  // ---------------------------------------------------------------------------
  // cleanup_vlan
  // ---------------------------------------------------------------------------

  /** Step 1: shut interface Vlan<id> down and strip its address. */
  function SviTeardownCommands(vlan: string): (r: seq<string>) {
    ["configure terminal", "interface Vlan" + vlan, "shutdown", "no ip address", "exit"]
  }

  /** Step 3: delete interface Vlan<id>. */
  function DeleteSviCommands(vlan: string): (r: seq<string>) {
    ["configure terminal", "no interface Vlan" + vlan, "exit"]
  }

  /** Step 4: delete the VLAN. */
  function DeleteVlanCommands(vlan: string): (r: seq<string>) {
    ["configure terminal", "no vlan " + vlan, "exit"]
  }

  /** Step 2: one detach batch per member, in member order. */
  function DetachBatches(members: seq<string>): (r: seq<seq<string>>) {
    if members == [] then [] else [RemoveAccessPortCommands(members[0])] + DetachBatches(members[1..])
  }

  /** The batches of the cleanup for the given members, in the order they are sent. */
  function CleanupBatches(vlan: string, members: seq<string>): (r: seq<seq<string>>) {
    [SviTeardownCommands(vlan)] + DetachBatches(members) + [DeleteSviCommands(vlan), DeleteVlanCommands(vlan)]
  }

  lemma {:induction false} DetachBatchesAppend(members: seq<string>, port: string)
    ensures DetachBatches(members + [port]) == DetachBatches(members) + [RemoveAccessPortCommands(port)]
  {
    if members == [] {
      assert DetachBatches([port]) == [RemoveAccessPortCommands(port)] + DetachBatches([]);
    } else {
      assert (members + [port])[1..] == members[1..] + [port];
      DetachBatchesAppend(members[1..], port);
    }
  }

  lemma {:induction false} DetachBatchesLayout(members: seq<string>)
    ensures |DetachBatches(members)| == |members|
    ensures forall j :: 0 <= j < |members| ==> DetachBatches(members)[j] == RemoveAccessPortCommands(members[j])
  {
    if members != [] {
      DetachBatchesLayout(members[1..]);
      var d := DetachBatches(members);
      assert d == [RemoveAccessPortCommands(members[0])] + DetachBatches(members[1..]);
      forall j | 1 <= j < |members|
        ensures d[j] == RemoveAccessPortCommands(members[j])
      {
        assert members[1..][j - 1] == members[j];
      }
    }
  }

  /**
   * `cleanup_vlan`, given the `show vlan` text it reads first and the one it reads last: the
   * batches it sends, and whether it warns that the VLAN is still there. There is no existence
   * check and nothing is raised.
   */
  method CleanupVlan(raw: string, verify: string, vlan: string) returns (batches: seq<seq<string>>, stillPresent: bool)
    ensures batches == CleanupBatches(vlan, Members(raw, vlan, NameOnly))
    ensures stillPresent <==> Contains(verify, VlanName(vlan))
  {
    var members := CollectMembers(raw, vlan, NameOnly);
    batches := [SviTeardownCommands(vlan)];
    var i := 0;
    while i < |members|
      invariant 0 <= i <= |members|
      invariant batches == [SviTeardownCommands(vlan)] + DetachBatches(members[..i])
    {
      DetachBatchesAppend(members[..i], members[i]);
      assert members[..i + 1] == members[..i] + [members[i]];
      batches := batches + [RemoveAccessPortCommands(members[i])];
      i := i + 1;
    }
    assert members[..i] == members;
    batches := batches + [DeleteSviCommands(vlan)];
    batches := batches + [DeleteVlanCommands(vlan)];
    stillPresent := Contains(verify, "Vlan" + vlan);
  }

  /**
   * The batches are, in order: the interface teardown, one detach per member in member
   * order, the deletion of interface Vlan<id>, and the deletion of the VLAN, which is sent
   * once and last.
   */
  lemma CleanupOrder(vlan: string, members: seq<string>)
    ensures var b := CleanupBatches(vlan, members);
      && |b| == 3 + |members|
      && b[0] == SviTeardownCommands(vlan)
      && (forall j :: 0 <= j < |members| ==> b[1 + j] == RemoveAccessPortCommands(members[j]))
      && b[|b| - 2] == DeleteSviCommands(vlan)
      && b[|b| - 1] == DeleteVlanCommands(vlan)
      && (forall k :: 0 <= k < |b| && b[k] == DeleteVlanCommands(vlan) ==> k == |b| - 1)
  {
    DetachBatchesLayout(members);
    var b := CleanupBatches(vlan, members);
    var d := DetachBatches(members);
    assert forall j :: 0 <= j < |members| ==> b[1 + j] == d[j];
    var del := DeleteVlanCommands(vlan);
    assert del[1][3] == 'v';
    assert SviTeardownCommands(vlan) != del;
    assert DeleteSviCommands(vlan) != del by {
      assert DeleteSviCommands(vlan)[1][3] == 'i';
    }
    forall k | 1 <= k <= |members|
      ensures b[k] != del
    {
      assert b[k] == d[k - 1];
      assert |b[k]| == 5;
    }
  }

  /** Without members only the three fixed batches are sent. */
  lemma NoMembersThreeBatches(raw: string, vlan: string)
    requires forall j :: 0 <= j < |Lines(raw)| ==> !Contains(Lines(raw)[j], VlanName(vlan))
    ensures CleanupBatches(vlan, Members(raw, vlan, NameOnly))
            == [SviTeardownCommands(vlan), DeleteSviCommands(vlan), DeleteVlanCommands(vlan)]
  {
    NoMentionNoMembers(Lines(raw), vlan, NameOnly);
    assert DetachBatches([]) == [];
  }

  /** The teardown batch leaves one level only: the session ends in configuration mode. */
  lemma SviTeardownEffect(vlan: string)
    ensures Batch(SviTeardownCommands(vlan)) ==
      Session(Config, [Action(InterfaceMode("Vlan" + vlan), "shutdown"),
                       Action(InterfaceMode("Vlan" + vlan), "no ip address")])
  {
    var svi := "Vlan" + vlan;
    var a := ["configure terminal", "interface " + svi, "shutdown"];
    var b := ["no ip address", "exit"];
    assert "interface Vlan" + vlan == "interface " + svi;
    assert SviTeardownCommands(vlan) == a + b;
    RunThree(Session(Exec, []), "configure terminal", "interface " + svi, "shutdown");
    ConfigureTerminal([]);
    EnterInterface([], svi);
    Act(InterfaceMode(svi), [], "shutdown");
    var a1 := Action(InterfaceMode(svi), "shutdown");
    RunTwo(Session(InterfaceMode(svi), [a1]), "no ip address", "exit");
    Act(InterfaceMode(svi), [a1], "no ip address");
    RunAppend(Session(Exec, []), a, b);
  }

  /** A deletion batch carries out its one command in configuration mode. */
  lemma DeleteBatch(cmd: string)
    requires |cmd| > 0 && cmd[0] == 'n'
    ensures Batch(["configure terminal", cmd, "exit"]) == Session(Exec, [Action(Config, cmd)])
  {
    RunThree(Session(Exec, []), "configure terminal", cmd, "exit");
    ConfigureTerminal([]);
    NotNavigation(cmd);
    assert cmd != "exit" by {
      assert cmd[0] != 'e';
    }
    Act(Config, [], cmd);
  }

  lemma {:induction false} DetachBatchesEffect(members: seq<string>)
    ensures Effects(DetachBatches(members)) == DetachActions(members)
  {
    if members != [] {
      DetachBatchesEffect(members[1..]);
      RemoveAccessPortEffect(members[0]);
      assert DetachBatches(members)[1..] == DetachBatches(members[1..]);
    }
  }

  /**
   * On the CLI the cleanup shuts interface Vlan<id> down and strips its address, detaches
   * each member in member order, deletes interface Vlan<id>, and deletes the VLAN last.
   */
  lemma CleanupEffect(vlan: string, members: seq<string>)
    ensures Effects(CleanupBatches(vlan, members)) ==
      [Action(InterfaceMode("Vlan" + vlan), "shutdown"), Action(InterfaceMode("Vlan" + vlan), "no ip address")]
      + DetachActions(members)
      + [Action(Config, "no interface Vlan" + vlan), Action(Config, "no vlan " + vlan)]
  {
    var head := [SviTeardownCommands(vlan)];
    var tail := [DeleteSviCommands(vlan), DeleteVlanCommands(vlan)];
    EffectsAppend(head + DetachBatches(members), tail);
    EffectsAppend(head, DetachBatches(members));
    SviTeardownEffect(vlan);
    assert Effects(head) == Batch(SviTeardownCommands(vlan)).actions + Effects([]);
    DetachBatchesEffect(members);
    EffectsTwo(DeleteSviCommands(vlan), DeleteVlanCommands(vlan));
    DeleteBatch("no interface Vlan" + vlan);
    DeleteBatch("no vlan " + vlan);
  }

  /**
   * A row whose ports column ends in a comma gives the empty member, and the cleanup then sends
   * a detach batch for `interface ` with no port name.
   */
  lemma TrailingCommaSendsBareInterface(head: string, port: string, vlan: string)
    requires IsWord(head) && Contains(head, VlanName(vlan)) && !Contains(head, "Ethernet")
    requires IsWord(port) && ',' !in port && Contains(port, "Ethernet")
    ensures var b := CleanupBatches(vlan, Members(head + " " + port + ",", vlan, NameOnly));
      |b| == 5 && b[1] == RemoveAccessPortCommands(port) && b[2] == RemoveAccessPortCommands("")
      && RemoveAccessPortCommands("")[1] == "interface "
  {
    TrailingCommaGivesEmptyMember(head, port, vlan, NameOnly);
    CleanupOrder(vlan, [port, ""]);
    var b := CleanupBatches(vlan, [port, ""]);
    assert b[1 + 1] == RemoveAccessPortCommands([port, ""][1]);
    assert RemoveAccessPortCommands("")[1] == "interface " + "";
    assert "interface " + "" == "interface ";
  }
}
