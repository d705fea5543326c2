/**
 * The single command list with which two of the scripts tear a VLAN down: enter configuration
 * mode, strip the address of the VLAN interface, detach each member port from the VLAN,
 * delete the VLAN.
 */
module CleanupList {
  import opened Klish

  /** The three commands that detach one access port from its VLAN. */
  function Detach(port: string): (r: seq<string>) {
    ["interface " + port, "no switchport access vlan", "exit"]
  }

  /** One detach triple per member, in member order. */
  function DetachAll(members: seq<string>): (r: seq<string>) {
    if members == [] then [] else Detach(members[0]) + DetachAll(members[1..])
  }

  /** The cleanup list for `vlan` with the given members. */
  function CleanupCommands(vlan: string, members: seq<string>): (r: seq<string>) {
    ["configure terminal", "interface Vlan" + vlan, "no ip address", "exit"]
    + DetachAll(members)
    + ["no vlan " + vlan, "exit"]
  }

  /** Detaching one more port appends its triple. */
  lemma {:induction false} DetachAllAppend(members: seq<string>, port: string)
    ensures DetachAll(members + [port]) == DetachAll(members) + Detach(port)
  {
    if members == [] {
      assert DetachAll([port]) == Detach(port) + DetachAll([]);
    } else {
      assert (members + [port])[1..] == members[1..] + [port];
      DetachAllAppend(members[1..], port);
    }
  }

  /** Member `j` is detached by commands 3j, 3j+1, 3j+2. */
  lemma {:induction false} DetachAllLayout(members: seq<string>)
    ensures |DetachAll(members)| == 3 * |members|
    ensures forall j :: 0 <= j < |members| ==>
              DetachAll(members)[3 * j] == "interface " + members[j] &&
              DetachAll(members)[3 * j + 1] == "no switchport access vlan" &&
              DetachAll(members)[3 * j + 2] == "exit"
  {
    DetachAllLength(members);
    forall j | 0 <= j < |members|
      ensures DetachAll(members)[3 * j] == "interface " + members[j]
      ensures DetachAll(members)[3 * j + 1] == "no switchport access vlan"
      ensures DetachAll(members)[3 * j + 2] == "exit"
    {
      DetachAllAt(members, j);
    }
  }

  lemma {:induction false} DetachAllLength(members: seq<string>)
    ensures |DetachAll(members)| == 3 * |members|
  {
    if members != [] {
      DetachAllLength(members[1..]);
    }
  }

  /** The triple of member `j` sits at positions `3j` to `3j + 2`. */
  lemma {:induction false} DetachAllAt(members: seq<string>, j: nat)
    requires j < |members|
    ensures 3 * j + 2 < |DetachAll(members)|
    ensures DetachAll(members)[3 * j] == "interface " + members[j]
    ensures DetachAll(members)[3 * j + 1] == "no switchport access vlan"
    ensures DetachAll(members)[3 * j + 2] == "exit"
  {
    DetachAllLength(members);
    var d := DetachAll(members);
    var rest := DetachAll(members[1..]);
    assert d == Detach(members[0]) + rest;
    if j > 0 {
      DetachAllAt(members[1..], j - 1);
      assert members[1..][j - 1] == members[j];
      assert d[3 * j] == rest[3 * (j - 1)];
      assert d[3 * j + 1] == rest[3 * (j - 1) + 1];
      assert d[3 * j + 2] == rest[3 * (j - 1) + 2];
    }
  }

  /** Every detach command is an `interface` command, the detach itself, or `exit`. */
  lemma {:induction false} DetachAllCommands(members: seq<string>)
    ensures forall i :: 0 <= i < |DetachAll(members)| ==>
              var c := DetachAll(members)[i];
              (|c| > 0 && c[0] == 'i') || c == "no switchport access vlan" || c == "exit"
  {
    if members != [] {
      DetachAllCommands(members[1..]);
      var d := DetachAll(members);
      var rest := DetachAll(members[1..]);
      assert d == Detach(members[0]) + rest;
      forall i | 3 <= i < |d|
        ensures var c := d[i]; (|c| > 0 && c[0] == 'i') || c == "no switchport access vlan" || c == "exit"
      {
        assert d[i] == rest[i - 3];
      }
    }
  }

  /**
   * The list is "configure terminal", the three commands that strip the VLAN interface's
   * address, one detach triple per member in order, then "no vlan <id>" and "exit":
   * 6 + 3·|members| commands.
   */
  lemma CleanupLayout(vlan: string, members: seq<string>)
    ensures var c := CleanupCommands(vlan, members);
      && |c| == 6 + 3 * |members|
      && c[0] == "configure terminal" && c[1] == "interface Vlan" + vlan
      && c[2] == "no ip address" && c[3] == "exit"
      && (forall j :: 0 <= j < |members| ==>
            c[4 + 3 * j] == "interface " + members[j] &&
            c[5 + 3 * j] == "no switchport access vlan" &&
            c[6 + 3 * j] == "exit")
      && c[|c| - 2] == "no vlan " + vlan && c[|c| - 1] == "exit"
  {
    DetachAllLayout(members);
    var c := CleanupCommands(vlan, members);
    var d := DetachAll(members);
    forall j | 0 <= j < |members|
      ensures c[4 + 3 * j] == "interface " + members[j]
      ensures c[5 + 3 * j] == "no switchport access vlan"
      ensures c[6 + 3 * j] == "exit"
    {
      assert c[4 + 3 * j] == d[3 * j];
      assert c[5 + 3 * j] == d[3 * j + 1];
      assert c[6 + 3 * j] == d[3 * j + 2];
    }
  }

  /**
   * "no vlan <id>" is sent once, as the next-to-last command, and every
   * "no switchport access vlan" comes before it.
   */
  lemma DeleteFollowsDetach(vlan: string, members: seq<string>)
    ensures var c := CleanupCommands(vlan, members);
      && c[|c| - 2] == "no vlan " + vlan
      && (forall k :: 0 <= k < |c| && c[k] == "no vlan " + vlan ==> k == |c| - 2)
      && (forall i :: 0 <= i < |c| && c[i] == "no switchport access vlan" ==> i < |c| - 2)
  {
    CleanupLayout(vlan, members);
    DetachAllCommands(members);
    var c := CleanupCommands(vlan, members);
    var d := DetachAll(members);
    var del := "no vlan " + vlan;
    assert del[0] == 'n' && del[3] == 'v';
    assert forall i :: 4 <= i < 4 + |d| ==> c[i] == d[i - 4];
  }

  /** Without members the list is the six fixed commands. */
  lemma NoMembersSixCommands(vlan: string)
    ensures CleanupCommands(vlan, []) ==
      ["configure terminal", "interface Vlan" + vlan, "no ip address", "exit", "no vlan " + vlan, "exit"]
  {
    assert DetachAll([]) == [];
  }

  // ---------------------------------------------------------------------------
  // What the list does on the CLI
  // ---------------------------------------------------------------------------

  /** Each member port, in order, detached from its VLAN in its own interface mode. */
  function DetachActions(members: seq<string>): (acts: seq<Action>)
    ensures |acts| == |members|
    ensures forall j :: 0 <= j < |members| ==> acts[j] == Action(InterfaceMode(members[j]), "no switchport access vlan")
  {
    if members == [] then []
    else [Action(InterfaceMode(members[0]), "no switchport access vlan")] + DetachActions(members[1..])
  }

  /** One detach triple leaves configuration mode where it found it, having detached the port. */
  lemma DetachRun(acts: seq<Action>, port: string)
    ensures Run(Session(Config, acts), Detach(port))
            == Session(Config, acts + [Action(InterfaceMode(port), "no switchport access vlan")])
  {
    RunThree(Session(Config, acts), "interface " + port, "no switchport access vlan", "exit");
    EnterInterface(acts, port);
    Act(InterfaceMode(port), acts, "no switchport access vlan");
  }

  lemma {:induction false} DetachAllRun(acts: seq<Action>, members: seq<string>)
    ensures Run(Session(Config, acts), DetachAll(members)) == Session(Config, acts + DetachActions(members))
    decreases |members|
  {
    if members != [] {
      var p := members[0];
      var a := Action(InterfaceMode(p), "no switchport access vlan");
      assert DetachAll(members) == Detach(p) + DetachAll(members[1..]);
      assert DetachActions(members) == [a] + DetachActions(members[1..]);
      RunAppend(Session(Config, acts), Detach(p), DetachAll(members[1..]));
      DetachRun(acts, p);
      DetachAllRun(acts + [a], members[1..]);
      assert acts + [a] + DetachActions(members[1..]) == acts + ([a] + DetachActions(members[1..]));
    } else {
      assert acts + [] == acts;
    }
  }

  /**
   * On the CLI the list strips the address of interface Vlan<id>, detaches each member in
   * member order on its own interface, deletes the VLAN from configuration mode last, and
   * ends back in the starting mode.
   */
  lemma CleanupEffect(vlan: string, members: seq<string>)
    ensures Batch(CleanupCommands(vlan, members)) ==
      Session(Exec, [Action(InterfaceMode("Vlan" + vlan), "no ip address")]
                    + DetachActions(members)
                    + [Action(Config, "no vlan " + vlan)])
  {
    var head := ["configure terminal", "interface Vlan" + vlan, "no ip address", "exit"];
    var tail := ["no vlan " + vlan, "exit"];
    var a0 := Action(InterfaceMode("Vlan" + vlan), "no ip address");
    // the address of the VLAN interface
    RunCons(Session(Exec, []), "configure terminal", head[1..]);
    assert head == ["configure terminal"] + head[1..];
    ConfigureTerminal([]);
    assert "interface Vlan" + vlan == "interface " + ("Vlan" + vlan);
    RunThree(Session(Config, []), "interface Vlan" + vlan, "no ip address", "exit");
    EnterInterface([], "Vlan" + vlan);
    Act(InterfaceMode("Vlan" + vlan), [], "no ip address");
    assert Run(Session(Exec, []), head) == Session(Config, [a0]);
    // the members
    DetachAllRun([a0], members);
    // the VLAN
    RunTwo(Session(Config, [a0] + DetachActions(members)), "no vlan " + vlan, "exit");
    NotNavigation("no vlan " + vlan);
    Act(Config, [a0] + DetachActions(members), "no vlan " + vlan);
    RunAppend(Session(Exec, []), head + DetachAll(members), tail);
    RunAppend(Session(Exec, []), head, DetachAll(members));
  }
}
