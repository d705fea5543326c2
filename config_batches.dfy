/**
 * The small configuration batches the scripts build for one VLAN or one port, and what each
 * does on the CLI. The scripts send each batch as one `st.config` call.
 */
module ConfigBatches {
  import opened Klish

  /** `remove_ip`: strip the address of a port. */
  function RemoveIpCommands(port: string): (r: seq<string>) {
    ["configure terminal", "interface " + port, "no ip address", "exit", "exit"]
  }

  /** `create_vlan`. */
  function CreateVlanCommands(vlan: string): (r: seq<string>) {
    ["configure terminal", "vlan " + vlan, "exit"]
  }

  /** `add_access_port`: make a port an access port of a VLAN. */
  function AccessPortCommands(vlan: string, port: string): (r: seq<string>) {
    ["configure terminal", "interface " + port, "switchport access vlan " + vlan, "exit", "exit"]
  }

  /** `remove_access_port`: detach a port from its access VLAN. */
  function RemoveAccessPortCommands(port: string): (r: seq<string>) {
    ["configure terminal", "interface " + port, "no switchport access vlan", "exit", "exit"]
  }

  /** A batch that enters one interface, carries out one command there and leaves again. */
  lemma PortBatch(port: string, cmd: string)
    requires cmd != "exit"
    ensures Batch(["configure terminal", "interface " + port, cmd, "exit", "exit"])
            == Session(Exec, [Action(InterfaceMode(port), cmd)])
  {
    var cmds := ["configure terminal", "interface " + port, cmd, "exit", "exit"];
    assert cmds == ["configure terminal", "interface " + port, cmd] + ["exit", "exit"];
    RunAppend(Session(Exec, []), ["configure terminal", "interface " + port, cmd], ["exit", "exit"]);
    RunThree(Session(Exec, []), "configure terminal", "interface " + port, cmd);
    ConfigureTerminal([]);
    EnterInterface([], port);
    Act(InterfaceMode(port), [], cmd);
    RunTwo(Session(InterfaceMode(port), [Action(InterfaceMode(port), cmd)]), "exit", "exit");
  }

  /** `remove_ip` strips the address of that port and of nothing else. */
  lemma RemoveIpEffect(port: string)
    ensures Batch(RemoveIpCommands(port)) == Session(Exec, [Action(InterfaceMode(port), "no ip address")])
  {
    PortBatch(port, "no ip address");
  }

  /** `add_access_port` sets the access VLAN of that port and does nothing else. */
  lemma AccessPortEffect(vlan: string, port: string)
    ensures Batch(AccessPortCommands(vlan, port))
            == Session(Exec, [Action(InterfaceMode(port), "switchport access vlan " + vlan)])
  {
    assert "switchport access vlan " + vlan != "exit" by {
      assert ("switchport access vlan " + vlan)[0] == 's';
    }
    PortBatch(port, "switchport access vlan " + vlan);
  }

  /** `remove_access_port` detaches that port and does nothing else. */
  lemma RemoveAccessPortEffect(port: string)
    ensures Batch(RemoveAccessPortCommands(port))
            == Session(Exec, [Action(InterfaceMode(port), "no switchport access vlan")])
  {
    PortBatch(port, "no switchport access vlan");
  }

  /**
   * `create_vlan` enters the configuration mode of the VLAN, which creates it, carries out
   * nothing else, and ends in configuration mode.
   */
  lemma CreateVlanEffect(vlan: string)
    ensures Run(Session(Exec, []), CreateVlanCommands(vlan)[..2]) == Session(VlanMode(vlan), [])
    ensures Batch(CreateVlanCommands(vlan)) == Session(Config, [])
  {
    RunThree(Session(Exec, []), "configure terminal", "vlan " + vlan, "exit");
    assert CreateVlanCommands(vlan)[..2] == ["configure terminal", "vlan " + vlan];
    RunTwo(Session(Exec, []), "configure terminal", "vlan " + vlan);
    ConfigureTerminal([]);
    EnterVlan([], vlan);
  }
}
