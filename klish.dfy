/**
 * The command modes of the switch CLI the configuration batches are written for:
 * "configure terminal" enters configuration mode, "interface <name>" and "vlan <id>" enter
 * the mode of that interface or VLAN, "exit" leaves one level, and every other command is
 * an action carried out in the current mode.
 */
module Klish {

  datatype Mode = Exec | Config | InterfaceMode(name: string) | VlanMode(id: string)

  /** A command carried out in a mode. */
  datatype Action = Action(mode: Mode, command: string)

  /** The mode a batch has reached and the actions it has carried out so far. */
  datatype Session = Session(mode: Mode, actions: seq<Action>)

  const InterfacePrefix := "interface "
  const VlanPrefix := "vlan "

  /** One command. */
  function Apply(s: Session, cmd: string): (r: Session) {
    if cmd == "exit" then
      Session(match s.mode
              case Exec => Exec
              case Config => Exec
              case InterfaceMode(_) => Config
              case VlanMode(_) => Config, s.actions)
    else if s.mode == Exec && cmd == "configure terminal" then Session(Config, s.actions)
    else if s.mode == Config && InterfacePrefix <= cmd then Session(InterfaceMode(cmd[|InterfacePrefix|..]), s.actions)
    else if s.mode == Config && VlanPrefix <= cmd then Session(VlanMode(cmd[|VlanPrefix|..]), s.actions)
    else Session(s.mode, s.actions + [Action(s.mode, cmd)])
  }

  /** A batch, command by command. */
  function Run(s: Session, cmds: seq<string>): (r: Session)
    decreases |cmds|
  {
    if cmds == [] then s else Run(Apply(s, cmds[0]), cmds[1..])
  }

  /** A batch sent from the CLI's starting mode. */
  function Batch(cmds: seq<string>): (r: Session) {
    Run(Session(Exec, []), cmds)
  }

  lemma RunCons(s: Session, cmd: string, rest: seq<string>)
    ensures Run(s, [cmd] + rest) == Run(Apply(s, cmd), rest)
  {
    assert ([cmd] + rest)[1..] == rest;
  }

  lemma RunTwo(s: Session, a: string, b: string)
    ensures Run(s, [a, b]) == Apply(Apply(s, a), b)
  {
    RunCons(s, a, [b]);
    assert [a, b] == [a] + [b];
    RunCons(Apply(s, a), b, []);
    assert [b] == [b] + [];
  }

  lemma RunThree(s: Session, a: string, b: string, c: string)
    ensures Run(s, [a, b, c]) == Apply(Apply(Apply(s, a), b), c)
  {
    RunCons(s, a, [b, c]);
    assert [a, b, c] == [a] + [b, c];
    RunTwo(Apply(s, a), b, c);
  }

  /** Running two lists one after the other is running their concatenation. */
  lemma {:induction false} RunAppend(s: Session, a: seq<string>, b: seq<string>)
    ensures Run(s, a + b) == Run(Run(s, a), b)
    decreases |a|
  {
    if a != [] {
      assert (a + b)[1..] == a[1..] + b;
      RunAppend(Apply(s, a[0]), a[1..], b);
    } else {
      assert a + b == b;
    }
  }

  /** Actions are only ever added: a batch keeps what earlier batches did. */
  lemma {:induction false} RunExtends(s: Session, cmds: seq<string>)
    ensures s.actions <= Run(s, cmds).actions
    decreases |cmds|
  {
    if cmds != [] {
      RunExtends(Apply(s, cmds[0]), cmds[1..]);
    }
  }

  // ---------------------------------------------------------------------------
  // How the commands the scripts use move between modes
  // ---------------------------------------------------------------------------

  lemma ConfigureTerminal(acts: seq<Action>)
    ensures Apply(Session(Exec, acts), "configure terminal") == Session(Config, acts)
  {
  }

  lemma EnterInterface(acts: seq<Action>, name: string)
    ensures Apply(Session(Config, acts), "interface " + name) == Session(InterfaceMode(name), acts)
  {
    var cmd := "interface " + name;
    assert InterfacePrefix <= cmd;
    assert cmd != "exit" by {
      assert cmd[0] == 'i';
    }
    assert cmd[|InterfacePrefix|..] == name;
  }

  lemma EnterVlan(acts: seq<Action>, id: string)
    ensures Apply(Session(Config, acts), "vlan " + id) == Session(VlanMode(id), acts)
  {
    var cmd := "vlan " + id;
    assert VlanPrefix <= cmd;
    assert cmd != "exit" by {
      assert cmd[0] == 'v';
    }
    assert !(InterfacePrefix <= cmd) by {
      assert cmd[0] != InterfacePrefix[0];
    }
    assert cmd[|VlanPrefix|..] == id;
  }

  /** A command that is neither navigation nor "exit" is an action in the current mode. */
  lemma Act(m: Mode, acts: seq<Action>, cmd: string)
    requires cmd != "exit"
    requires m == Exec ==> cmd != "configure terminal"
    requires m == Config ==> !(InterfacePrefix <= cmd) && !(VlanPrefix <= cmd)
    ensures Apply(Session(m, acts), cmd) == Session(m, acts + [Action(m, cmd)])
  {
  }

  /** A command whose first character differs from those of "interface " and "vlan " does not navigate. */
  lemma NotNavigation(cmd: string)
    requires |cmd| > 0 && cmd[0] != 'i' && cmd[0] != 'v'
    ensures !(InterfacePrefix <= cmd) && !(VlanPrefix <= cmd)
  {
    assert InterfacePrefix[0] == 'i' && VlanPrefix[0] == 'v';
  }

  // ---------------------------------------------------------------------------
  // Several batches
  // ---------------------------------------------------------------------------

  /** Each batch is its own CLI session: the actions of all batches, in order. */
  function Effects(batches: seq<seq<string>>): (r: seq<Action>) {
    if batches == [] then [] else Batch(batches[0]).actions + Effects(batches[1..])
  }

  lemma {:induction false} EffectsAppend(a: seq<seq<string>>, b: seq<seq<string>>)
    ensures Effects(a + b) == Effects(a) + Effects(b)
  {
    if a != [] {
      assert (a + b)[1..] == a[1..] + b;
      EffectsAppend(a[1..], b);
    } else {
      assert a + b == b;
    }
  }

  lemma EffectsTwo(a: seq<string>, b: seq<string>)
    ensures Effects([a, b]) == Batch(a).actions + Batch(b).actions
  {
    assert [a, b][1..] == [b];
    assert Effects([b]) == Batch(b).actions + Effects([]);
  }
}
