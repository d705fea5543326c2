/**
 * The single-file VLAN test: it reads the connection of device D1 from the testbed, opens an
 * SSH client, and runs six commands on the switch (create VLAN 10, flush the addresses of
 * Ethernet4, make it a member, show the VLANs, remove the member, delete the VLAN), logging
 * each command's output under a tag.
 */
module AddVlan {
  import opened Wrappers
  import opened Text
  import opened Shell

  const VlanId := 10
  const TargetInterface := "Ethernet4"

  // ---------------------------------------------------------------------------
  // extract_dut_connection
  // ---------------------------------------------------------------------------

  /** A value of the loaded testbed. */
  datatype Node =
    | Null
    | Bool(b: bool)
    | Int(i: int)
    | Str(s: string)
    | List(items: seq<Node>)
    | Mapping(entries: map<string, Node>)

  /** Python truthiness: None, False, 0 and empty strings, lists and mappings are false. */
  predicate Truthy(n: Node) {
    match n
    case Null => false
    case Bool(b) => b
    case Int(i) => i != 0
    case Str(s) => s != ""
    case List(items) => items != []
    case Mapping(entries) => entries != map[]
  }

  /** `d.get(key, default)`. */
  function Get(d: map<string, Node>, key: string, default: Node): (r: Node) {
    if key in d then d[key] else default
  }

  datatype ConnectionError =
    | D1NotFound                                      // KeyError: D1 absent or empty
    | MissingConnectionInfo(conn: map<string, Node>)  // KeyError: an empty or missing field
    | NoGetMethod(value: Node)                        // AttributeError: `.get` on a value that is not a mapping

  datatype Connection = Connection(ip: Node, username: Node, password: Node)

  /**
   * `extract_dut_connection`: `devices.D1.connection_params` with its `ip`, `username` and
   * `password`. A missing `devices` or `connection_params` counts as an empty mapping.
   */
  function ExtractDutConnection(testbed: map<string, Node>): (r: Result<Connection, ConnectionError>)
    ensures r.Success? ==>
      && "devices" in testbed && testbed["devices"].Mapping?
      && "D1" in testbed["devices"].entries && testbed["devices"].entries["D1"].Mapping?
      && var dut := testbed["devices"].entries["D1"].entries;
         && "connection_params" in dut && dut["connection_params"].Mapping?
         && var conn := dut["connection_params"].entries;
            && "ip" in conn && "username" in conn && "password" in conn
            && r.value == Connection(conn["ip"], conn["username"], conn["password"])
    ensures r.Success? ==> Truthy(r.value.ip) && Truthy(r.value.username) && Truthy(r.value.password)
  {
    var devices := Get(testbed, "devices", Mapping(map[]));
    if !devices.Mapping? then Failure(NoGetMethod(devices))
    else
      var dut := Get(devices.entries, "D1", Null);
      if !Truthy(dut) then Failure(D1NotFound)
      else if !dut.Mapping? then Failure(NoGetMethod(dut))
      else
        var conn := Get(dut.entries, "connection_params", Mapping(map[]));
        if !conn.Mapping? then Failure(NoGetMethod(conn))
        else
          var ip := Get(conn.entries, "ip", Null);
          var user := Get(conn.entries, "username", Null);
          var pwd := Get(conn.entries, "password", Null);
          if !(Truthy(ip) && Truthy(user) && Truthy(pwd)) then Failure(MissingConnectionInfo(conn.entries))
          else Success(Connection(ip, user, pwd))
  }

  /**
   * For any testbed whose device D1 is a non-empty mapping with a `connection_params` mapping:
   * the three fields are returned as they are when all are non-empty; if one is empty or
   * missing, the error names the parameters.
   */
  lemma ExtractFromTestbed(testbed: map<string, Node>, devices: map<string, Node>, dut: map<string, Node>, conn: map<string, Node>)
    requires "devices" in testbed && testbed["devices"] == Mapping(devices)
    requires "D1" in devices && devices["D1"] == Mapping(dut) && dut != map[]
    requires "connection_params" in dut && dut["connection_params"] == Mapping(conn)
    ensures var r := ExtractDutConnection(testbed);
      var ip, user, pwd := Get(conn, "ip", Null), Get(conn, "username", Null), Get(conn, "password", Null);
      if Truthy(ip) && Truthy(user) && Truthy(pwd) then r == Success(Connection(ip, user, pwd))
      else r == Failure(MissingConnectionInfo(conn))
  {
  }

  /** Without `devices`, or with no or an empty D1 in it, the error is "D1 not found". */
  lemma NoD1(testbed: map<string, Node>)
    requires "devices" !in testbed
      || (testbed["devices"].Mapping? && !Truthy(Get(testbed["devices"].entries, "D1", Null)))
    ensures ExtractDutConnection(testbed) == Failure(D1NotFound)
  {
  }

  /** For any testbed, a non-empty D1 without `connection_params` is missing its connection info. */
  lemma NoConnectionParams(testbed: map<string, Node>, devices: map<string, Node>, dut: map<string, Node>)
    requires "devices" in testbed && testbed["devices"] == Mapping(devices)
    requires "D1" in devices && devices["D1"] == Mapping(dut) && dut != map[]
    requires "connection_params" !in dut
    ensures ExtractDutConnection(testbed) == Failure(MissingConnectionInfo(map[]))
  {
  }

  // ---------------------------------------------------------------------------
  // SshClient
  // ---------------------------------------------------------------------------

  /** The prefix `sudo -S` reads the password from: `echo '<safe>' | sudo -S -p '' `. */
  function SudoCommand(pwd: string, cmd: string): (r: string) {
    "echo " + QuotedWord(pwd) + " | sudo -S -p '' " + cmd
  }

  /** The text sent for `cmd`: wrapped for sudo, or unchanged. */
  function SentCommand(pwd: string, cmd: string, sudo: bool): (r: string) {
    if sudo then SudoCommand(pwd, cmd) else cmd
  }

  /**
   * The sudo wrapping starts with `echo `, then one word the shell reads back as exactly the
   * password, and ends with the command, unchanged.
   */
  lemma SudoCommandCarriesPassword(pwd: string, cmd: string)
    ensures var s := SudoCommand(pwd, cmd);
      var w := QuotedWord(pwd);
      && s[..5] == "echo "
      && 5 + |w| <= |s| && Unquote(s[5..5 + |w|]) == Some(pwd)
      && s[|s| - |cmd|..] == cmd
  {
    var s := SudoCommand(pwd, cmd);
    var w := QuotedWord(pwd);
    var mid := " | sudo -S -p '' ";
    assert s == "echo " + w + mid + cmd;
    assert s[5..5 + |w|] == w;
    QuotedWordRoundTrip(pwd);
  }

  /** A password without single quotes is written as it is between the quotes. */
  lemma SudoCommandPlainPassword(pwd: string, cmd: string)
    requires Quote !in pwd
    ensures SudoCommand(pwd, cmd) == "echo '" + pwd + "' | sudo -S -p '' " + cmd
  {
    EscapeWithoutQuotes(pwd);
  }

  /** The open SSH session, with the parameters it was opened with. */
  datatype SshSession = SshSession(hostname: string, username: string, password: string, port: int)

  class SshClient {
    var host: string
    var user: string
    var pwd: string
    var port: int
    var client: Option<SshSession>

    /** A new client is not connected. */
    constructor (hostname: string, username: string, password: string, port: int := 22)
      ensures host == hostname && user == username && pwd == password && this.port == port
      ensures client == None
    {
      host := hostname;
      user := username;
      pwd := password;
      this.port := port;
      client := None;
    }

    /** `connect`: opens the session with the client's own parameters. */
    method Connect()
      modifies this
      ensures client == Some(SshSession(host, user, pwd, port))
      ensures host == old(host) && user == old(user) && pwd == old(pwd) && port == old(port)
    {
      client := Some(SshSession(host, user, pwd, port));
    }

    /**
     * `run`: the text handed to the session. Without a session there is nothing to run it on
     * and the call fails.
     */
    method Run(cmd: string, sudo: bool := false) returns (sent: Option<string>)
      ensures client.None? ==> sent == None
      ensures client.Some? && !sudo ==> sent == Some(cmd)
      ensures client.Some? && sudo ==> sent == Some(SudoCommand(pwd, cmd))
    {
      var text := cmd;
      if sudo {
        var safe := Escape(pwd);
        text := "echo '" + safe + "' | sudo -S -p '' " + cmd;
        assert text == SudoCommand(pwd, cmd) by {
          assert "echo '" == "echo " + [Quote];
          assert "' | sudo -S -p '' " == [Quote] + " | sudo -S -p '' ";
        }
      }
      if client.None? {
        sent := None;
      } else {
        sent := Some(text);
      }
    }
  }

  // ---------------------------------------------------------------------------
  // run_vlan_test
  // ---------------------------------------------------------------------------

  /** What the switch was asked to do. */
  datatype Op =
    | VlanAdd(id: int)
    | FlushIp(iface: string)
    | MemberAdd(id: int, iface: string)
    | ShowVlanBrief
    | MemberDel(id: int, iface: string)
    | VlanDel(id: int)

  function CommandText(op: Op): (r: string) {
    match op
    case VlanAdd(id) => "config vlan add " + IntToString(id)
    case FlushIp(iface) => "ip addr flush dev " + iface
    case MemberAdd(id, iface) => "config vlan member add " + IntToString(id) + " " + iface
    case ShowVlanBrief => "show vlan brief"
    case MemberDel(id, iface) => "config vlan member del " + IntToString(id) + " " + iface
    case VlanDel(id) => "config vlan del " + IntToString(id)
  }

  /** A step of the test: its log tag, what it asks, and whether it runs under sudo. */
  datatype Step = Step(tag: string, op: Op, sudo: bool)

  const TestSteps: seq<Step> := [
    Step("CREATE VLAN", VlanAdd(VlanId), true),
    Step("FLUSH IP", FlushIp(TargetInterface), true),
    Step("ADD MEMBER", MemberAdd(VlanId, TargetInterface), true),
    Step("SHOW VLAN", ShowVlanBrief, false),
    Step("DELETE MEMBER", MemberDel(VlanId, TargetInterface), true),
    Step("DELETE VLAN", VlanDel(VlanId), true)
  ]

  /** What a command gave back: exit status, standard output, standard error. */
  datatype Reply = Reply(status: int, out: string, err: string)

  /** The log entry of one command: the tag in brackets, then its output and its errors. */
  function LogEntry(tag: string, reply: Reply): (r: string) {
    "[" + tag + "]\n" + reply.out + "\n" + reply.err + "\n"
  }

  /** The texts sent for the first `n` steps. */
  function SentCommands(pwd: string, n: nat): (sent: seq<string>)
    requires n <= |TestSteps|
    ensures |sent| == n
  {
    if n == 0 then [] else SentCommands(pwd, n - 1) + [SentCommand(pwd, CommandText(TestSteps[n - 1].op), TestSteps[n - 1].sudo)]
  }

  lemma {:induction false} SentCommandsAt(pwd: string, n: nat, k: nat)
    requires n <= |TestSteps| && k < n
    ensures SentCommands(pwd, n)[k] == SentCommand(pwd, CommandText(TestSteps[k].op), TestSteps[k].sudo)
  {
    if k < n - 1 {
      SentCommandsAt(pwd, n - 1, k);
    }
  }

  /** The log entries of the first `n` steps. */
  function LogEntries(replies: seq<Reply>, n: nat): (entries: seq<string>)
    requires n <= |TestSteps| && |replies| == |TestSteps|
    ensures |entries| == n
  {
    if n == 0 then [] else LogEntries(replies, n - 1) + [LogEntry(TestSteps[n - 1].tag, replies[n - 1])]
  }

  lemma {:induction false} LogEntriesAt(replies: seq<Reply>, n: nat, k: nat)
    requires n <= |TestSteps| && |replies| == |TestSteps| && k < n
    ensures LogEntries(replies, n)[k] == LogEntry(TestSteps[k].tag, replies[k])
  {
    if k < n - 1 {
      LogEntriesAt(replies, n - 1, k);
    }
  }

  /** Each step's log tag, command text and sudo flag, written out. */
  lemma StepTable(id: string)
    requires id == IntToString(VlanId)
    ensures TestSteps[0].tag == "CREATE VLAN" && TestSteps[0].sudo
      && CommandText(TestSteps[0].op) == "config vlan add " + id
    ensures TestSteps[1].tag == "FLUSH IP" && TestSteps[1].sudo
      && CommandText(TestSteps[1].op) == "ip addr flush dev " + TargetInterface
    ensures TestSteps[2].tag == "ADD MEMBER" && TestSteps[2].sudo
      && CommandText(TestSteps[2].op) == "config vlan member add " + id + " " + TargetInterface
    ensures TestSteps[3].tag == "SHOW VLAN" && !TestSteps[3].sudo
      && CommandText(TestSteps[3].op) == "show vlan brief"
    ensures TestSteps[4].tag == "DELETE MEMBER" && TestSteps[4].sudo
      && CommandText(TestSteps[4].op) == "config vlan member del " + id + " " + TargetInterface
    ensures TestSteps[5].tag == "DELETE VLAN" && TestSteps[5].sudo
      && CommandText(TestSteps[5].op) == "config vlan del " + id
  {
  }

  /**
   * `run_vlan_test` after the connection has been read: the texts sent, in order, and the
   * content of the log file. `replies` are the switch's answers, one per step.
   */
  method RunVlanTest(ip: string, user: string, pwd: string, replies: seq<Reply>) returns (sent: seq<string>, log: string)
    requires |replies| == |TestSteps|
    ensures sent == SentCommands(pwd, |TestSteps|)
    ensures log == Join(LogEntries(replies, |TestSteps|), "\n")
  {
    var cli := new SshClient(ip, user, pwd);
    cli.Connect();
    var id := IntToString(VlanId);
    StepTable(id);
    var logs: seq<string> := [];
    sent := [];

    var s := cli.Run("config vlan add " + id, true);
    sent := sent + [s.value];
    assert sent == SentCommands(pwd, 1);
    logs := logs + [LogEntry("CREATE VLAN", replies[0])];
    assert logs == LogEntries(replies, 1);

    s := cli.Run("ip addr flush dev " + TargetInterface, true);
    sent := sent + [s.value];
    assert sent == SentCommands(pwd, 2);
    logs := logs + [LogEntry("FLUSH IP", replies[1])];
    assert logs == LogEntries(replies, 2);

    s := cli.Run("config vlan member add " + id + " " + TargetInterface, true);
    sent := sent + [s.value];
    assert sent == SentCommands(pwd, 3);
    logs := logs + [LogEntry("ADD MEMBER", replies[2])];
    assert logs == LogEntries(replies, 3);

    s := cli.Run("show vlan brief");
    sent := sent + [s.value];
    assert sent == SentCommands(pwd, 4);
    logs := logs + [LogEntry("SHOW VLAN", replies[3])];
    assert logs == LogEntries(replies, 4);

    s := cli.Run("config vlan member del " + id + " " + TargetInterface, true);
    sent := sent + [s.value];
    assert sent == SentCommands(pwd, 5);
    logs := logs + [LogEntry("DELETE MEMBER", replies[4])];
    assert logs == LogEntries(replies, 5);

    s := cli.Run("config vlan del " + id, true);
    sent := sent + [s.value];
    assert sent == SentCommands(pwd, 6);
    logs := logs + [LogEntry("DELETE VLAN", replies[5])];
    assert logs == LogEntries(replies, 6);

    log := Join(logs, "\n");
  }

  /** All steps but `show vlan brief` run under sudo. */
  lemma OnlyShowWithoutSudo()
    ensures forall k :: 0 <= k < |TestSteps| ==> (TestSteps[k].sudo <==> TestSteps[k].op != ShowVlanBrief)
  {
  }

  // ---------------------------------------------------------------------------
  // The VLAN table the steps act on
  // ---------------------------------------------------------------------------

  /**
   * The switch's VLANs and their member ports, and how it answers each step: it refuses to
   * create a VLAN that exists, to add a member to a missing VLAN or twice, to remove a port
   * that is not a member, and to delete a VLAN that still has members.
   */
  function ApplyOp(vlans: map<int, set<string>>, op: Op): (r: Option<map<int, set<string>>>) {
    match op
    case VlanAdd(id) => if id in vlans then None else Some(vlans[id := {}])
    case FlushIp(_) => Some(vlans)
    case MemberAdd(id, p) => if id !in vlans || p in vlans[id] then None else Some(vlans[id := vlans[id] + {p}])
    case ShowVlanBrief => Some(vlans)
    case MemberDel(id, p) => if id !in vlans || p !in vlans[id] then None else Some(vlans[id := vlans[id] - {p}])
    case VlanDel(id) => if id !in vlans || vlans[id] != {} then None else Some(vlans - {id})
  }

  /** The steps in order; None from the first refused one on. */
  function ApplySteps(vlans: map<int, set<string>>, steps: seq<Step>): (r: Option<map<int, set<string>>>)
    decreases |steps|
  {
    if steps == [] then Some(vlans)
    else
      var next := ApplyOp(vlans, steps[0].op);
      if next.None? then None else ApplySteps(next.value, steps[1..])
  }

  /** Before `show vlan brief`, VLAN 10 exists with Ethernet4 as its only member. */
  lemma MemberShownBySecondHalf(vlans: map<int, set<string>>)
    requires VlanId !in vlans
    ensures ApplySteps(vlans, TestSteps[..3]) == Some(vlans[VlanId := {TargetInterface}])
  {
    var steps := TestSteps[..3];
    var t1 := vlans[VlanId := {}];
    var t3 := vlans[VlanId := {TargetInterface}];
    assert ApplyOp(vlans, steps[0].op) == Some(t1);
    assert ApplySteps(vlans, steps) == ApplySteps(t1, steps[1..]);
    assert ApplyOp(t1, steps[1..][0].op) == Some(t1);
    assert ApplySteps(t1, steps[1..]) == ApplySteps(t1, steps[2..]);
    assert t1[VlanId] + {TargetInterface} == {TargetInterface};
    assert t1[VlanId := {TargetInterface}] == t3;
    assert ApplyOp(t1, steps[2..][0].op) == Some(t3);
    assert steps[2..][1..] == [];
    assert ApplySteps(t1, steps[2..]) == ApplySteps(t3, []);
  }

  /** On a switch without VLAN 10, every step is accepted and the VLAN table ends as it began. */
  lemma VlanTestLeavesTableUnchanged(vlans: map<int, set<string>>)
    requires VlanId !in vlans
    ensures ApplySteps(vlans, TestSteps) == Some(vlans)
  {
    var t3 := vlans[VlanId := {TargetInterface}];
    var t5 := vlans[VlanId := {}];
    MemberShownBySecondHalf(vlans);
    ApplyStepsAppend(vlans, TestSteps[..3], TestSteps[3..]);
    assert TestSteps[..3] + TestSteps[3..] == TestSteps;
    var rest := TestSteps[3..];
    assert ApplySteps(t3, rest) == ApplySteps(t3, rest[1..]);
    assert t3[VlanId] - {TargetInterface} == {};
    assert t3[VlanId := {}] == t5;
    assert ApplyOp(t3, rest[1..][0].op) == Some(t5);
    assert ApplySteps(t3, rest[1..]) == ApplySteps(t5, rest[2..]);
    assert t5 - {VlanId} == vlans;
    assert ApplyOp(t5, rest[2..][0].op) == Some(vlans);
    assert rest[2..][1..] == [];
    assert ApplySteps(t5, rest[2..]) == ApplySteps(vlans, []);
  }

  lemma {:induction false} ApplyStepsAppend(vlans: map<int, set<string>>, a: seq<Step>, b: seq<Step>)
    requires ApplySteps(vlans, a).Some?
    ensures ApplySteps(vlans, a + b) == ApplySteps(ApplySteps(vlans, a).value, b)
    decreases |a|
  {
    if a == [] {
      assert a + b == b;
    } else {
      assert (a + b)[1..] == a[1..] + b;
      ApplyStepsAppend(ApplyOp(vlans, a[0].op).value, a[1..], b);
    }
  }

  /** Deleting the VLAN while Ethernet4 is still a member would be refused. */
  lemma DeleteBeforeMemberRemovalRefused(vlans: map<int, set<string>>)
    requires VlanId !in vlans
    ensures ApplySteps(vlans, TestSteps[..4] + [TestSteps[5]]) == None
  {
    MemberShownBySecondHalf(vlans);
    ApplyStepsAppend(vlans, TestSteps[..3], [TestSteps[3], TestSteps[5]]);
    assert TestSteps[..4] + [TestSteps[5]] == TestSteps[..3] + [TestSteps[3], TestSteps[5]];
    assert [TestSteps[3], TestSteps[5]][1..] == [TestSteps[5]];
  }
}
