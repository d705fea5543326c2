/**
 * The inter-VLAN routing test: its XML logger, the VLAN existence check, the file names of
 * saved command output, the configuration batches it sends, the cleanup of a VLAN, and the
 * ping sweep over packet sizes.
 */
module InterVlan {
  import opened Wrappers
  import opened Text
  import opened Klish
  import opened ShowVlan
  import opened Ping
  import opened CleanupList
  import opened ConfigBatches

  const TestName := "test_inter_vlan_routing"
  const PktSizes: seq<int> := [64, 128, 256, 512, 1024, 1400, 1500]
  const PingCount := 5

  // ---------------------------------------------------------------------------
  // The XML logger
  // ---------------------------------------------------------------------------

  /** The details of one ping result (the average round-trip time is not modelled). */
  datatype PingDetails = PingDetails(sourceIp: string, destinationIp: string, packetSize: int, packetLoss: nat)

  /** A child element of one of the three XML roots (timestamps are not modelled). */
  datatype Record =
    | Metadata(testName: string, logDirectory: string)
    | PreTestAction(device: string, action: string, command: string, output: string, status: string)
    | PostTestAction(device: string, action: string, command: string, output: string, status: string)
    | TestCase(caseName: string, device: string, result: string, details: PingDetails)

  /** The three roots: PreTest, PostTest and TestResults. */
  datatype Root = PreTestRoot | PostTestRoot | TestResultsRoot

  /** The kind of entry each root collects. */
  predicate IsEntryOf(r: Record, root: Root) {
    match root
    case PreTestRoot => r.PreTestAction?
    case PostTestRoot => r.PostTestAction?
    case TestResultsRoot => r.TestCase?
  }

  /** A root holds its metadata first and then only entries of its own kind. */
  predicate WellFormed(children: seq<Record>, root: Root, logDir: string) {
    && |children| >= 1
    && children[0] == Metadata(TestName, logDir)
    && forall i :: 1 <= i < |children| ==> IsEntryOf(children[i], root)
  }

  /** Adding an entry of the root's own kind keeps the root well formed. */
  lemma AppendKeepsWellFormed(children: seq<Record>, root: Root, logDir: string, r: Record)
    requires WellFormed(children, root, logDir) && IsEntryOf(r, root)
    ensures WellFormed(children + [r], root, logDir)
  {
    assert forall i :: 1 <= i < |children| ==> (children + [r])[i] == children[i];
  }

  /** A well-formed root holds exactly one metadata element, its first child. */
  lemma MetadataOnce(children: seq<Record>, root: Root, logDir: string)
    requires WellFormed(children, root, logDir)
    ensures forall i :: 0 <= i < |children| && children[i].Metadata? ==> i == 0
  {
    forall i | 1 <= i < |children|
      ensures !children[i].Metadata?
    {
      assert IsEntryOf(children[i], root);
    }
  }

  class XmlLogger {
    var logDir: string
    var pretest: seq<Record>
    var posttest: seq<Record>
    var results: seq<Record>

    predicate Valid()
      reads this
    {
      && WellFormed(pretest, PreTestRoot, logDir)
      && WellFormed(posttest, PostTestRoot, logDir)
      && WellFormed(results, TestResultsRoot, logDir)
    }

    /** Three roots, each holding only the metadata. */
    constructor(logDir: string)
      ensures Valid()
      ensures this.logDir == logDir
      ensures pretest == [Metadata(TestName, logDir)]
      ensures posttest == [Metadata(TestName, logDir)]
      ensures results == [Metadata(TestName, logDir)]
    {
      this.logDir := logDir;
      pretest := [Metadata(TestName, logDir)];
      posttest := [Metadata(TestName, logDir)];
      results := [Metadata(TestName, logDir)];
    }

    method AddPretestEntry(device: string, action: string, command: string, output: string, status: string := "PASS")
      requires Valid()
      modifies this
      ensures Valid()
      ensures pretest == old(pretest) + [PreTestAction(device, action, command, output, status)]
      ensures posttest == old(posttest) && results == old(results) && logDir == old(logDir)
    {
      AppendKeepsWellFormed(pretest, PreTestRoot, logDir, PreTestAction(device, action, command, output, status));
      pretest := pretest + [PreTestAction(device, action, command, output, status)];
    }

    method AddPosttestEntry(device: string, action: string, command: string, output: string, status: string := "PASS")
      requires Valid()
      modifies this
      ensures Valid()
      ensures posttest == old(posttest) + [PostTestAction(device, action, command, output, status)]
      ensures pretest == old(pretest) && results == old(results) && logDir == old(logDir)
    {
      AppendKeepsWellFormed(posttest, PostTestRoot, logDir, PostTestAction(device, action, command, output, status));
      posttest := posttest + [PostTestAction(device, action, command, output, status)];
    }

    method AddTestResult(caseName: string, device: string, result: string, details: PingDetails)
      requires Valid()
      modifies this
      ensures Valid()
      ensures results == old(results) + [TestCase(caseName, device, result, details)]
      ensures pretest == old(pretest) && posttest == old(posttest) && logDir == old(logDir)
    {
      AppendKeepsWellFormed(results, TestResultsRoot, logDir, TestCase(caseName, device, result, details));
      results := results + [TestCase(caseName, device, result, details)];
    }
  }

  // ---------------------------------------------------------------------------
  // Saved command output: the file name
  // ---------------------------------------------------------------------------

  /** ASCII `\w`: letters, digits and underscore. */
  predicate IsWordChar(c: char) {
    ('a' <= c <= 'z') || ('A' <= c <= 'Z') || ('0' <= c <= '9') || c == '_'
  }

  predicate IsSafeChar(c: char) {
    IsWordChar(c) || c == '-'
  }

  /** `re.sub(r'[^\w\-]', '_', ...)` on one character. */
  function SanitizeChar(c: char): (r: char) {
    if IsSafeChar(c) then c else '_'
  }

  /** Every character outside `[\w-]` replaced by an underscore, position by position. */
  function Sanitize(s: string): (r: string)
    ensures |r| == |s|
    ensures forall i :: 0 <= i < |s| ==> r[i] == SanitizeChar(s[i])
  {
    if s == [] then [] else [SanitizeChar(s[0])] + Sanitize(s[1..])
  }

  /** `safe_cmd`: the sanitised command cut to its first 50 characters. */
  function SafeCommand(command: string): (r: string)
    ensures |r| == if |command| < 50 then |command| else 50
    ensures forall i :: 0 <= i < |r| ==> r[i] == SanitizeChar(command[i])
  {
    var t := Sanitize(command);
    if |t| <= 50 then t else t[..50]
  }

  /** The name only holds letters, digits, `_` and `-`. */
  lemma SafeCommandIsSafe(command: string)
    ensures forall c :: c in SafeCommand(command) ==> IsSafeChar(c)
  {
    var r := SafeCommand(command);
    forall c | c in r
      ensures IsSafeChar(c)
    {
      var i :| 0 <= i < |r| && r[i] == c;
      assert r[i] == SanitizeChar(command[i]);
    }
  }

  /** Sanitising a sanitised name changes nothing. */
  lemma SafeCommandIdempotent(command: string)
    ensures SafeCommand(SafeCommand(command)) == SafeCommand(command)
  {
    var r := SafeCommand(command);
    var rr := SafeCommand(r);
    assert |rr| == |r|;
    forall i | 0 <= i < |r|
      ensures rr[i] == r[i]
    {
      assert r[i] == SanitizeChar(command[i]);
    }
  }

  /** A command of at most 50 safe characters is its own name. */
  lemma SafeCommandKeepsCleanCommand(command: string)
    requires |command| <= 50
    requires forall i :: 0 <= i < |command| ==> IsSafeChar(command[i])
    ensures SafeCommand(command) == command
  {
    var r := SafeCommand(command);
    assert |r| == |command|;
    forall i | 0 <= i < |command|
      ensures r[i] == command[i]
    {
    }
  }

  /** `f"{device_name}_{safe_cmd}_{timestamp}.log"` with the whole-second clock reading `timestamp`. */
  function LogFileName(device: string, command: string, timestamp: nat): (r: string) {
    device + "_" + SafeCommand(command) + "_" + IntToString(timestamp) + ".log"
  }

  /** The name stays inside the log directory when the device name has no path separator. */
  lemma LogFileNameStaysInDirectory(device: string, command: string, timestamp: nat)
    requires '/' !in device
    ensures '/' !in LogFileName(device, command, timestamp)
  {
    SafeCommandIsSafe(command);
    var t := IntToString(timestamp);
    assert forall c :: c in t ==> IsDigit(c) by {
      assert t == NatToString(timestamp);
    }
    var name := LogFileName(device, command, timestamp);
    assert name == device + "_" + SafeCommand(command) + "_" + t + ".log";
    assert '/' !in ".log";
  }

  // ---------------------------------------------------------------------------
  // check_vlan_exists and get_vlan_members
  // ---------------------------------------------------------------------------

  /** `check_vlan_exists`: "Vlan<id>" or " <id> " anywhere in the `show vlan brief` text. */
  predicate VlanExists(output: string, vlan: string) {
    Mentions(output, vlan, NameOrBareId)
  }

  /** The check is a substring test: a VLAN whose id extends `vlan` by a digit makes `vlan` exist. */
  lemma ExistsOnLongerId(vlan: string, d: char, rest: string)
    ensures VlanExists(VlanName(vlan + [d]) + rest, vlan)
  {
    var s := VlanName(vlan + [d]) + rest;
    assert s == VlanName(vlan) + ([d] + rest);
    ContainsAt(s, VlanName(vlan), 0);
  }

  /** When both reads see the same text, a VLAN with members passes the existence check. */
  lemma MembersImplyExists(output: string, vlan: string)
    requires Members(output, vlan, NameOrBareId) != []
    ensures VlanExists(output, vlan)
  {
    MembersImplyMention(output, vlan, NameOrBareId);
  }

  /** `get_vlan_members`, on the text of its own `show vlan brief`. */
  method GetVlanMembers(output: string, vlan: string) returns (members: seq<string>)
    ensures members == Members(output, vlan, NameOrBareId)
    ensures forall p :: p in members ==> IsPortName(p)
  {
    members := CollectMembers(output, vlan, NameOrBareId);
    MembersArePortNames(output, vlan, NameOrBareId);
  }

  // ---------------------------------------------------------------------------
  // Configuration batches of this test
  // ---------------------------------------------------------------------------

  /** `add_interface_to_vlan`: first `remove_ip_from_interface`, then the access-port batch. */
  function AddInterfaceToVlanBatches(iface: string, vlan: string): (r: seq<seq<string>>) {
    [RemoveIpCommands(iface), AccessPortCommands(vlan, iface)]
  }

  /** The port loses its address, then becomes an access port of the VLAN. */
  lemma AddInterfaceToVlanEffect(iface: string, vlan: string)
    ensures Effects(AddInterfaceToVlanBatches(iface, vlan)) ==
      [Action(InterfaceMode(iface), "no ip address"), Action(InterfaceMode(iface), "switchport access vlan " + vlan)]
  {
    EffectsTwo(RemoveIpCommands(iface), AccessPortCommands(vlan, iface));
    RemoveIpEffect(iface);
    AccessPortEffect(vlan, iface);
  }

  /** `configure_vlan_ip`. */
  function ConfigureVlanIpCommands(vlan: string, ip: string): (r: seq<string>) {
    ["configure terminal", "vlan " + vlan, "exit", "interface Vlan" + vlan, "no shutdown",
     "ip address " + ip, "exit", "exit"]
  }

  /**
   * The batch passes through the VLAN's mode (which creates it), brings interface Vlan<id> up
   * and gives it the address, and ends in the starting mode.
   */
  lemma ConfigureVlanIpEffect(vlan: string, ip: string)
    ensures Run(Session(Exec, []), ConfigureVlanIpCommands(vlan, ip)[..2]) == Session(VlanMode(vlan), [])
    ensures Batch(ConfigureVlanIpCommands(vlan, ip)) ==
      Session(Exec, [Action(InterfaceMode("Vlan" + vlan), "no shutdown"),
                     Action(InterfaceMode("Vlan" + vlan), "ip address " + ip)])
  {
    var svi := "Vlan" + vlan;
    var a := ["configure terminal", "vlan " + vlan, "exit"];
    var b := ["interface " + svi, "no shutdown", "ip address " + ip];
    var c := ["exit", "exit"];
    assert "interface Vlan" + vlan == "interface " + svi;
    assert ConfigureVlanIpCommands(vlan, ip) == a + b + c;
    assert ConfigureVlanIpCommands(vlan, ip)[..2] == CreateVlanCommands(vlan)[..2];
    CreateVlanEffect(vlan);
    var a1 := Action(InterfaceMode(svi), "no shutdown");
    var a2 := Action(InterfaceMode(svi), "ip address " + ip);
    RunThree(Session(Config, []), "interface " + svi, "no shutdown", "ip address " + ip);
    EnterInterface([], svi);
    Act(InterfaceMode(svi), [], "no shutdown");
    assert "ip address " + ip != "exit" by {
      assert ("ip address " + ip)[0] == 'i';
    }
    Act(InterfaceMode(svi), [a1], "ip address " + ip);
    RunTwo(Session(InterfaceMode(svi), [a1, a2]), "exit", "exit");
    RunAppend(Session(Exec, []), a + b, c);
    RunAppend(Session(Exec, []), a, b);
  }

  /** `configure_interface_ip`: first `remove_ip_from_interface`, then the address batch. */
  function ConfigureInterfaceIpBatches(iface: string, ip: string): (r: seq<seq<string>>) {
    [RemoveIpCommands(iface),
     ["configure terminal", "interface " + iface, "no shutdown", "ip address " + ip, "exit", "exit"]]
  }

  /** The port loses its old address, is brought up, and gets the new address. */
  lemma ConfigureInterfaceIpEffect(iface: string, ip: string)
    ensures Effects(ConfigureInterfaceIpBatches(iface, ip)) ==
      [Action(InterfaceMode(iface), "no ip address"), Action(InterfaceMode(iface), "no shutdown"),
       Action(InterfaceMode(iface), "ip address " + ip)]
  {
    var second := ["configure terminal", "interface " + iface, "no shutdown", "ip address " + ip, "exit", "exit"];
    EffectsTwo(RemoveIpCommands(iface), second);
    RemoveIpEffect(iface);
    var a1 := Action(InterfaceMode(iface), "no shutdown");
    var a2 := Action(InterfaceMode(iface), "ip address " + ip);
    var a := ["configure terminal", "interface " + iface, "no shutdown"];
    var b := ["ip address " + ip, "exit", "exit"];
    assert second == a + b;
    RunThree(Session(Exec, []), "configure terminal", "interface " + iface, "no shutdown");
    ConfigureTerminal([]);
    EnterInterface([], iface);
    Act(InterfaceMode(iface), [], "no shutdown");
    RunThree(Session(InterfaceMode(iface), [a1]), "ip address " + ip, "exit", "exit");
    assert "ip address " + ip != "exit" by {
      assert ("ip address " + ip)[0] == 'i';
    }
    Act(InterfaceMode(iface), [a1], "ip address " + ip);
    assert Run(Session(Exec, []), a) == Session(InterfaceMode(iface), [a1]);
    assert Run(Session(InterfaceMode(iface), [a1]), b) == Session(Exec, [a1, a2]);
    RunAppend(Session(Exec, []), a, b);
    assert Batch(second) == Session(Exec, [a1, a2]);
  }

  /** `add_static_route`. */
  function AddStaticRouteCommands(destination: string, gateway: string): (r: seq<string>) {
    ["configure terminal", "ip route " + destination + " " + gateway, "exit"]
  }

  /** The route is added from configuration mode and the batch ends in the starting mode. */
  lemma AddStaticRouteEffect(destination: string, gateway: string)
    ensures Batch(AddStaticRouteCommands(destination, gateway)) ==
      Session(Exec, [Action(Config, "ip route " + destination + " " + gateway)])
  {
    var route := "ip route " + destination + " " + gateway;
    RunThree(Session(Exec, []), "configure terminal", route, "exit");
    ConfigureTerminal([]);
    assert route[..9] == "ip route ";
    assert !(InterfacePrefix <= route) by {
      assert route[1] != InterfacePrefix[1];
    }
    assert !(VlanPrefix <= route) by {
      assert route[0] != VlanPrefix[0];
    }
    assert route != "exit" by {
      assert route[0] != 'e';
    }
    Act(Config, [], route);
  }

  // ---------------------------------------------------------------------------
  // cleanup_vlan
  // ---------------------------------------------------------------------------

  /** The list `cleanup_vlan` builds, extended piece by piece. */
  method BuildCleanupCommands(vlan: string, members: seq<string>) returns (commands: seq<string>)
    ensures commands == CleanupCommands(vlan, members)
  {
    commands := ["configure terminal"];
    commands := commands + ["interface Vlan" + vlan, "no ip address", "exit"];
    var i := 0;
    while i < |members|
      invariant 0 <= i <= |members|
      invariant commands == ["configure terminal", "interface Vlan" + vlan, "no ip address", "exit"] + DetachAll(members[..i])
    {
      DetachAllAppend(members[..i], members[i]);
      assert members[..i + 1] == members[..i] + [members[i]];
      commands := commands + ["interface " + members[i], "no switchport access vlan", "exit"];
      i := i + 1;
    }
    assert members[..i] == members;
    commands := commands + ["no vlan " + vlan, "exit"];
  }

  /**
   * `cleanup_vlan`, given the replies of its two `show vlan brief` reads and of the configuration
   * call. When the VLAN is absent nothing is sent and a SKIPPED entry is logged; otherwise one
   * batch is sent (the cleanup list for the members read) and logged as PASS with the commands
   * one per line.
   */
  method CleanupVlan(dut: string, vlan: string, briefForCheck: string, briefForMembers: string,
                     configReply: string, logger: XmlLogger?)
    returns (sent: seq<seq<string>>)
    requires logger != null ==> logger.Valid()
    modifies logger
    ensures logger != null ==> logger.Valid()
    ensures logger != null ==>
      logger.posttest == old(logger.posttest) && logger.results == old(logger.results) && logger.logDir == old(logger.logDir)
    ensures !VlanExists(briefForCheck, vlan) ==> sent == []
    ensures !VlanExists(briefForCheck, vlan) && logger != null ==>
      logger.pretest == old(logger.pretest) + [PreTestAction(dut, "Check VLAN " + vlan, "show vlan", "VLAN does not exist", "SKIPPED")]
    ensures VlanExists(briefForCheck, vlan) ==> sent == [CleanupCommands(vlan, Members(briefForMembers, vlan, NameOrBareId))]
    ensures VlanExists(briefForCheck, vlan) && logger != null ==>
      logger.pretest == old(logger.pretest) + [PreTestAction(dut, "Cleanup VLAN " + vlan, Join(sent[0], "\n"), configReply, "PASS")]
  {
    if !VlanExists(briefForCheck, vlan) {
      if logger != null {
        logger.AddPretestEntry(dut, "Check VLAN " + vlan, "show vlan", "VLAN does not exist", "SKIPPED");
      }
      return [];
    }
    var members := GetVlanMembers(briefForMembers, vlan);
    var commands := BuildCleanupCommands(vlan, members);
    sent := [commands];
    if logger != null {
      logger.AddPretestEntry(dut, "Cleanup VLAN " + vlan, Join(commands, "\n"), configReply, "PASS");
    }
  }

  // ---------------------------------------------------------------------------
  // ping_test and verify_connectivity
  // ---------------------------------------------------------------------------

  /** `ping <dst> -s <size> -c <count>`, without a source interface. */
  function PingCommand(dst: string, size: int, count: int): (r: string) {
    "ping " + dst + " -s " + IntToString(size) + " -c " + IntToString(count)
  }

  lemma PingCommandIsJoin(dst: string, size: int, count: int)
    ensures PingCommand(dst, size, count) == Join(["ping", dst, "-s", IntToString(size), "-c", IntToString(count)], " ")
  {
    var z, c := IntToString(size), IntToString(count);
    var head := ["ping", dst];
    var tail := ["-s", z, "-c", c];
    PlainHead(dst);
    JoinFour("-s", z, "-c", c);
    JoinAppend(head, tail);
    assert head + tail == ["ping", dst, "-s", z, "-c", c];
  }

  /** `split()` on the command gives its arguments, and there is no `-I` among them. */
  lemma PingCommandArguments(dst: string, size: int, count: int)
    requires IsWord(dst) && dst != "-I"
    ensures Words(PingCommand(dst, size, count)) == ["ping", dst, "-s", IntToString(size), "-c", IntToString(count)]
    ensures "-I" !in Words(PingCommand(dst, size, count))
  {
    var z, c := IntToString(size), IntToString(count);
    var args := ["ping", dst, "-s", z, "-c", c];
    PingCommandIsJoin(dst, size, count);
    IntToStringIsWord(size);
    IntToStringIsWord(count);
    WordsOfUnwords(args);
    NumberIsNotSourceOption(size);
    NumberIsNotSourceOption(count);
  }

  /** The name of the result entry for one packet size. */
  function PingCaseName(size: int): (r: string) {
    "Ping Test (size=" + IntToString(size) + ")"
  }

  /** The entry `ping_test` logs for one reply. */
  function PingRecord(dut: string, srcIp: string, dstIp: string, size: int, reply: string): (r: Record) {
    TestCase(PingCaseName(size), dut,
             if PingPassed(reply) then "PASS" else "FAIL",
             PingDetails(srcIp, dstIp, size, LossPercent(reply)))
  }

  /**
   * `ping_test` given the device's reply: the command it sends, its verdict (no loss), and the
   * result entry it logs.
   */
  method PingTest(dut: string, srcIp: string, dstIp: string, reply: string, logger: XmlLogger?,
                  pktSize: int := 64, count: int := 5)
    returns (cmd: string, passed: bool)
    requires logger != null ==> logger.Valid()
    modifies logger
    ensures cmd == PingCommand(dstIp, pktSize, count)
    ensures passed <==> LossPercent(reply) == 0
    ensures logger != null ==> logger.Valid()
    ensures logger != null ==>
      && logger.results == old(logger.results) + [PingRecord(dut, srcIp, dstIp, pktSize, reply)]
      && logger.pretest == old(logger.pretest) && logger.posttest == old(logger.posttest)
      && logger.logDir == old(logger.logDir)
  {
    cmd := "ping " + dstIp + " -s " + IntToString(pktSize) + " -c " + IntToString(count);
    var loss := LossPercent(reply);
    passed := loss == 0;
    if logger != null {
      logger.AddTestResult(PingCaseName(pktSize), dut,
                           if passed then "PASS" else "FAIL",
                           PingDetails(srcIp, dstIp, pktSize, loss));
    }
  }

  /** The entries logged for the first `n` packet sizes and their replies, in order. */
  function PingRecords(dut: string, srcIp: string, dstIp: string, sizes: seq<int>, replies: seq<string>, n: nat): (rs: seq<Record>)
    requires |replies| == |sizes| && n <= |sizes|
    ensures |rs| == n
  {
    if n == 0 then []
    else PingRecords(dut, srcIp, dstIp, sizes, replies, n - 1) + [PingRecord(dut, srcIp, dstIp, sizes[n - 1], replies[n - 1])]
  }

  /** Entry `k` is the one for the `k`-th packet size and its reply. */
  lemma {:induction false} PingRecordsAt(dut: string, srcIp: string, dstIp: string, sizes: seq<int>, replies: seq<string>, n: nat, k: nat)
    requires |replies| == |sizes| && k < n <= |sizes|
    ensures PingRecords(dut, srcIp, dstIp, sizes, replies, n)[k] == PingRecord(dut, srcIp, dstIp, sizes[k], replies[k])
  {
    var prev := PingRecords(dut, srcIp, dstIp, sizes, replies, n - 1);
    var last := PingRecord(dut, srcIp, dstIp, sizes[n - 1], replies[n - 1]);
    assert PingRecords(dut, srcIp, dstIp, sizes, replies, n) == prev + [last];
    if k < n - 1 {
      PingRecordsAt(dut, srcIp, dstIp, sizes, replies, n - 1, k);
      assert (prev + [last])[k] == prev[k];
    }
  }

  /** Whether the first `n` replies all show no loss. */
  predicate AllPassed(replies: seq<string>, n: nat)
    requires n <= |replies|
  {
    n == 0 || (AllPassed(replies, n - 1) && PingPassed(replies[n - 1]))
  }

  lemma {:induction false} AllPassedEveryPing(replies: seq<string>, n: nat)
    requires n <= |replies|
    ensures AllPassed(replies, n) <==> forall k :: 0 <= k < n ==> PingPassed(replies[k])
  {
    if n > 0 {
      AllPassedEveryPing(replies, n - 1);
    }
  }

  /**
   * The loop of `verify_connectivity` over the given packet sizes, with one reply per size:
   * one ping per size in order, one result entry per size, and a verdict that holds exactly
   * when every ping lost nothing.
   */
  method PingSweep(dut: string, srcIp: string, dstIp: string, sizes: seq<int>, count: int,
                   replies: seq<string>, logger: XmlLogger?)
    returns (allPassed: bool)
    requires |replies| == |sizes|
    requires logger != null ==> logger.Valid()
    modifies logger
    ensures allPassed <==> forall k :: 0 <= k < |replies| ==> PingPassed(replies[k])
    ensures logger != null ==> logger.Valid()
    ensures logger != null ==> logger.results == old(logger.results) + PingRecords(dut, srcIp, dstIp, sizes, replies, |sizes|)
    ensures logger != null ==> logger.pretest == old(logger.pretest) && logger.posttest == old(logger.posttest)
  {
    ghost var r0: seq<Record>, p0: seq<Record>, q0: seq<Record> := [], [], [];
    if logger != null {
      r0, p0, q0 := logger.results, logger.pretest, logger.posttest;
    }
    allPassed := true;
    var i := 0;
    while i < |sizes|
      invariant 0 <= i <= |sizes|
      invariant allPassed == AllPassed(replies, i)
      invariant logger != null ==> logger.Valid()
      invariant logger != null ==> logger.results == r0 + PingRecords(dut, srcIp, dstIp, sizes, replies, i)
      invariant logger != null ==> logger.pretest == p0 && logger.posttest == q0
    {
      var _, result := PingTest(dut, srcIp, dstIp, replies[i], logger, sizes[i], count);
      if !result {
        allPassed := false;
      }
      i := i + 1;
    }
    AllPassedEveryPing(replies, |replies|);
  }

  /** `verify_connectivity`: the sweep over the test's packet sizes with its ping count. */
  method VerifyConnectivity(dut: string, srcIp: string, dstIp: string, replies: seq<string>, logger: XmlLogger?)
    returns (allPassed: bool)
    requires |replies| == |PktSizes|
    requires logger != null ==> logger.Valid()
    modifies logger
    ensures allPassed <==> forall k :: 0 <= k < |replies| ==> PingPassed(replies[k])
    ensures logger != null ==> logger.Valid()
    ensures logger != null ==> logger.results == old(logger.results) + PingRecords(dut, srcIp, dstIp, PktSizes, replies, |PktSizes|)
    ensures logger != null ==> logger.pretest == old(logger.pretest) && logger.posttest == old(logger.posttest)
  {
    allPassed := PingSweep(dut, srcIp, dstIp, PktSizes, PingCount, replies, logger);
  }
}
