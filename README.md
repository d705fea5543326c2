# VLAN test scripts for a SONiC switch, modelled in Dafny

The model covers four pytest scripts that configure and check VLANs on a SONiC switch:

- `tests/test_inter_vlan.py`: inter-VLAN routing, with an XML logger.
- `tests/test_full_vlans.py` and `tests/test_full_vlan.py`: the full VLAN validation test, in two variants.
- `tests/test_add_vlan.py`: a VLAN add/remove run over SSH.

The scripts talk to the switch through a test framework. `st.show` returns the device's text output. `st.config` sends a batch of Klish CLI commands.

The model keeps the logic that sits between those calls:

- **Reading `show vlan` text.** This covers the VLAN existence test and the member extractor. Lines that name the VLAN are kept; their whitespace tokens that mention `Ethernet` are kept; those tokens are split at commas.
- **The command batches each helper builds.** These are create VLAN, remove an address, attach or detach an access port, the VLAN interface's address, and a static route. Each script's VLAN cleanup is modelled too.
- **What the batches do on the CLI.** A small model of Klish modes gives each command list a meaning as a list of actions, each carried out in a mode.
- **The ping verdict.** The loss is the number before the first `% packet loss`, or 100 when there is none. The ping passes when the loss is 0. Two scripts also compare the verdict with an expected one. The ping command lines are modelled as well.
- **The two-tier `verify_vlan`.** The raw text is scanned when the parsed records are empty. Otherwise the records are searched by `vid` and their `ports` are checked.
- **The XML logger.** It keeps three append-only record lists, each beginning with its metadata record.
- **Small helpers.**
  - The file-name sanitiser for saved command output.
  - The testbed connection extractor.
  - The `sudo` wrapping of a command. Its password quoting is read back under the single- and double-quote rules of IEEE Std 1003.1 (POSIX), Shell Command Language, sections 2.2.2 and 2.2.3.
  - The fixed command and log order of the SSH VLAN run.

## How the model maps to the scripts

**Device output and commands.**
- Device output is a `string` parameter.
- A batch sent with `st.config` is a `seq<string>`.
- A helper that sends several batches returns a `seq<seq<string>>`.

**Failures.**
- `st.report_fail`, `st.error` followed by `return False`, and the warning of a failed cleanup become a boolean verdict.
- The `assert False` of the expected-verdict ping check becomes an `Outcome` value.

**Mutable state.**
- `XMLLogger` and `SshClient` are classes whose methods update their fields.
- Loops that accumulate become `while` loops proved against a specification function. Examples are the member reader, the cleanup list and the ping sweep.

**Text operations.** The Python string operations the scripts use are defined in module `Text`:
- `in` on strings;
- `splitlines()`, `split()` and `split(",")`;
- `join`;
- `str` of an integer.

**The ping pattern.** `re.search(r"(\d+)% packet loss", ...)` is modelled by module `Ping` as a leftmost match with a greedy digit run.

**The Klish CLI model (module `Klish`).**
- `configure terminal` enters configuration mode.
- In configuration mode, `interface <name>` and `vlan <id>` enter that interface's or VLAN's mode.
- `exit` leaves one level.
- Every other command is an action carried out in the current mode.
- Each batch starts in the CLI's starting mode.

## Model

| member | source | states |
|---|---|---|
| Text.Contains | tests/test_inter_vlan.py:209 | definition of Python's `sub in s`: `sub` occurs in `s` as one contiguous block. Its use is stated by `ShowVlan.MembersComeFromMentioningLines` and `InterVlan.ExistsOnLongerId` |
| Text.Lines | tests/test_inter_vlan.py:220 | definition of `splitlines()`: the text between line boundaries, `\r\n` counting as one boundary, no empty line after a final boundary. Stated by `Text.LinesHaveNoBreak`, `Text.LinesAreInfixes` and `Text.LinesOfJoin` |
| Text.Words | tests/test_inter_vlan.py:222 | definition of `split()`: the maximal runs of non-whitespace characters, in order. Stated by `Text.WordsAreWords` and `Text.WordsOfUnwords` |
| Text.Split | tests/test_inter_vlan.py:225 | definition of `split(",")`, keeping empty pieces; it always has at least one piece. Stated by `Text.SplitPieces`, `Text.JoinSplit` and `Text.SplitJoin` |
| Text.Join | tests/test_inter_vlan.py:301 | definition of `sep.join(parts)`. Stated by `Text.LinesOfJoin`, `Text.WordsOfUnwords` and `Text.JoinSplit` |
| Text.IntToString | tests/test_inter_vlan.py:402 | definition of `str(i)`: a `-` for a negative number, then the shortest decimal numeral. Stated by `Text.NatToStringRoundTrip` and `Text.IntToStringIsWord` |
| Text.LinesHaveNoBreak | tests/test_inter_vlan.py:220 | no line produced by `splitlines()` contains a line boundary |
| Text.LinesAreInfixes | tests/test_inter_vlan.py:220 | every line produced by `splitlines()` occurs in the text it came from |
| Text.LinesOfJoin | tests/test_inter_vlan.py:220 | `splitlines()` of lines joined with newlines gives back those lines |
| Text.WordsAreWords | tests/test_inter_vlan.py:222 | every token of `split()` is non-empty and holds no whitespace |
| Text.WordsOfUnwords | tests/test_inter_vlan.py:222 | `split()` of words joined with blanks gives back those words |
| Text.SplitPieces | tests/test_inter_vlan.py:225 | every piece of `split(",")` holds no comma, and each of its characters comes from the split text |
| Text.JoinSplit | tests/test_inter_vlan.py:225 | re-joining the pieces of `split(",")` with commas gives the text back |
| Text.SplitJoin | tests/test_inter_vlan.py:225 | `split(",")` of comma-free pieces joined with commas gives back the pieces |
| Text.NatToStringRoundTrip | tests/test_inter_vlan.py:411 | `int()` of the decimal text of a number is that number |
| Text.IntToStringIsWord | tests/test_inter_vlan.py:402 | a number written into a command line is one blank-free token |
| Shell.Escape | tests/test_add_vlan.py:90 | definition of `pwd.replace("'", "'\"'\"'")`: each `'` becomes close-quote, a double-quoted quote, reopen-quote. Stated by `Shell.ReadEscaped`, `Shell.EscapeInjective`, `Shell.EscapeWithoutQuotes` and `Shell.EscapeLength` |
| Shell.ReadEscaped | tests/test_add_vlan.py:90 | inside single quotes, the escaped password followed by the closing quote reads back as the password |
| Shell.QuotedWordRoundTrip | tests/test_add_vlan.py:90-91 | the shell reads `'<safe>'` back as exactly the password, under POSIX quoting rules |
| Shell.EscapeInjective | tests/test_add_vlan.py:90 | different passwords are escaped differently |
| Shell.EscapeWithoutQuotes | tests/test_add_vlan.py:90 | a password without `'` is left unchanged by the replacement |
| Shell.EscapeLength | tests/test_add_vlan.py:90 | each `'` of the password grows it by four characters; every other character is kept |
| ShowVlan.Members | tests/test_inter_vlan.py:215-228 | definition of the member reader: for each line that names the VLAN, the comma pieces of its `Ethernet` tokens, in order. The loop is proved against it by `ShowVlan.CollectMembers`; its properties are the rows below |
| ShowVlan.CollectPieces | tests/test_inter_vlan.py:223-225 | the token loop gathers the comma-split pieces of exactly the tokens containing `Ethernet`, in order |
| ShowVlan.CollectMembers | tests/test_inter_vlan.py:215-228 | the line loop returns the members defined by the extractor, for either line filter |
| ShowVlan.MembersOfLinesAppend | tests/test_inter_vlan.py:220-225 | members of consecutive blocks of lines are those of the first block followed by those of the second (order of appearance, duplicates kept) |
| ShowVlan.UnmentionedLineContributesNothing | tests/test_inter_vlan.py:220-221 | a line that does not name the VLAN can be removed without changing the members |
| ShowVlan.NoMentionNoMembers | tests/test_inter_vlan.py:220-225 | when no line names the VLAN there are no members |
| ShowVlan.MembersComeFromMentioningLines | tests/test_inter_vlan.py:220-225 | every member is a comma piece of an `Ethernet` token on a line naming the VLAN |
| ShowVlan.MembersArePortNames | tests/test_inter_vlan.py:222-225 | every member is free of blanks and commas. A member may be empty: a token ending in a comma gives an empty last piece |
| ShowVlan.TrailingCommaGivesEmptyMember | tests/test_inter_vlan.py:222-225 | the row `<head> <port>,` yields the members `<port>` and the empty string |
| ShowVlan.MembersImplyMention | tests/test_inter_vlan.py:220-225 | if there are members then the output names the VLAN |
| ShowVlan.OneLineMembers | tests/test_inter_vlan.py:220 | a single-line output yields the members of that line |
| ShowVlan.PlainTokensAddNothing | tests/test_inter_vlan.py:223-224 | tokens without `Ethernet` contribute no member |
| ShowVlan.EthernetTokenAddsItsPieces | tests/test_inter_vlan.py:224-225 | a token with `Ethernet` contributes all its comma pieces |
| ShowVlan.WordRowMembers | tests/test_inter_vlan.py:220-225 | a row of blank-separated words that names the VLAN in its first word yields the pieces of its `Ethernet` words |
| ShowVlan.RowMembers | tests/test_inter_vlan.py:220-225 | a `show vlan` row `Vlan<id> ... <p1>,<p2>,... ...` yields exactly its port list |
| ShowVlan.LongerVlanNameMatches | tests/test_full_vlans.py:116 | the row of VLAN `<id><digit>` also counts for VLAN `<id>`: `Vlan10` matches the row of `Vlan100` |
| ShowVlan.VerifyVlan | tests/test_full_vlans.py:246-281 | with no parsed records: fails iff the raw text lacks `Vlan<id>`, or lacks a given port. Otherwise: fails iff no record has that `vid`, or a port is given and some record with that `vid` lacks it. The same code is at tests/test_full_vlan.py:159-186 |
| Ping.LossPercent | tests/test_inter_vlan.py:410-411 | definition of the loss: the number of the leftmost match, or 100 without one. Stated by `Ping.NoReportMeansTotalLoss`, `Ping.LossOfReport` and `Ping.SummaryLineLoss` |
| Ping.PingPassed | tests/test_inter_vlan.py:416 | definition of the verdict: the loss is 0. Stated by `Ping.NoReportMeansTotalLoss` and `Ping.LossOfReport` |
| Ping.RunEnd | tests/test_inter_vlan.py:410 | the greedy `\d+` stops at the first non-digit |
| Ping.PatternAtIsMatchAt | tests/test_inter_vlan.py:410 | the pattern matches at a position exactly when a whole digit run starting there is followed by `% packet loss` |
| Ping.FirstMatchSpec | tests/test_inter_vlan.py:410 | `re.search` returns the leftmost position where the pattern matches, and none when it matches nowhere |
| Ping.LeftmostMatchTakesWholeNumber | tests/test_inter_vlan.py:410-411 | the leftmost match starts at the beginning of a number, not in its middle |
| Ping.NoReportMeansTotalLoss | tests/test_inter_vlan.py:410-416 | output without `% packet loss` gives loss 100, and the ping fails |
| Ping.LossOfReport | tests/test_inter_vlan.py:410-416 | text `pre <n>% packet loss ...`, where `pre` has no `%` and does not end in a digit, gives loss `n`, and passes iff `n == 0` |
| Ping.SummaryLineLoss | tests/test_inter_vlan.py:410-411 | the ping summary line `<tx> packets transmitted, <rx> received, <n>% packet loss` gives loss `n` |
| Ping.CheckExpectation | tests/test_full_vlans.py:306-324 | the `assert False` is hit iff `expect_pass` differs from `loss == 0`, with the loss reported. Otherwise the verdict is returned and equals `expect_pass` |
| Ping.NoReportSatisfiesNegativeTest | tests/test_full_vlan.py:228-241 | output without a loss report passes a test that expects failure and fails one that expects success |
| Ping.SourcedPingCommand | tests/test_full_vlan.py:219-222 | definition of the command: `ping <dst> -I <src> -c <count> -s <size>`, or the same without `-I <src>` when no source interface is given. The same code is at tests/test_full_vlans.py:289-292. Stated by `Ping.SourcedPingCommandArguments` and `Ping.SourceOptionIffGiven` |
| Ping.SourcedPingCommandArguments | tests/test_full_vlans.py:289-292 | the command splits into `ping <dst> [-I <src>] -c <count> -s <size>` |
| Ping.SourceArgumentIffGiven | tests/test_full_vlan.py:219-222 | the argument vector holds `-I` iff a source interface is given |
| Ping.SourceOptionIffGiven | tests/test_full_vlans.py:289-292 | the command line holds the word `-I` iff a non-empty source interface is given |
| ConfigBatches.RemoveIpCommands | tests/test_full_vlans.py:198-211 | definition of the `remove_ip` batch. The same list is sent by tests/test_full_vlan.py:116-125 and tests/test_inter_vlan.py:231-243. Its meaning is `ConfigBatches.RemoveIpEffect` |
| ConfigBatches.CreateVlanCommands | tests/test_full_vlan.py:109-114 | definition of the `create_vlan` batch. The same list is sent by tests/test_full_vlans.py:184-195. Its meaning is `ConfigBatches.CreateVlanEffect` |
| ConfigBatches.AccessPortCommands | tests/test_full_vlans.py:214-227 | definition of the `add_access_port` batch. The same list is sent by tests/test_full_vlan.py:127-134 and tests/test_inter_vlan.py:330-338. Its meaning is `ConfigBatches.AccessPortEffect` |
| ConfigBatches.RemoveAccessPortCommands | tests/test_full_vlans.py:230-243 | definition of the `remove_access_port` batch. The same list is sent by tests/test_full_vlan.py:137-144. Its meaning is `ConfigBatches.RemoveAccessPortEffect` |
| ConfigBatches.RemoveIpEffect | tests/test_full_vlans.py:198-211 | in the Klish model, `remove_ip` strips the address of that port and does nothing else |
| ConfigBatches.AccessPortEffect | tests/test_full_vlans.py:214-227 | in the Klish model, `add_access_port` makes the port an access port of the VLAN and does nothing else |
| ConfigBatches.RemoveAccessPortEffect | tests/test_full_vlans.py:230-243 | in the Klish model, `remove_access_port` detaches that port and does nothing else |
| ConfigBatches.CreateVlanEffect | tests/test_full_vlan.py:109-114 | in the Klish model, `create_vlan` enters the VLAN's mode, which creates it, then returns to configuration mode without carrying out any action |
| CleanupList.CleanupCommands | tests/test_inter_vlan.py:272-293 | definition of the cleanup list. The same list is built by tests/test_full_vlan.py:88-103. Stated by `CleanupList.CleanupLayout`, `CleanupList.DeleteFollowsDetach` and `CleanupList.CleanupEffect` |
| CleanupList.DetachActions | tests/test_inter_vlan.py:283-288 | one detach action per member, each in that member's interface mode, in member order |
| CleanupList.DetachAllLayout | tests/test_inter_vlan.py:283-288 | member `j` is detached by commands `3j` to `3j+2`: `interface <p>`, `no switchport access vlan`, `exit` |
| CleanupList.DetachAllCommands | tests/test_inter_vlan.py:283-288 | the detach part holds only `interface` commands, detaches and `exit` |
| CleanupList.DetachRun | tests/test_inter_vlan.py:283-288 | one detach triple detaches that port and returns to configuration mode |
| CleanupList.DetachAllRun | tests/test_inter_vlan.py:283-288 | the detach triples detach every member in order and end in configuration mode |
| CleanupList.CleanupLayout | tests/test_inter_vlan.py:272-293 | the list is `configure terminal`, `interface Vlan<id>`, `no ip address`, `exit`, one triple per member in order, then `no vlan <id>`, `exit`, for a length of 6 + 3·members |
| CleanupList.DeleteFollowsDetach | tests/test_full_vlan.py:96-103 | `no vlan <id>` occurs once, next to last, after every `no switchport access vlan` |
| CleanupList.NoMembersSixCommands | tests/test_full_vlan.py:88-103 | with no members the list is the six fixed commands |
| CleanupList.CleanupEffect | tests/test_inter_vlan.py:272-295 | in the Klish model: strip the address of `Vlan<id>`, detach every member in order, delete the VLAN last, end in the starting mode |
| FullVlan.CleanupVlan | tests/test_full_vlan.py:82-105 | sends, with no existence check, the cleanup list for the members of lines naming `Vlan<id>` |
| FullVlan.NoMatchingLineSixCommands | tests/test_full_vlan.py:82-105 | when no line names `Vlan<id>` the list has exactly the six fixed commands |
| FullVlan.TrailingCommaSendsBareInterface | tests/test_full_vlan.py:96-99 | for the row `<head> <port>,` the cleanup list has twelve commands: `interface <port>` for the port, then `interface ` with no name for the empty member |
| FullVlans.GetVlanMembers | tests/test_full_vlans.py:82-98 | the members of lines naming `Vlan<id>`; each is free of blanks and commas, and possibly empty |
| FullVlans.BareIdIsNotEnough | tests/test_full_vlans.py:90 | a line with ` <id> ` but without `Vlan<id>` contributes nothing |
| FullVlans.SviTeardownCommands | tests/test_full_vlans.py:128-134 | definition of the step 1 batch. Its meaning is `FullVlans.SviTeardownEffect` |
| FullVlans.DeleteSviCommands | tests/test_full_vlans.py:153-157 | definition of the step 3 batch. Its meaning is `FullVlans.DeleteBatch` |
| FullVlans.DeleteVlanCommands | tests/test_full_vlans.py:163-167 | definition of the step 4 batch. Its meaning is `FullVlans.DeleteBatch` |
| FullVlans.CleanupBatches | tests/test_full_vlans.py:126-167 | definition of the batches of the cleanup, in the order they are sent. Stated by `FullVlans.CleanupOrder` and `FullVlans.CleanupEffect` |
| FullVlans.DetachBatchesLayout | tests/test_full_vlans.py:139-147 | batch `j` of step 2 is the `remove_access_port` list of member `j` |
| FullVlans.CleanupVlan | tests/test_full_vlans.py:101-181 | sends the cleanup batches for the members read first. It warns iff the second reading still holds `Vlan<id>`; nothing is raised |
| FullVlans.CleanupOrder | tests/test_full_vlans.py:128-167 | batches are: interface teardown, one detach per member in order, `no interface Vlan<id>`, then `no vlan <id>` once and last |
| FullVlans.NoMembersThreeBatches | tests/test_full_vlans.py:112-167 | when no line names `Vlan<id>`, exactly the three member-free batches are sent |
| FullVlans.SviTeardownEffect | tests/test_full_vlans.py:128-134 | in the Klish model, the first batch shuts `Vlan<id>` down and strips its address, leaving one level only |
| FullVlans.DeleteBatch | tests/test_full_vlans.py:153-167 | each deletion batch carries out its one command in configuration mode |
| FullVlans.DetachBatchesEffect | tests/test_full_vlans.py:139-147 | in the Klish model, the detach batches detach every member in member order |
| FullVlans.TrailingCommaSendsBareInterface | tests/test_full_vlans.py:139-147 | for the row `<head> <port>,` the cleanup sends five batches: the detach batch of the port, then one for the empty member, whose second command is `interface ` with no name |
| FullVlans.CleanupEffect | tests/test_full_vlans.py:126-167 | in the Klish model: shut down and strip `Vlan<id>`, detach every member in order, delete interface `Vlan<id>`, delete the VLAN last |
| InterVlan.AppendKeepsWellFormed | tests/test_inter_vlan.py:89-116 | appending an entry of a root's own kind keeps that root's metadata-first shape |
| InterVlan.MetadataOnce | tests/test_inter_vlan.py:79-87 | a well-formed root holds exactly one metadata record, its first child |
| InterVlan.XmlLogger.constructor | tests/test_inter_vlan.py:72-87 | each of the three roots holds exactly one metadata record, with the test name and the log directory |
| InterVlan.XmlLogger.AddPretestEntry | tests/test_inter_vlan.py:89-97 | appends exactly one pretest entry; the other two roots are unchanged |
| InterVlan.XmlLogger.AddPosttestEntry | tests/test_inter_vlan.py:99-107 | appends exactly one posttest entry; the other two roots are unchanged |
| InterVlan.XmlLogger.AddTestResult | tests/test_inter_vlan.py:109-116 | appends exactly one test-case entry; the other two roots are unchanged |
| InterVlan.Sanitize | tests/test_inter_vlan.py:184 | same length; each character is kept if it is a word character or `-`, else becomes `_` |
| InterVlan.SafeCommand | tests/test_inter_vlan.py:184 | the first min(50, length) characters of the command, each sanitised |
| InterVlan.SafeCommandIsSafe | tests/test_inter_vlan.py:184 | every character of the sanitised command is a word character or `-` |
| InterVlan.SafeCommandIdempotent | tests/test_inter_vlan.py:184 | sanitising twice is sanitising once |
| InterVlan.SafeCommandKeepsCleanCommand | tests/test_inter_vlan.py:184 | a short command of safe characters is kept as it is |
| InterVlan.LogFileName | tests/test_inter_vlan.py:185 | definition of `f"{device_name}_{safe_cmd}_{timestamp}.log"`, with the clock reading as a parameter. Stated by `InterVlan.LogFileNameStaysInDirectory` |
| InterVlan.LogFileNameStaysInDirectory | tests/test_inter_vlan.py:185-186 | for a device name without `/` the file name has no `/`, so the file stays in the log directory |
| InterVlan.VlanExists | tests/test_inter_vlan.py:202-212 | definition of the existence test: `Vlan<id>` or ` <id> ` occurs in the output (line 209). Stated by `InterVlan.ExistsOnLongerId` and `InterVlan.MembersImplyExists` |
| InterVlan.ExistsOnLongerId | tests/test_inter_vlan.py:209 | output naming `Vlan<id><digit>` also passes the check for `<id>` |
| InterVlan.MembersImplyExists | tests/test_inter_vlan.py:202-228 | if the member reader finds members, the existence check holds |
| InterVlan.GetVlanMembers | tests/test_inter_vlan.py:215-228 | the members of lines containing `Vlan<id>` or ` <id> `; each is free of blanks and commas, and possibly empty |
| InterVlan.AddInterfaceToVlanBatches | tests/test_inter_vlan.py:322-338 | definition of the two batches: `remove_ip_from_interface`, then the access-port list. Its meaning is `InterVlan.AddInterfaceToVlanEffect` |
| InterVlan.ConfigureVlanIpCommands | tests/test_inter_vlan.py:341-352 | definition of the `configure_vlan_ip` batch. Its meaning is `InterVlan.ConfigureVlanIpEffect` |
| InterVlan.ConfigureInterfaceIpBatches | tests/test_inter_vlan.py:355-371 | definition of the two batches: `remove_ip_from_interface`, then the address list. Its meaning is `InterVlan.ConfigureInterfaceIpEffect` |
| InterVlan.AddStaticRouteCommands | tests/test_inter_vlan.py:374-384 | definition of the `add_static_route` batch. Its meaning is `InterVlan.AddStaticRouteEffect` |
| InterVlan.AddInterfaceToVlanEffect | tests/test_inter_vlan.py:322-338 | in the Klish model, the port loses its address before it becomes an access port of the VLAN |
| InterVlan.ConfigureVlanIpEffect | tests/test_inter_vlan.py:341-352 | in the Klish model, passes through the VLAN's mode, brings `Vlan<id>` up, and gives it the address |
| InterVlan.ConfigureInterfaceIpEffect | tests/test_inter_vlan.py:355-371 | in the Klish model, the port loses its old address before it is brought up and given the new one |
| InterVlan.AddStaticRouteEffect | tests/test_inter_vlan.py:374-384 | in the Klish model, adds the route in configuration mode and nothing else |
| InterVlan.BuildCleanupCommands | tests/test_inter_vlan.py:272-293 | the extending loop builds exactly the cleanup list |
| InterVlan.CleanupVlan | tests/test_inter_vlan.py:246-306 | when the existence check fails, sends nothing and logs exactly one SKIPPED pretest entry. Otherwise sends the one cleanup list and logs it as PASS, one command per line |
| InterVlan.PingCommand | tests/test_inter_vlan.py:402 | definition of `f"ping {dst_ip} -s {pkt_size} -c {count}"`. Stated by `InterVlan.PingCommandIsJoin` and `InterVlan.PingCommandArguments` |
| InterVlan.PingCommandIsJoin | tests/test_inter_vlan.py:402 | the command is its six arguments joined with blanks |
| InterVlan.PingCommandArguments | tests/test_inter_vlan.py:402 | the command splits into `ping <dst> -s <size> -c <count>`, with no `-I` |
| InterVlan.PingTest | tests/test_inter_vlan.py:397-445 | returns true iff the loss is 0, and logs one PASS/FAIL result with the loss |
| InterVlan.PingRecordsAt | tests/test_inter_vlan.py:426-439 | result `k` of the sweep is the entry for packet size `k` and reply `k` |
| InterVlan.AllPassedEveryPing | tests/test_inter_vlan.py:452-459 | the running flag is true iff every ping so far passed |
| InterVlan.PingSweep | tests/test_inter_vlan.py:452-459 | true iff every ping passed; logs one result per packet size, in order |
| InterVlan.VerifyConnectivity | tests/test_inter_vlan.py:448-461 | over the seven packet sizes, true iff every ping passed; logs their results in order |
| AddVlan.Truthy | tests/test_add_vlan.py:34 | definition of Python truthiness: None, False, 0 and empty strings, lists and mappings are false. It decides `not dut` (line 34) and `all([ip, user, pwd])` (line 42); stated through `AddVlan.ExtractDutConnection`, `AddVlan.ExtractFromTestbed` and `AddVlan.NoD1` |
| AddVlan.Get | tests/test_add_vlan.py:32-40 | definition of `d.get(key, default)`: the value under the key, else the default. Stated through `AddVlan.ExtractFromTestbed` and `AddVlan.NoConnectionParams` |
| AddVlan.ExtractDutConnection | tests/test_add_vlan.py:31-45 | success only from `devices.D1.connection_params`, with all three fields present and non-empty |
| AddVlan.ExtractFromTestbed | tests/test_add_vlan.py:37-45 | for any testbed whose `devices.D1` is a non-empty mapping with a `connection_params` mapping: returns the three fields when all are truthy. Otherwise fails, naming the parameters |
| AddVlan.NoD1 | tests/test_add_vlan.py:32-35 | a missing `devices`, or a missing or empty D1, gives "D1 not found" |
| AddVlan.NoConnectionParams | tests/test_add_vlan.py:37-43 | for any testbed whose `devices.D1` is a non-empty mapping without `connection_params`: fails as missing connection info, with an empty mapping |
| AddVlan.SudoCommand | tests/test_add_vlan.py:89-91 | definition of the wrapped text: `echo`, the escaped password between single quotes, a pipe into `sudo -S -p ''`, then the command. Stated by `AddVlan.SudoCommandCarriesPassword` and `AddVlan.SudoCommandPlainPassword` |
| AddVlan.SentCommand | tests/test_add_vlan.py:88-93 | definition of the text handed to `exec_command`: wrapped when `sudo` is set, else unchanged. Stated by `AddVlan.SshClient.Run` and `AddVlan.SentCommandsAt` |
| AddVlan.SudoCommandCarriesPassword | tests/test_add_vlan.py:89-91 | the wrapped command is `echo `, one word the shell reads as exactly the password, and the command unchanged at the end |
| AddVlan.SudoCommandPlainPassword | tests/test_add_vlan.py:90-91 | for a password without `'` the text is `echo`, the password between single quotes, the pipe into `sudo -S -p ''`, and the command |
| AddVlan.SshClient.constructor | tests/test_add_vlan.py:64-69 | keeps its parameters, port 22 by default, and has no session |
| AddVlan.SshClient.Connect | tests/test_add_vlan.py:71-82 | opens a session with the client's own parameters |
| AddVlan.SshClient.Run | tests/test_add_vlan.py:88-98 | without sudo sends the command unchanged, with sudo the wrapped one; without a session there is nothing to send |
| AddVlan.SentCommandsAt | tests/test_add_vlan.py:116-138 | the `k`-th text sent is step `k`'s command, wrapped iff the step runs under sudo |
| AddVlan.LogEntriesAt | tests/test_add_vlan.py:114-139 | the `k`-th log entry is step `k`'s tag with its reply |
| AddVlan.StepTable | tests/test_add_vlan.py:116-139 | the six steps, in order: vlan add, ip flush, member add, show vlan brief, member del, vlan del. Their tags are CREATE VLAN … DELETE VLAN |
| AddVlan.RunVlanTest | tests/test_add_vlan.py:103-144 | sends exactly the six step texts in order, and writes their six tagged entries joined by newlines |
| AddVlan.OnlyShowWithoutSudo | tests/test_add_vlan.py:117-138 | every step runs under sudo except `show vlan brief` |
| AddVlan.MemberShownBySecondHalf | tests/test_add_vlan.py:116-130 | on a switch without VLAN 10, when `show vlan brief` runs VLAN 10 exists with Ethernet4 as its only member |
| AddVlan.VlanTestLeavesTableUnchanged | tests/test_add_vlan.py:116-138 | on a switch without VLAN 10, every step is accepted and the VLAN table ends as it began |
| AddVlan.DeleteBeforeMemberRemovalRefused | tests/test_add_vlan.py:133-138 | member deletion must precede VLAN deletion: the reverse would be refused |

## Left out

- `st.show` and `st.config` are inputs and an output trace. The CLI's replies to `st.config` are not interpreted. `skip_error_check` is not modelled.
- `st.log`, `st.banner`, `st.get_dut_names` and `log_to_file` produce log text only, so they are not modelled.
- `st.report_fail` and `st.error` are modelled as a false verdict. Whether `report_fail` aborts the test is decided by the framework, which is not part of this model.
- The Klish mode semantics, and the VLAN table of the SSH run with its refusal rules, are assumptions of this model about the switch. They are not taken from the scripts.
- `tests/test_full_vlan.py:105` sends its cleanup list without `type="klish"`. The model gives that list the same Klish meaning as the other scripts' lists.
- The paramiko calls are not modelled:
  - the socket connect (tests/test_add_vlan.py:72-82);
  - `close`;
  - `exec_command` and the reading of its streams.

  The model stops at the text handed to the session. A switch's replies are parameters.
- `AddVlan.RunVlanTest` starts after the testbed has been loaded and the connection read, and it ignores each command's exit status, as the script does. YAML loading (tests/test_add_vlan.py:24-28) and writing the log file (tests/test_add_vlan.py:48-58) are not modelled.
- Files, directories, timestamps and `time.time()` are not modelled:
  - The XML logger's timestamps, prettify and save (tests/test_inter_vlan.py:118-149) are left out. Records hold no timestamp.
  - `save_command_output` writes files. Only its file name is modelled.
  - The ping log file of tests/test_full_vlans.py:303-304 is left out.
- Floating point is not modelled: the RTT average (tests/test_inter_vlan.py:413-414), CPU usage and bandwidth. `InterVlan.PingTest` logs its details without `rtt_avg`.
- The text rendering of the details dictionary in `add_test_result` is not modelled. The details are kept as a record.
- `time.sleep` delays only wait, so they are not modelled.
- `enable_ip_routing` (tests/test_inter_vlan.py:387-391) sends nothing.
- These are not part of this model:
  - the test bodies themselves: `test_inter_vlan_routing`, `test_full_vlan_validation`, the pytest functions of tests/test_add_vlan.py:149-171, `prologue` and `epilogue`;
  - `check_cpu_usage`, `check_interface_counters` and `measure_bandwidth`;
  - `tests/test_ip.py` and `tests/test_klish_vlan.py`.
- Commented-out code in tests/test_full_vlan.py is not modelled.
- `InterVlan.Sanitize`: `\w` is taken as ASCII letters, digits and `_`. Python's Unicode word characters are not modelled.
- `Ping.FirstMatchSpec`: `\d` is taken as the ASCII digits. Python's Unicode decimal digits are not modelled.
- Whitespace for `split()` is the Python `isspace` set, and line boundaries for `splitlines()` are Python's list; both are written out in module `Text`. Only what the scripts rely on is proved about them.
- Port names and VLAN ids are strings, as the scripts format them into commands. No range of VLAN ids is checked, because the scripts check none.
- The substring tests on `Vlan<id>` also match longer ids: `Vlan10` matches `Vlan100`. The model keeps this, as the scripts do; `ShowVlan.LongerVlanNameMatches` and `InterVlan.ExistsOnLongerId` state it.
- `ShowVlan.ListsPort`: a parsed record whose `ports` is None makes `port not in entry.get("ports", "")` (tests/test_full_vlans.py:275) raise a TypeError. The field is modelled as absent, a text or a list, so that error path is not modelled.
- `AddVlan.Node`: the YAML values of the testbed are modelled without floating-point numbers; a float's truthiness is not modelled.
- `AddVlan.SudoCommandCarriesPassword` is about the shell word handed to `echo`, not about what `echo` prints. A bash `echo` takes a password such as `-n` or `-e` as an option, and prints something else; that is not modelled.
