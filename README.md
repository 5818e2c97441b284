# Star-network entanglement distribution: a Dafny model

This project models the classical bookkeeping of a research code base for quantum-network simulation built on
NetSquid. In the simulated star network, a central source node holds two entangled-pair sources,
`QuantumSource` and `QuantumSource1`. It sends pairs over quantum channels to the destinations:

- plain nodes, each with one memory position;
- a repeater with four positions;
- a remote node with two positions and two sources of its own.

The model covers these parts of the code base:

- **Swap correction.** After the repeater's Bell measurement, a fixed table maps each outcome
  0..3 to Pauli gates (none, X, Z then X, Z), which are applied to the remote node's memory.
- **Result records.** Each entangled pair is reported with its fidelity, or as a loss.
- **Network object.** The StarNetwork object builds its destinations, channels and port pairs.
  It allocates the source's four output ports first-free, releases them, validates its setters,
  and post-processes the two swapping variants. Its port pairs are built with three arguments,
  which the two-field port pair it imports refuses with TypeError. The constructor and the
  channel rebuilds are therefore modelled with the three-field port pair the code evidently
  means, and their rows say "corrected" (see "## Findings").
- **Experiment sweep.** The sweep collects fidelity samples per channel length and writes one
  CRLF-terminated CSV row per length.
- **Command-line helpers.** These are the string converters, the node-count dispatch, and the
  method and model selection.
- **Memory snapshots.** Two memory-snapshot reports list every memory position under the key
  `{name}_m{pos}`.
- **Port pairs.** Two port-pair value classes.
- **Node protocols.** Two node protocols claim memory positions and wait for qubits.

The model treats everything the simulator computes as input:

- what a simulation run leaves in the memories;
- Bell outcomes;
- fidelities, which are uninterpreted reals;
- what a memory peek reads, in the two snapshot reports;
- trial results.

In the swap routines, a `pop` of an empty position raises ValueError, a `peek` of an empty
position gives None without raising, and a failed `discard` is ignored.

Modules: `Common` (results, decimal text, split and join), `Components` (memories as `in_use`
flags plus an instruction log, nodes, subcomponents), `BellMeasurement`, `SwapResults`,
`EntanglementSwapping`, `Converter`, `MainCli`, `MainHelper`, `HelperPortPair`,
`NetworkPortPair`, `Star` (the network's wiring as values), `StarSwap` (the swap
post-processing), `StarNet` (the StarNetwork object), `Experiments`, `HelperSnapshot`,
`NetworkSnapshot`, `GenerateEntanglementProtocol` and `EntangleNodesExample`.

## Model

| member | source | states |
|---|---|---|
| Components.BellIndexOf | src/helper/network/entanglement_swapping_utils/bell_measurement.py:30 | `ketstates.BellIndex(i)` exists exactly for the indices 0 to 3 and has index i |
| Components.GatesAtAppend | src/helper/network/entanglement_swapping.py:27-32 | the gates a memory applied at a position over two stretches of instructions are those of the first stretch, then those of the second |
| Components.QuantumMemory.UnusedPositions | src/examples/entangle_nodes_protocol.py:74 | `unused_positions` lists exactly the positions not in use |
| Components.Unused | src/examples/entangle_nodes_protocol.py:74 | the positions from a given one on that are not in use, in strictly increasing order, and no other |
| Components.QuantumMemory.SetAllInUse | src/examples/entangle_nodes_protocol.py:78-91 | every listed position gets the flag and every other position keeps its own |
| Components.FirstQSource | src/protocols/GenerateEntanglement.py:63-68 | the index of the first QSource subcomponent, or none exactly when no subcomponent is a QSource |
| Components.FindQSource | src/examples/entangle_nodes_protocol.py:140-145 | a name is found exactly when some subcomponent is a QSource, and it is that subcomponent's name |
| BellMeasurement.BellInstruction | src/helper/network/entanglement_swapping_utils/bell_measurement.py:13-16 | a Bell measurement with output key "M", issued without positions exactly when the position list is empty and at those positions otherwise |
| BellMeasurement.PerformBellMeasurement | src/helper/network/entanglement_swapping_utils/bell_measurement.py:5-17 | the memory's instruction log grows by exactly that one measurement and the library's result is handed back unchanged |
| BellMeasurement.PrintBellMeasurement | src/helper/network/entanglement_swapping_utils/bell_measurement.py:20-32 | the report fails, with ValueError, exactly when the state names no Bell index (outside 0..3) |
| BellMeasurement.ReportIsTerminatedLines | src/helper/network/entanglement_swapping_utils/bell_measurement.py:27-32 | for a state in 0..3 the returned message is the heading, the `m=` line, the indices line and the ket line, each ended by a newline |
| BellMeasurement.ReportLinesHaveNoNewline | src/helper/network/entanglement_swapping_utils/bell_measurement.py:27-30 | no line of the report holds a newline of its own when the text of `m` holds none |
| BellMeasurement.ReportIsFourLines | src/helper/network/entanglement_swapping_utils/bell_measurement.py:27-32 | splitting the message at newlines gives back exactly the four lines and an empty tail |
| SwapResults.Record.FidelityField | src/helper/network/entanglement_swapping_utils/results.py:26-27 | reading `"fidelity"` succeeds exactly when the dictionary has that key, KeyError("fidelity") otherwise |
| SwapResults.CalcFidelity | src/helper/network/entanglement_swapping_utils/results.py:7-15 | the library fidelity against the given reference state, and against `b00` when none is given |
| SwapResults.GetResult | src/helper/network/entanglement_swapping_utils/results.py:18-27 | a dictionary with keys qubits, fidelity, error in that order, holding the pair, its fidelity against `b00`, and no error |
| SwapResults.GetResults | src/helper/network/entanglement_swapping.py:77-87 | exactly two records, the first pair's then the second's, neither flagged as an error |
| EntanglementSwapping.Corrections | src/helper/network/entanglement_swapping.py:19-26 | a gate list exists exactly for outcomes 0..3 (KeyError otherwise) and holds only X and Z gates |
| EntanglementSwapping.PauliCorrection | src/helper/network/entanglement_swapping.py:19-24 | the Pauli correction of a Bell state: Z for its first bit then X for its second, at most two gates |
| EntanglementSwapping.TargetOf | src/helper/network/entanglement_swapping.py:29-32 | position -1 issues without positions and any other position issues at `[position]` |
| EntanglementSwapping.Issued | src/helper/network/entanglement_swapping.py:28-32 | one instruction per gate, in order, all at the same target and without an output key |
| EntanglementSwapping.ApplyGates | src/helper/network/entanglement_swapping.py:8-38 | an unknown outcome raises KeyError and leaves the log alone; otherwise the log grows by exactly the table's gates, in order, at the chosen target |
| EntanglementSwapping.CorrectionsFollowBellLabel | src/helper/network/entanglement_swapping.py:19-24 | the table entry for each outcome is the Pauli correction of the Bell state the outcome names, and outcomes without a Bell state have no entry |
| EntanglementSwapping.CorrectionCounts | src/helper/network/entanglement_swapping.py:19-24 | 0, 1, 2 and 1 gates for outcomes 0..3, Z before X for outcome 2 |
| EntanglementSwapping.GatesAtIssued | src/helper/network/entanglement_swapping.py:28-32 | gates issued at `[p]` add exactly those gates to position p's history and none to any other position; gates issued without positions add none to any |
| EntanglementSwapping.ApplyGatesHistory | src/helper/network/entanglement_swapping.py:8-38 | after the corrections at a position, that position's gate history grows by exactly the table entry and every other position's is unchanged |
| Converter.Strip | src/helper/converter/converter.py:40 | the whitespace-stripped text is no longer than the input and neither starts nor ends with a character Python counts as whitespace (the controls `\t` to `\r`, U+001C to U+001F, the space and the Unicode spaces) |
| Converter.StripRemovesOnlyEnds | src/helper/converter/converter.py:40 | the stripped text is a slice `s[i..j]` of the input, and everything before `i` and from `j` on is whitespace: only the ends are removed |
| Converter.ConverterStringBoolean | src/helper/converter/converter.py:19-30 | `(True, False)` exactly for "True", `(False, False)` exactly for "False", and the error flag is set exactly when no value is returned |
| Converter.ConverterStringInt | src/helper/converter/converter.py:33-42 | the value is what Python's `int()` yields for text written with ASCII digits, and the error flag is set exactly when `int()` raises ValueError on it, including for a digit run longer than the default limit of 4300 digits (underscores not counted) |
| Converter.ParseAll | src/helper/converter/converter.py:52 | all or nothing: a list exactly when every piece converts, one value per piece in order |
| Converter.ConverterStringListInt | src/helper/converter/converter.py:45-54 | the list is `int()` of every comma-separated piece written with ASCII digits, one more element than the text has commas, and the error flag is set exactly when some piece fails, a piece of more than 4300 digits included |
| Converter.ConverterExit | src/helper/converter/converter.py:4-16 | the program exits with the message exactly when the conversion reports an error, and otherwise returns the converted value |
| Converter.RunValueOfDecimal | src/helper/converter/converter.py:40 | the decimal rendering of a natural number is a digit run whose value is that number |
| Converter.StripIdentity | src/helper/converter/converter.py:40 | stripping leaves text alone that neither starts nor ends with whitespace |
| Converter.ParseIntRoundTrip | src/helper/converter/converter.py:40 | `int(str(n)) == n` for every integer n whose `str` succeeds, i.e. whose decimal rendering has at most 4300 digits |
| Converter.DigitLimit | src/helper/converter/converter.py:40 | a run of 4301 digits is refused with `(None, True)`, while a run of 4300 digits converts |
| Converter.ListRoundTrip | src/helper/converter/converter.py:45-54 | the renderings of a non-empty integer list, each with at most 4300 digits, joined by "," convert back to that list without error |
| Converter.RejectedExamples | src/test_helpers_main_converter_converter.py:28-63 | the empty text, "1.2", "10.5", "ab c" and "true" are refused with `(None, True)` |
| Converter.NotAnInteger | src/helper/converter/converter.py:33-42 | text with no whitespace or sign at its ends that holds a character other than a digit or `_` is refused with `(None, True)` |
| Converter.SeparatorsAreStripped | src/helper/converter/converter.py:40 | `int()` strips the information separators and the Unicode spaces: `"\x1c5\u3000"` converts to `(5, False)` |
| MainCli.NodesCall | src/helper/main/main.py:15-27 | a call exists exactly for 0, 2 or 3 nodes, and it passes the nodes as its positional arguments in order |
| MainCli.Checker | src/helper/main/main.py:36-47 | the program exits with the message exactly when the condition holds outside a test; in a test the message is returned exactly when the condition holds |
| MainCli.RunMethodWithNodes | src/helper/main/main.py:7-33 | for 0, 2 or 3 nodes the method's own result for a call passing those nodes; for any other count the fixed message, returned in a test and the exit argument otherwise |
| MainCli.CallIsDeterminedByNodes | src/helper/main/main.py:17-27 | two calls that pass the same nodes are the same call, so the dispatch's call is unique |
| MainCli.RunMethodWithNodesExamples | src/test_helpers_main_main.py:10-22 | with the summing test method: 0, 2 and 3 for no nodes, two ones and three ones, and the message for four nodes in a test |
| MainCli.SelectModels | src/helper/main/main.py:66-77 | the combined models for "combined", the empty models for "empty", and UnboundLocalError for any other name |
| MainCli.SelectMethod | src/helper/main/main.py:80-110 | protocol_a accepts 0 or 3 nodes, entangle_nodes 0 or 2, any other name only 0; the method is chosen by name; otherwise the program exits with the list of allowed counts |
| MainCli.ListReprOfAllowed | src/helper/main/main.py:108-109 | the allowed counts print as `[0, 3]`, `[0, 2]` and `[0]` |
| MainCli.SelectMethodMessages | src/helper/main/main.py:108-109 | the exit messages for a wrong count name `[0, 3]`, `[0, 2]` and `[0]` respectively |
| MainCli.SelectMethodUnchecked | src/helper/main/main.py:89-102 | `protocol_a` exactly for "protocol_a" with allowed counts `[0, 3]`, `entangle_nodes` exactly for "entangle_nodes" with `[0, 2]`, and no method with `[0]` for any other name |
| MainCli.ShowHelpText | src/helper/main/main.py:50-63 | the text built by appending the seven pieces one after another (`ShowHelp`) is the text the test of `show_help` pins as six adjacent literals cut elsewhere |
| MainHelper.ErrorExit | src/helper/main_helper.py:4-12 | the program ends with the message as exit argument and never returns |
| MainHelper.RunMethodWithNodes | src/helper/main_helper.py:15-38 | returns exactly for 0, 2 or 3 nodes, with the method's result for a call passing those nodes; otherwise exits with the fixed message |
| MainHelper.AgreesWithMainDispatcher | src/helper/main_helper.py:15-38 | the older dispatcher gives the same result and the same exit message as the command line's when not testing |
| HelperPortPair.PortPair.GetAll | src/helper/network/PortPair.py:46-50 | the three fields in constructor order, from which the pair is rebuilt exactly |
| HelperPortPair.PortPair.Show | src/helper/network/PortPair.py:52-56 | the source, " -> ", the destination, ", " and the name (or `None`), each at its place in the text |
| HelperPortPair.Create | src/helper/network/PortPair.py:9-19 | the pair holds the given source, destination and name, with no name by default |
| HelperPortPair.PinnedExamples | src/test_helpers_network_PortPair.py:7-27 | the fields and the text `source -> destination, name` the tests pin, and `None` rendered for a missing name |
| NetworkPortPair.Construct | src/network/PortPair.py:9-17 | exactly two positional arguments are accepted, as source then destination; any other count raises TypeError |
| NetworkPortPair.ThreeArgumentCallFails | src/network/PortPair.py:9-17 | passing a connection name as third argument raises TypeError saying 4 arguments were given for 3 |
| Star.DestinationFor | src/network/StarNetwork.py:223-247 | destination N-1 is the repeater with 4 positions, destination N the remote node with 2 positions and its two sources, any other k is `Node<k>` with 1 position; each processor is named `QP_` plus the node's name |
| Star.DestinationsUpTo | src/network/StarNetwork.py:223-247 | the first k destinations, in order, the i-th being destination i+1 |
| Star.Destinations | src/network/StarNetwork.py:219-247 | `range(1, N + 1)`: N destinations (none for a negative N), the i-th being destination i+1 |
| Star.ChannelsFor | src/network/StarNetwork.py:255-299 | two channels for the repeater's and the remote node's index, one otherwise, all with the given length and models |
| Star.PairsFor | src/network/StarNetwork.py:262-305 | one port pair per channel of the same index |
| Star.ChannelsMatchPairs | src/network/StarNetwork.py:255-305 | channels and port pairs are appended in step: as many pairs as channels |
| Star.PairsBeforeRepeater | src/network/StarNetwork.py:295-305 | each destination before the repeater has exactly one pair, at its own index |
| Star.ChannelCount | src/network/StarNetwork.py:255-305 | N destinations give N + 2 channels and N + 2 port pairs |
| Star.FirstFree | src/network/StarNetwork.py:327-350 | the first of the four source outputs that forwards nowhere, in the order `QuantumSource.qout0`, `qout1`, `QuantumSource1.qout0`, `qout1`; none exactly when all four forward |
| Star.Connect | src/network/StarNetwork.py:311-355 | AssertionError exactly for n outside 1..N-1; IndexError when node n has no destination or pair; the fixed exception when all four outputs are taken; success only with a free output |
| Star.ConnectWiring | src/network/StarNetwork.py:354-355 | a connection adds exactly two links, the free output to the pair's source-side port and the destination's pair port to its memory's `qin0`, and changes no other link |
| Star.Disconnect | src/network/StarNetwork.py:357-379 | AssertionError exactly for n outside 1..N-1; on success one of `QuantumSource`'s two outputs that forwards to node n is removed and nothing else; otherwise neither forwards to n and the exception names node n |
| Star.ConnectThenDisconnect | src/network/StarNetwork.py:311-379 | a connection made on `QuantumSource` is released by disconnecting the same node, leaving the source outputs as they were |
| Star.ConnectionOnSecondSourceLeaks | src/network/StarNetwork.py:341-379 | a connection made on `QuantumSource1` is never released by any disconnection |
| Star.ConnectAll | src/network/StarNetwork.py:484-534 | connecting a list of nodes stops at the first exception, keeping the earlier links |
| Star.DisconnectAll | src/network/StarNetwork.py:522-564 | disconnecting a list of nodes stops at the first exception, keeping the earlier links |
| Star.ConnectAllStep | src/network/StarNetwork.py:484-485 | after a successful connection the rest of the list continues from the new links |
| Star.DisconnectAllStep | src/network/StarNetwork.py:522-523 | after a successful disconnection the rest of the list continues from the new links |
| Star.ConnectEffect | src/network/StarNetwork.py:333-355 | connecting takes exactly the first free output, which then forwards to node n's pair, and leaves the other outputs as they were |
| Star.DisconnectEffect | src/network/StarNetwork.py:372-377 | disconnecting frees exactly one `QuantumSource` output and leaves the others as they were |
| Star.ThreeNodeRound | src/network/StarNetwork.py:525-565 | from free `QuantumSource` outputs, a three-node round raises when both `QuantumSource1` outputs are taken, and otherwise succeeds leaving the third node on `QuantumSource1` |
| Star.ThreeNodeConnectionsRunTwice | src/network/StarNetwork.py:525-565 | from a source with all outputs free, the three-node entanglement succeeds twice and the third attempt raises because all four outputs are taken |
| Star.TwoNodeRoundRestoresOutputs | src/network/StarNetwork.py:471-523 | a two-node round from free `QuantumSource` outputs succeeds and leaves all four outputs as it found them |
| Star.PairSourceIsDisconnectable | src/network/StarNetwork.py:303-376 | for every node 1..N-1 the source-side port of its pair bears one of the two names the disconnection looks for |
| Star.WireKeys | src/network/StarNetwork.py:390-401 | wiring adds exactly the entries' ports to those already forwarding |
| Star.LastTwoIndexes | src/network/StarNetwork.py:385-388 | `s[-2], s[-1]` are the last two elements |
| Star.RemoteWiringLeavesSourceFree | src/network/StarNetwork.py:381-401 | wiring the remote node takes none of the central source's four outputs |
| Star.DestinationsNamedApart | src/network/StarNetwork.py:211-247 | no destination shares a name with the central source's two components |
| StarSwap.Label | src/network/StarNetwork.py:598-599 | destination N-1 is read from `RemoteNode`, any other n from `Node<n>` |
| StarSwap.LabelIsNeverRepeater | src/network/StarNetwork.py:598-599 | no destination number is read from the repeater's memory |
| StarSwap.PlainLabel | src/network/StarNetwork.py:598-599 | a number other than N-1 names neither the repeater nor the remote node |
| StarSwap.LabelsDistinct | src/network/StarNetwork.py:598-599 | different destination numbers are read from different memories |
| StarSwap.PopAll | src/network/StarNetwork.py:601-602 | popping slots in turn succeeds exactly when every slot holds a qubit and none is named twice, gives their qubits in order and removes exactly those slots; an empty slot raises ValueError |
| StarSwap.MOutcome | src/network/StarNetwork.py:581 | `m[0]["M"][0]`: the first outcome under key "M", KeyError without the key and IndexError for an empty list |
| StarSwap.InlineCorrections | src/network/StarNetwork.py:584-593 | at most two gates |
| StarSwap.InlineMatchesTable | src/network/StarNetwork.py:584-593 | the inline chain gives the same gates as the correction table for outcomes 0..3 and silently nothing where the table raises KeyError |
| StarSwap.TwoNodeOutcome | src/network/StarNetwork.py:597-622 | a measured record of the two nodes' position-0 qubits and their fidelity exactly when both pops succeed, whatever the repeater holds; the loss record otherwise |
| StarSwap.DistinctNodesAreMeasured | src/network/StarNetwork.py:597-622 | two different destinations holding qubits at position 0 always give the measured record of exactly those two qubits, whatever the repeater holds |
| StarSwap.ThreeNodeOutcome | src/network/StarNetwork.py:663-695 | two records, (node1, node3 position 0) and (node2, node3 position 1), exactly when all four pops succeed, whatever the repeater holds; otherwise one loss record and never a partial list |
| StarSwap.PlainThirdNodeIsLost | src/network/StarNetwork.py:666-672 | a third node other than destination N-1 has no position 1, so the three-node swap always reports a loss |
| StarSwap.ThreeNodeStatesAsWritten | src/network/StarNetwork.py:626-661 | as written: an empty position is swallowed, and once the first outcome reads it always raises TypeError on the second |
| StarSwap.ThreeNodeStatesAsWrittenRaises | src/network/StarNetwork.py:631-632 | with the output `({'M': [1]}, 0.0)` the first read gives 1 and the second raises TypeError |
| StarSwap.ThreeNodeStates | src/network/StarNetwork.py:626-661 | corrected: both outcomes, one from each measurement, exactly when both readings succeed; an empty position is swallowed; other errors are those of the reads |
| StarSwap.ThreeNodeStatesReadsBoth | src/network/StarNetwork.py:631-632 | on outputs with outcomes 1 and 2 the corrected read gives the pair (1, 2) |
| StarSwap.ThreeNodeCorrectionsAsWritten | src/network/StarNetwork.py:638-658 | as written: one instruction per gate of both outcomes, every one issued without positions, since neither keyword the code passes (`positions=0`, `position=`) is taken as the target |
| StarSwap.AsWrittenMissesPositions | src/network/StarNetwork.py:638-658 | as written, no remote position receives a targeted gate, whatever the two outcomes |
| StarSwap.AsWrittenCounterexample | src/network/StarNetwork.py:643-651 | outcomes 2 and 1 call for Z, X at position 0 and X at position 1, yet as written neither position receives a gate |
| StarSwap.ThreeNodeCorrections | src/network/StarNetwork.py:638-658 | corrected: one instruction per gate of both outcomes |
| StarSwap.CorrectionsReachTheirPositions | src/network/StarNetwork.py:638-658 | corrected: position 0 receives exactly the first outcome's correction, position 1 exactly the second's, and no other position any gate |
| StarNet.ProtocolANodesApart | src/network/StarNetwork.py:434-438 | the three nodes `protocol_a` accepts are read from three different memories |
| StarNet.TwoNodePops | src/network/StarNetwork.py:601-602 | popping the two slots one after the other succeeds exactly when the swap reports a measurement, and then removes what removing both at once removes |
| StarNet.TwoNodeSwapRemoves | src/network/StarNetwork.py:601-616 | a successful two-node swap removes exactly the two popped qubits and, when either node is the remote node, whatever repeater positions 0 and 1 held; a failed one removes at most node1's qubit |
| StarNet.ThreeNodePops | src/network/StarNetwork.py:668-672 | popping the four slots one after another succeeds exactly when the swap reports both measurements, and then removes what removing all four at once removes |
| StarNet.ThreeNodeSwapRemoves | src/network/StarNetwork.py:668-688 | a successful three-node swap removes exactly the four popped qubits and, when node3 is the remote node, whatever repeater positions 0..3 held; a failed one keeps every other qubit as it was |
| StarNet.TwoNodeState | src/network/StarNetwork.py:576-595 | the outcome `m[0]["M"][0]` when the reading succeeds, its error when the read fails, and nothing for the swallowed empty-position error |
| StarNet.TwoNodeRepeaterLog | src/network/StarNetwork.py:577-581 | the two-node swap adds one Bell measurement to the repeater log exactly when it measures |
| StarNet.TwoNodeRemoteLog | src/network/StarNetwork.py:576-595 | the remote log receives gates only when the swap measured and read an outcome |
| StarNet.ThreeNodeRepeaterLog | src/network/StarNetwork.py:626-637 | the three-node swap adds nothing to the repeater log unless it measures, and then the measurement of positions 0 and 1 first and at most one more |
| StarNet.ThreeNodeRemoteLog | src/network/StarNetwork.py:626-661 | the remote log receives gates only when the swap measured and read both outcomes |
| StarNet.StarNetwork.constructor | src/network/StarNetwork.py:103-113 | corrected port pair: five destinations, N+2 channels of the default length 1 whatever `lengths` is (only stored), N+2 port pairs, the remote node wired to the repeater, empty memories and logs |
| StarNet.StarNetwork.InitDestinations | src/network/StarNetwork.py:219-247 | the destination list grows by destinations 1..N |
| StarNet.StarNetwork.InitQuantumChannels | src/network/StarNetwork.py:249-305 | corrected port pair: the channel list is cleared and rebuilt for every destination; the port-pair list is not cleared and grows by one pair per channel |
| StarNet.StarNetwork.ConnectRemoteNode | src/network/StarNetwork.py:381-401 | IndexError with fewer than two destinations or pairs; otherwise exactly the six forwardings of the remote node's two sources and the repeater's two ports |
| StarNet.StarNetwork.SetSourceDelay | src/network/StarNetwork.py:159-168 | accepts exactly a delay of 0 or more and stores it; otherwise AssertionError and nothing changes |
| StarNet.StarNetwork.SetDestinationsN | src/network/StarNetwork.py:170-179 | accepts exactly a positive count and stores it; otherwise AssertionError and nothing changes |
| StarNet.StarNetwork.SetModels | src/network/StarNetwork.py:194-201 | the models are replaced |
| StarNet.StarNetwork.ChangeLengths | src/network/StarNetwork.py:403-415 | corrected port pair: AssertionError for a negative length; nothing changes for the current length; otherwise the channels are rebuilt with the new length and the port pairs appended again |
| StarNet.StarNetwork.SetChannelsLength | src/network/StarNetwork.py:181-192 | accepts exactly a positive length and stores a thousandth of it; the channels never change, because the rebuild then compares the stored length with itself |
| StarNet.StarNetwork.ConnectSourceToDestination | src/network/StarNetwork.py:311-355 | the links become those of `Connect` on success; on an exception they are unchanged |
| StarNet.StarNetwork.DisconnectSourceFromDestination | src/network/StarNetwork.py:357-379 | the links become those of `Disconnect` on success; on an exception they are unchanged |
| StarNet.StarNetwork.PerformEntanglement | src/network/StarNetwork.py:471-523 | the links and status are those of connecting both nodes then disconnecting both; the run's deposit reaches the memories exactly when both connections succeed |
| StarNet.StarNetwork.PerformNewEntanglement | src/network/StarNetwork.py:525-565 | the links and status are those of connecting three nodes then disconnecting only the first two; the deposit reaches the memories exactly when all three connections succeed |
| StarNet.StarNetwork.IssueCorrections | src/network/StarNetwork.py:584-593 | the remote memory's log grows by exactly the inline chain's gates for the outcome, at the given target |
| StarNet.StarNetwork.MeasureAndCorrect | src/network/StarNetwork.py:576-595 | the repeater measures exactly when a node is destination N-1; the remote memory then receives the outcome's gates without positions, and nothing otherwise |
| StarNet.StarNetwork.Pop | src/network/StarNetwork.py:601-602 | an occupied slot gives its qubit and is emptied; an empty slot raises ValueError and nothing changes |
| StarNet.StarNetwork.Peek | src/network/StarNetwork.py:603-604 | an occupied slot gives its qubit and an empty one gives None, without raising; the memory is unchanged |
| StarNet.StarNetwork.Discard | src/network/StarNetwork.py:608-616 | the slot is emptied; an empty slot stays empty, its exception being swallowed by the caller |
| StarNet.StarNetwork.CollectTwoNodeResult | src/network/StarNetwork.py:597-622 | the record of `TwoNodeOutcome` on the memories before, which are left as `AfterTwoNodeSwap` says: the pops up to the first empty slot, then the repeater discards when the remote node is involved |
| StarNet.StarNetwork.PerformEntanglementSwapping | src/network/StarNetwork.py:569-622 | an error of the outcome read propagates and leaves the memories alone; otherwise the two-node record and the memories after the swap; the repeater log gains the measurement and the remote log the corrections read, as `TwoNodeRepeaterLog` and `TwoNodeRemoteLog` give them |
| StarNet.StarNetwork.MeasureAndCorrectBoth | src/network/StarNetwork.py:626-661 | corrected: the repeater measures positions 0 and 1, then 2 and 3 when the first read succeeds; the result is `ThreeNodeStates`, and both outcomes' corrections reach their own remote positions |
| StarNet.StarNetwork.CollectThreeNodeResult | src/network/StarNetwork.py:663-695 | the result of `ThreeNodeOutcome` on the memories before, which are left as `AfterThreeNodeSwap` says |
| StarNet.StarNetwork.PeekAndDiscard | src/network/StarNetwork.py:673-692 | once the four pops succeeded: both records whatever the repeater holds, with repeater positions 0..3 discarded exactly when node3 is the remote node and the memories otherwise unchanged |
| StarNet.StarNetwork.PerformNewEntanglementSwapping | src/network/StarNetwork.py:624-695 | corrected reads: an error of the outcome reads propagates and leaves the memories alone; otherwise the three-node result and the memories after the swap; the logs grow as `ThreeNodeRepeaterLog` and `ThreeNodeRemoteLog` give them |
| StarNet.StarNetwork.EntangleNodes | src/network/StarNetwork.py:455-468 | AssertionError with nothing changed unless both nodes are in 1..N-1 and differ; otherwise the links of the two-node round; if the round raised, its exception, the deposit present exactly when both connections were made, and the logs unchanged; if not, the swap on the deposited memories: its record or read error, the memories after it, and its log entries |
| StarNet.StarNetwork.ProtocolA | src/network/StarNetwork.py:421-453 | AssertionError with nothing changed unless the nodes are in 1..N-1 and increasing; otherwise the links of the three-node round; if the round raised, its exception, the deposit present exactly when all three connections were made, and the logs unchanged; if not, the corrected swap on the deposited memories: its result or read error, the memories after it, and its log entries |
| Experiments.ArangeElements | src/helper/main/Experiment.py:30 | the i-th element of `np.arange(start, stop, step)` is `start + i*step` for every i whose value stays within `stop` |
| Experiments.ArangeBound | src/helper/main/Experiment.py:30 | `np.arange` stops before `stop` |
| Experiments.DefaultLengthsAreTensToThousand | src/helper/main/Experiment.py:30 | the default lengths are the 100 values 10, 20, …, 1000 |
| Experiments.ListSamplesAllMeasured | src/helper/main/Experiment.py:136-139 | a list of measured records adds their fidelities, one per element, in order |
| Experiments.ListSamplesFirstLost | src/helper/main/Experiment.py:136-141 | when element k is the first without a fidelity, the k fidelities before it are kept and the handler adds one 0 |
| Experiments.TrialSamples | src/helper/main/Experiment.py:132-141 | a KeyError adds one 0, any other exception escapes, a dictionary adds exactly one sample (its fidelity, or 0 without one) |
| Experiments.PrefixedTwice | src/helper/main/Experiment.py:125-141 | appending two batches of samples one after the other is appending them together |
| Experiments.OneSamplePerSingleTrial | src/helper/main/Experiment.py:131-141 | when every trial returns one dictionary, exactly one sample per trial is collected |
| Experiments.SumBounds | src/helper/main/Experiment.py:150 | the sum of samples in `[lo, hi]` lies between n·lo and n·hi |
| Experiments.MeanWithin | src/helper/main/Experiment.py:150 | the mean of a non-empty list of samples in `[lo, hi]` lies in `[lo, hi]` |
| Experiments.LengthRow | src/helper/main/Experiment.py:126-150 | AssertionError for a length that is not positive; a row always carries its own length |
| Experiments.RowsInOrder | src/helper/main/Experiment.py:124-150 | one row per length in order, up to the first length whose row raises; all rows exactly when nothing raised, and otherwise the exception is that length's |
| Experiments.DefaultSweepLines | src/helper/main/Experiment.py:121-150 | without exceptions the default sweep writes 101 lines: the header, then lengths 10, 20, …, 1000 |
| Experiments.Records | src/helper/main/Experiment.py:122-150 | one record per line |
| Experiments.CsvIsTerminated | src/helper/main/Experiment.py:122-150 | the file's text is every line's record followed by a newline |
| Experiments.LineBodyHasNoNewline | src/helper/main/Experiment.py:122-150 | no line's text holds a newline when the rendering of a mean holds none |
| Experiments.CsvRecordsEndInCrlf | src/helper/main/Experiment.py:121-152 | split at newlines, the file gives each line's text followed by a carriage return, in order, then an empty tail: one CRLF-ended record per line |
| Experiments.Experiment.constructor | src/helper/main/Experiment.py:28-44 | the class defaults (100 trials, `../out/data.csv`, `../out/fidelity-over-length.png`, lengths 10..1000) on the given network |
| Experiments.Experiment.SetNumEachSimulation | src/helper/main/Experiment.py:75-84 | accepts exactly a positive count and stores it; otherwise AssertionError and nothing changes |
| Experiments.Experiment.SetCsvPath | src/helper/main/Experiment.py:86-95 | accepts exactly a name containing ".csv" and stores it; otherwise AssertionError and nothing changes |
| Experiments.Experiment.SetFigPath | src/helper/main/Experiment.py:97-106 | accepts exactly a name containing ".png" and stores it; otherwise AssertionError and nothing changes |
| Experiments.Experiment.Run | src/helper/main/Experiment.py:112-153 | the lines written are those of the sweep over the experiment's lengths (between 1 and one per length plus the header, all of them when nothing raised); the channels and port pairs are left unchanged, and the stored channel length is the last one set, in km (`LengthAfterSweep`); what the trials themselves do to the network is not modelled |
| Experiments.CollectSamples | src/helper/main/Experiment.py:125-141 | the samples of trials 0..n-1 in order, or the first exception other than KeyError |
| Experiments.ListFidelities | src/helper/main/Experiment.py:138-141 | each element's fidelity in order, ending with the handler's 0 at the first element without one |
| HelperSnapshot.MemorySnapshot.Repeater | src/helper/network/MemorySnapshot.py:61-69 | the listing names "Repeater" once per repeater position and reads positions 0 to n-1, none when the count is not positive |
| HelperSnapshot.MemorySnapshot.Nodes | src/helper/network/MemorySnapshot.py:71-79 | the listing names `Node{node1}` and `Node{node2}` and holds the positions 0 to n-1 twice over |
| HelperSnapshot.MemorySnapshot.RemoteNode | src/helper/network/MemorySnapshot.py:81-89 | the listing names "RemoteNode" once per remote-node position and reads positions 0 to n-1 |
| HelperSnapshot.NewMemorySnapshot | src/helper/network/MemorySnapshot.py:18-26 | the snapshot is built exactly when the remote node is node 4, and an AssertionError is raised otherwise |
| HelperSnapshot.Reads | src/helper/network/MemorySnapshot.py:59 | `zip(names, positions)` pairs the i-th name with the i-th position, each under the key `{name}_m{pos}`, and stops at the shorter list |
| HelperSnapshot.ComprehensionOkExactly | src/helper/network/MemorySnapshot.py:59 | the comprehension yields a dictionary exactly when every one of its reads succeeds |
| HelperSnapshot.MultiAccessRaisesExactly | src/helper/network/MemorySnapshot.py:52-59 | `multi_access` yields a dictionary exactly when every read of `zip(names, positions)` succeeds |
| HelperSnapshot.Replace | src/helper/network/MemorySnapshot.py:59 | storing under a key that is already present overwrites that entry in place and keeps every other entry and the order |
| HelperSnapshot.Put | src/helper/network/MemorySnapshot.py:59 | a new key is appended at the end; a key already present keeps the dictionary's size |
| HelperSnapshot.ComprehensionItems | src/helper/network/MemorySnapshot.py:52-59 | with distinct keys and no read raising, the dictionary has one entry per read, in order, each holding its key and that read's value |
| HelperSnapshot.ComprehensionRaises | src/helper/network/MemorySnapshot.py:59 | the first read that raises ends the comprehension with that read's exception |
| HelperSnapshot.ComprehensionSucceeds | src/helper/network/MemorySnapshot.py:59 | when no read raises, the comprehension yields a dictionary |
| HelperSnapshot.ComprehensionReadsAll | src/helper/network/MemorySnapshot.py:59 | a comprehension that yields a dictionary made every one of its reads without an exception |
| HelperSnapshot.KeyInjective | src/helper/network/MemorySnapshot.py:59 | one memory's keys at two positions are equal only when the positions are |
| HelperSnapshot.AllPositionsKeysDiffer | src/helper/network/MemorySnapshot.py:59-69 | positions 0 to k-1 of one memory have pairwise different keys |
| HelperSnapshot.AllPositionsItems | src/helper/network/MemorySnapshot.py:59-69 | reading positions 0 to k-1 of one memory gives k entries, in order, keyed `{name}_m{i}` |
| HelperSnapshot.NodesReadPositions | src/helper/network/MemorySnapshot.py:59 | because `zip` stops at the two names, the second node is read at position 1 when each node has two or more positions, at position 0 when it has one, and nothing is read when it has none |
| HelperSnapshot.NodeKeysDiffer | src/helper/network/MemorySnapshot.py:76-79 | the two node keys differ unless each node has one position and both nodes are the same |
| HelperSnapshot.NodesItemCount | src/helper/network/MemorySnapshot.py:59 | the node dictionary has 0 entries for no positions, 1 when both nodes are the same single-position node, and 2 otherwise |
| HelperSnapshot.Items | src/helper/network/MemorySnapshot.py:111 | one `f"{k}: {v}"` line per dictionary entry |
| HelperSnapshot.ItemLinesOfSnapshot | src/helper/network/MemorySnapshot.py:106-111 | the item lines are those of the repeater, then the nodes, then the remote node |
| HelperSnapshot.AllPositionsCount | src/helper/network/MemorySnapshot.py:59-69 | a listing of positions 0 to k-1 of one memory yields k entries |
| HelperSnapshot.ItemLineCount | src/helper/network/MemorySnapshot.py:106-111 | the report has one line per distinct key read |
| HelperSnapshot.ItemLinesHaveNoNewline | src/helper/network/MemorySnapshot.py:111 | no item line holds a newline when no reading does |
| HelperSnapshot.OneLinePerPosition | src/helper/network/MemorySnapshot.py:109-111 | one line per distinct key read, and the joined text splits back into exactly those lines |
| HelperSnapshot.ShowAllMemoryPositions | src/helper/network/MemorySnapshot.py:91-118 | the call returns text exactly when no read raises, and raises the first read's exception otherwise; the returned text is the rule, a newline, the initial message, the joined lines, the fixed expectation text, the end message, a newline and the rule, whether or not the messages are empty; it prints the header only for a non-empty initial message, the joined lines when the reads succeed, and the footer only for a non-empty end message |
| HelperSnapshot.ReturnsWhatItPrints | src/helper/network/MemorySnapshot.py:101-118 | with both messages given and no read raising, three texts are printed, and the returned text is those three in order: the header, the lines joined by newlines, and the fixed expectation text followed by the end message, a newline and the rule |
| HelperSnapshot.WidthZeroReport | src/helper/network/MemorySnapshot.py:99-118 | with rules of width 0 the returned text is a newline, the initial message, the joined lines, the fixed expectation text, the end message and a newline |
| HelperSnapshot.RepeaterKeys | src/test_helpers_network_MemorySnapshot.py:46-48 | the repeater keys of positions 0 to 3 are `Repeater_m0` to `Repeater_m3` |
| HelperSnapshot.UnitTestRepeaterByKey | src/test_helpers_network_MemorySnapshot.py:10-50 | in the unit test's snapshot with empty memories, the repeater yields four empty entries keyed by position |
| HelperSnapshot.UnitTestRepeater | src/test_helpers_network_MemorySnapshot.py:10-50 | the unit test's repeater dictionary is `Repeater_m0` to `Repeater_m3`, each "None" |
| HelperSnapshot.NodeKeys | src/test_helpers_network_MemorySnapshot.py:46-48 | nodes 1 and 2 are named `Node1` and `Node2`, with keys `Node1_m0` and `Node2_m0` |
| HelperSnapshot.UnitTestNodes | src/test_helpers_network_MemorySnapshot.py:10-50 | the unit test's node dictionary is `Node1_m0` and `Node2_m0`, each "None" |
| HelperSnapshot.RemoteNodeKeys | src/test_helpers_network_MemorySnapshot.py:46-48 | the remote-node keys are `RemoteNode_m0` and `RemoteNode_m1` |
| HelperSnapshot.UnitTestRemoteNode | src/test_helpers_network_MemorySnapshot.py:10-50 | the unit test's remote-node dictionary is `RemoteNode_m0` and `RemoteNode_m1`, each "None" |
| HelperSnapshot.UnitTestItems | src/test_helpers_network_MemorySnapshot.py:46-48 | the three dictionaries give the eight expected `key: None` lines in order |
| HelperSnapshot.UnitTestLines | src/test_helpers_network_MemorySnapshot.py:46-48 | the eight lines joined by newlines are the text the test expects between its messages |
| HelperSnapshot.UnitTestItemLines | src/test_helpers_network_MemorySnapshot.py:10-50 | the unit test's snapshot reads the eight lines in order |
| HelperSnapshot.UnitTestReport | src/test_helpers_network_MemorySnapshot.py:45-50 | with messages " " and " " and width 0, the returned text is the one the unit test expects: a newline and a space, the eight lines, then the expectation text, a space and a newline |
| NetworkSnapshot.MemorySnapshot.Repeater | src/network/MemorySnapshot.py:53-60 | the repeater listing is positions 0 to 3 of "Repeater" |
| NetworkSnapshot.MemorySnapshot.Nodes | src/network/MemorySnapshot.py:62-69 | the node listing is position 0 of `Node{node1}` and of `Node{node2}` |
| NetworkSnapshot.MemorySnapshot.RemoteNode | src/network/MemorySnapshot.py:71-78 | the remote-node listing is positions 0 and 1 of "RemoteNode" |
| NetworkSnapshot.NewMemorySnapshot | src/network/MemorySnapshot.py:13-18 | the snapshot is built exactly when the remote node is node 4, and an AssertionError is raised otherwise |
| NetworkSnapshot.SameListingsAsHelper | src/network/MemorySnapshot.py:53-78 | the three fixed listings equal those of the configurable snapshot with 4, 1 and 2 positions |
| NetworkSnapshot.ItemLinesAsHelper | src/network/MemorySnapshot.py:44-51 | both snapshots read the same keys in the same order, so they raise alike and give the same lines |
| NetworkSnapshot.ItemLineCount | src/network/MemorySnapshot.py:90-95 | the report has eight lines, or seven when both end nodes are the same node; joined by newlines they split back into the same lines |
| NetworkSnapshot.ShowAllMemoryPositions | src/network/MemorySnapshot.py:80-98 | the call finishes exactly when no read raises; it prints the header only for a non-empty initial message, the lines when the reads succeed, and the end message and rule only for a non-empty end message; nothing is returned |
| NetworkSnapshot.PrintsLikeHelper | src/network/MemorySnapshot.py:80-98 | the report prints what the configurable snapshot prints, except that its footer leaves out the fixed expectation text |
| GenerateEntanglementProtocol.SharedInputPorts.constructor | src/protocols/GenerateEntanglement.py:15 | the class-level input-port list starts empty and is one object that every protocol shares |
| GenerateEntanglementProtocol.GenerateEntanglement.constructor | src/protocols/GenerateEntanglement.py:18-41 | a protocol that is not a source appends its memory's `qin0` to the shared list and marks position 0 in use; a repeater also appends `qin1` and marks position 1; a source claims nothing; no other flag or port changes |
| GenerateEntanglementProtocol.GenerateEntanglement.IsConnected | src/protocols/GenerateEntanglement.py:60-70 | a plain receiver or repeater is always connected; a source or remote node is connected exactly when its node has a QSource subcomponent, and then records the first such name |
| GenerateEntanglementProtocol.GenerateEntanglement.Run | src/protocols/GenerateEntanglement.py:44-57 | a source or remote node first triggers its QSource, with KeyError when none was recorded; a non-source then waits on the shared list's first port and signals SUCCESS with 0; a remote node then waits on the second port and signals SUCCESS with 1; a missing list entry raises IndexError |
| GenerateEntanglementProtocol.SecondReceiverWaitsOnFirstPort | src/protocols/GenerateEntanglement.py:15-52 | because the port list is shared by the class, a second receiver on another node waits on the first node's `qin0`, not on its own |
| EntangleNodesExample.Reversed | src/examples/entangle_nodes_protocol.py:110 | `[::-1]` has the same length and holds the elements from last to first |
| EntangleNodesExample.SignalsAppend | src/examples/entangle_nodes_protocol.py:110-123 | the SUCCESS results of two step sequences run one after the other are those of the first, then those of the second |
| EntangleNodesExample.AwaitsAppend | src/examples/entangle_nodes_protocol.py:110-123 | the port waits of two step sequences add up |
| EntangleNodesExample.VisitSignalsAndAwaits | src/examples/entangle_nodes_protocol.py:111-123 | each visited position waits for input once and signals SUCCESS once, with that position |
| EntangleNodesExample.VisitWaitsForProgram | src/examples/entangle_nodes_protocol.py:117-121 | a visit waits for the memory's program exactly when it swapped and the memory is then busy, and the wait comes straight after the swap |
| EntangleNodesExample.RoundSignalsVisitOrder | src/examples/entangle_nodes_protocol.py:110-123 | a round signals SUCCESS once per visited position, with the positions in visiting order, and waits once per position |
| EntangleNodesExample.SwapsLeaveInputPosition | src/examples/entangle_nodes_protocol.py:116-117 | a round issues one swap per visited position other than the input position, each between the input position and a different position |
| EntangleNodesExample.Occurrences | src/examples/entangle_nodes_protocol.py:116 | the number of visits of the input position is at most the number of visits |
| EntangleNodesExample.InputPositionLast | src/examples/entangle_nodes_protocol.py:68-123 | visiting the claimed positions in reverse handles the input position, claimed first, last: the round ends by waiting for input and signalling SUCCESS with it, with no swap in between |
| EntangleNodesExample.EntangleNodes.Init | src/examples/entangle_nodes_protocol.py:54-60 | the protocol keeps its arguments, waits on port `qin{input_mem_pos}`, has claimed no list yet, counts no pairs, and marks only the input position in use |
| EntangleNodesExample.EntangleNodes.New | src/examples/entangle_nodes_protocol.py:33-60 | TypeError for a start expression that is not an EventExpression, ValueError for a node without a memory, KeyError for an input position the memory has no port for, and the memory unchanged on every error; otherwise a fresh protocol as `Init` describes |
| EntangleNodesExample.EntangleNodes.Start | src/examples/entangle_nodes_protocol.py:62-82 | RuntimeError exactly when more than one pair is asked for and fewer than `num_pairs - 1` positions are unused; otherwise the claimed list is the input position and the first `num_pairs - 1` unused positions, each of which was free, and exactly those become in use |
| EntangleNodesExample.EntangleNodes.Stop | src/examples/entangle_nodes_protocol.py:84-95 | a non-empty claimed list is emptied and every position in it but the first is marked free; nothing else changes |
| EntangleNodesExample.EntangleNodes.StartThenStop | src/examples/entangle_nodes_protocol.py:62-95 | `stop` after `start` restores every `in_use` flag and leaves the claimed list empty |
| EntangleNodesExample.EntangleNodes.IsConnected | src/examples/entangle_nodes_protocol.py:125-147 | connected exactly when the base protocol is, the node has a memory, enough positions are unused before `start` or exactly `num_pairs` are claimed after it, and a source's node has a QSource, whose first name it records |
| EntangleNodesExample.EntangleNodes.Round | src/examples/entangle_nodes_protocol.py:109-123 | TypeError before `start`; KeyError for a source with no recorded QSource; otherwise the claimed positions are visited last to first, each swap followed by a wait for the program when the memory is busy, each received qubit adds one to the pair count, and the memory log gains exactly the round's swaps |
| EntangleNodesExample.EntangleNodes.Iteration | src/examples/entangle_nodes_protocol.py:102-123 | a pass waits first for the start expression when there is one; without one, a source whose pair count has reached `num_pairs` stops with nothing changed; otherwise one round runs |
| EntangleNodesExample.EntangleNodes.RunSource | src/examples/entangle_nodes_protocol.py:102-123 | a source without a start expression runs rounds until its pair count reaches `num_pairs` and not one round more; each round adds one pair per claimed position, and from zero with `num_pairs` positions claimed it runs exactly one round |

## Left out

- The simulator itself is not modelled. This covers NetSquid's discrete-event kernel, qubit physics, noise and loss models, and the construction of `Network`, `QSource`, `QuantumProcessor` and `QuantumChannel` objects. Instead:
  - what a run leaves in the memories is a parameter;
  - the repeater's Bell readings are parameters;
  - the fidelity function is a parameter;
  - what a memory peek reads in the snapshot reports is a parameter;
  - one experiment trial is a parameter;
  - whether a memory is still busy after a swap in the example protocol is a parameter.
- `sim_run` and the `yield` waits of the protocols are recorded as steps (trigger, wait for input, wait for the start expression, wait for the memory's program, signal). Their timing and interleaving are not modelled. Whether the memory is busy after a swap is an input to `EntangleNodesExample.EntangleNodes.Round`.
- `super().start()`, `super().stop()` and the base protocol's `is_connected` belong to the simulator. The base `is_connected` is a parameter of `EntangleNodesExample.EntangleNodes.IsConnected`.
- `EntangleNodesExample.EntangleNodes.RunSource`: the `run` loop of `entangle_nodes_protocol.py` ends only for a source without a start expression, and only that case is modelled as a whole run. Any other configuration loops forever; one pass of it is `Iteration`.
- `EntangleNodesExample.EntangleNodes.New` takes the start expression as a tag (none, an EventExpression, or another value with its type's text). The text of the EventExpression class is a fixed constant. `str(node)` in the ValueError message is the node's name.
- `GenerateEntanglementProtocol.GenerateEntanglement.constructor` requires the node to have a memory with the positions it claims. A protocol that is not a source, on a node without a memory, raises AttributeError; that path is not modelled.
- `network_setup` and the `__main__` blocks of the example and of the star network are left out. They only construct simulator objects and run them.
- `_init_source` (src/network/StarNetwork.py:207-217) only builds the two library sources. In the model, their ports are the constant names `SourceOutputs`.
- `_perform_fidelity_measurement` (src/network/StarNetwork.py:697-717) is not modelled. It computes library fidelities of peeked qubits and prints them.
- `print_bell_measurement` in `entanglement_swapping.py` only prints. The version that returns its text, in `bell_measurement.py`, is `BellMeasurement.PrintBellMeasurement`.
- `Experiment._plot_results`, tqdm progress bars, `verbose` printing and the file handle are left out. The CSV file is the sequence of lines written to it.
- Fidelities and lengths are reals, not IEEE floats. `np.mean` of an empty list, which is `nan`, is `None`. The decimal rendering of a mean is a parameter.
- `Combined.models` and `Empty.empty_models` are modelled by their keys only. The library model objects are not modelled.
- `StarSwap.PopAll`: that `pop` of an empty memory position raises ValueError is taken from the simulator, whose code is not part of this model. It is the only way the swap routines report a loss.
- `StarNet.StarNetwork.Pop` rests on the same assumption: an empty slot raises ValueError.
- `Converter.ConverterStringInt` and `Converter.ConverterStringListInt` accept only ASCII digits. `int()` also accepts the other Unicode decimal digits, which the model refuses. The digit limit is Python's default of 4300; a limit changed with `sys.set_int_max_str_digits` is not modelled.
- `Experiments.Experiment.Run`: each trial runs `entangle_nodes` or `protocol_a` on the network, which creates links, fills and swaps memory positions and grows the instruction logs; a trial is a function of the length and its number, so the model neither captures those effects on the network nor makes a trial depend on earlier ones. Its frame names only the channel length, the channels and the port pairs, the state the sweep itself sets.
- `Star.PairsFor` assumes that the simulator numbers the nodes in creation order, the source 0 and destination k as k. The port names that `add_connection` creates, `conn|<ID>|<label>`, are built from those numbers. The simulator's ID bookkeeping is not modelled.
- `StarNet.StarNetwork.constructor` models one network object whose lists start empty. The source's lists are class attributes shared by every instance, so a second network in one process would start from the first one's lists.
- `MainCli.SelectModels` follows the code: an unknown name raises UnboundLocalError. A test of `main.py` expects a message instead and passes an argument the function does not take.
- `StarNet.StarNetwork.SetSourceDelay` follows the code: it accepts a delay of 0, although the docstring says 0 raises.
- `GenerateEntanglementProtocol.GenerateEntanglement.constructor`: the keyword argument `qsource_name` that `test_protocols_GenerateEntanglement.py` passes at lines 29 and 32 does not exist on the constructor, so no property is taken from those lines.
- Printing is modelled only through the texts printed (`Printout`) or returned. Process exit (`sys.exit`) is the `Exited` outcome.
- Processes, subprocesses, terminal utilities, restart scripts and the top-level `main.py` are not part of this model.

## Findings

| source | as written | input that shows it | evidently intended | confidence | as-written member | corrected member |
|---|---|---|---|---|---|---|
| src/network/StarNetwork.py:632 | the second outcome is read as `m[1]["M"][0]`, but `m[1]` is the measurement's duration, a float, so indexing it raises TypeError, which no handler catches | the measurement output `({'M': [1]}, 0.0)` | measure repeater positions 0 and 1 and positions 2 and 3 separately, and read each outcome as `m[0]["M"][0]` | not executed | StarSwap.ThreeNodeStatesAsWritten | StarSwap.ThreeNodeStates |
| src/network/StarNetwork.py:638-658 | the corrections name their position by keyword (`positions=0` once, `position=` otherwise), while every other call on these memories passes the positions as the second positional argument; the model takes neither keyword as a target, so every gate is issued without positions. The code is reached only once the read at line 632 is corrected, since as written that read raises TypeError first | with the read corrected, Bell outcomes 2 and 1: Z, X are due at remote position 0 and X at position 1, yet neither position receives a gate | issue each outcome's gates at its own remote position, 0 for the first outcome and 1 for the second | not executed | StarSwap.AsWrittenCounterexample | StarSwap.CorrectionsReachTheirPositions |
| src/network/StarNetwork.py:264-305 | the port pairs are built as `PortPair(source, destination, name)`, while the imported `src/network/PortPair.py` accepts two arguments, so every call raises TypeError | any call of `_init_quantum_channels`, e.g. the constructor | the three-field port pair of `src/helper/network/PortPair.py` | not executed | NetworkPortPair.ThreeArgumentCallFails | HelperPortPair.Create |
