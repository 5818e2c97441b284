/**
 * The `StarNetwork` object (src/network/StarNetwork.py): its settings, the lists it builds,
 * the forwarding state of the ports, the qubits in the memories and the instruction logs of
 * the repeater's and the remote node's memories.
 *
 * The class-level lists of the source are shared by every instance; the model has one
 * instance, whose lists start empty.
 */
module StarNet {
  import opened Common
  import opened Components
  import opened SwapResults
  import opened EntanglementSwapping
  import opened BellMeasurement
  import opened Star
  import opened StarSwap
  import HelperPortPair

  /** The preconditions `entangle_nodes` asserts. */
  predicate EntangleNodesAllowed(N: int, node1: int, node2: int)
  {
    1 <= node1 <= N - 1 && 1 <= node2 <= N - 1 && node1 != node2
  }

  /** The preconditions `protocol_a` asserts (the chain `node1 != node2 != node3` compares neighbours only). */
  predicate ProtocolAAllowed(N: int, node1: int, node2: int, node3: int)
  {
    && 1 <= node1 <= N - 1 && 1 <= node2 <= N - 1 && 1 <= node3 <= N - 1
    && node1 < node2 < node3
    && node1 != node2 && node2 != node3
  }

  /** The three nodes `protocol_a` accepts are read from three different memories. */
  lemma ProtocolANodesApart(N: int, node1: int, node2: int, node3: int)
    requires ProtocolAAllowed(N, node1, node2, node3)
    ensures Label(N, node1) != Label(N, node2) && Label(N, node1) != Label(N, node3) && Label(N, node2) != Label(N, node3)
  {
    LabelsDistinct(N, node1, node2);
    LabelsDistinct(N, node1, node3);
    LabelsDistinct(N, node2, node3);
  }

  /**
   * The memory after the two-node swap's pops, peeks and discards: the pops stop at the first
   * empty slot and what was popped before stays popped; once both pops succeed, repeater
   * positions 0 and 1 are discarded when one of the labels is `RemoteNode` (a discard of an
   * empty position fails and is ignored).
   */
  function AfterTwoNodeSwap(mem: map<Slot, Qubit>, l1: string, l2: string): map<Slot, Qubit>
  {
    var s1, s2 := Slot(l1, 0), Slot(l2, 0);
    if s1 !in mem then mem
    else if s2 !in mem - {s1} then mem - {s1}
    else
      var rest := mem - {s1} - {s2};
      if l1 == "RemoteNode" || l2 == "RemoteNode"
      then rest - {Slot("Repeater", 0)} - {Slot("Repeater", 1)}
      else rest
  }

  /** The two pops of the two-node swap both find a qubit. */
  predicate TwoNodePopsSucceed(mem: map<Slot, Qubit>, l1: string, l2: string)
  {
    Slot(l1, 0) in mem && Slot(l2, 0) in mem - {Slot(l1, 0)}
  }

  /** Popping the two slots one at a time succeeds exactly when the swap reports a measurement. */
  lemma TwoNodePops(mem: map<Slot, Qubit>, l1: string, l2: string)
    ensures TwoNodePopsSucceed(mem, l1, l2) <==> TwoNodeSucceeds(mem, l1, l2)
    ensures TwoNodePopsSucceed(mem, l1, l2) ==> mem - {Slot(l1, 0)} - {Slot(l2, 0)} == mem - {Slot(l1, 0), Slot(l2, 0)}
  {
    var s1, s2 := Slot(l1, 0), Slot(l2, 0);
    assert mem - {s1} - {s2} == mem - {s1, s2};
  }

  /**
   * When the two-node swap succeeds it removes exactly the two popped qubits and, when either
   * node is the remote node, whatever the repeater's positions 0 and 1 held; when a pop fails
   * it removes at most node1's qubit.
   */
  lemma TwoNodeSwapRemoves(mem: map<Slot, Qubit>, l1: string, l2: string)
    ensures TwoNodeSucceeds(mem, l1, l2) ==>
              AfterTwoNodeSwap(mem, l1, l2)
              == mem - {Slot(l1, 0), Slot(l2, 0)}
                     - (if l1 == "RemoteNode" || l2 == "RemoteNode" then RepeaterPositions(2) else {})
    ensures !TwoNodeSucceeds(mem, l1, l2) ==> AfterTwoNodeSwap(mem, l1, l2) == mem - {Slot(l1, 0)}
  {
    TwoNodePops(mem, l1, l2);
    var s1, s2 := Slot(l1, 0), Slot(l2, 0);
    if s1 !in mem {
      assert mem - {s1} == mem;
    }
    assert RepeaterPositions(2) == {Slot("Repeater", 0), Slot("Repeater", 1)};
    assert mem - {s1, s2} - {Slot("Repeater", 0)} - {Slot("Repeater", 1)}
        == mem - {s1, s2} - {Slot("Repeater", 0), Slot("Repeater", 1)};
  }

  /**
   * The memory after the three-node swap's pops, peeks and discards: the four pops stop at the
   * first empty slot; once all four succeed, repeater positions 0..3 are discarded when node3's
   * label is `RemoteNode`.
   */
  function AfterThreeNodeSwap(mem: map<Slot, Qubit>, l1: string, l2: string, l3: string): map<Slot, Qubit>
  {
    var s1, s2, s3, s4 := Slot(l1, 0), Slot(l2, 0), Slot(l3, 0), Slot(l3, 1);
    if s1 !in mem then mem
    else if s2 !in mem - {s1} then mem - {s1}
    else if s3 !in mem - {s1} - {s2} then mem - {s1} - {s2}
    else if s4 !in mem - {s1} - {s2} - {s3} then mem - {s1} - {s2} - {s3}
    else
      var rest := mem - {s1} - {s2} - {s3} - {s4};
      if l3 == "RemoteNode" then rest - RepeaterPositions(4) else rest
  }

  /** The four pops of the three-node swap all find a qubit. */
  predicate ThreeNodePopsSucceed(mem: map<Slot, Qubit>, l1: string, l2: string, l3: string)
  {
    var s1, s2, s3, s4 := Slot(l1, 0), Slot(l2, 0), Slot(l3, 0), Slot(l3, 1);
    s1 in mem && s2 in mem - {s1} && s3 in mem - {s1} - {s2} && s4 in mem - {s1} - {s2} - {s3}
  }

  /** Popping the four slots one at a time succeeds exactly when the swap reports both measurements. */
  lemma ThreeNodePops(mem: map<Slot, Qubit>, l1: string, l2: string, l3: string)
    ensures ThreeNodePopsSucceed(mem, l1, l2, l3) <==> ThreeNodeSucceeds(mem, l1, l2, l3)
    ensures ThreeNodePopsSucceed(mem, l1, l2, l3) ==>
              mem - {Slot(l1, 0)} - {Slot(l2, 0)} - {Slot(l3, 0)} - {Slot(l3, 1)}
              == mem - {Slot(l1, 0), Slot(l2, 0), Slot(l3, 0), Slot(l3, 1)}
  {
    var s1, s2, s3, s4 := Slot(l1, 0), Slot(l2, 0), Slot(l3, 0), Slot(l3, 1);
    assert mem - {s1} - {s2} - {s3} - {s4} == mem - {s1, s2, s3, s4};
  }

  /**
   * When the three-node swap succeeds it removes exactly the four popped qubits and, when node3
   * is the remote node, whatever the repeater's positions 0..3 held; when a pop fails it keeps
   * every other qubit, node3's position 1 and the repeater's included, unchanged.
   */
  lemma ThreeNodeSwapRemoves(mem: map<Slot, Qubit>, l1: string, l2: string, l3: string)
    ensures var popped := {Slot(l1, 0), Slot(l2, 0), Slot(l3, 0), Slot(l3, 1)};
            ThreeNodeSucceeds(mem, l1, l2, l3) ==>
              AfterThreeNodeSwap(mem, l1, l2, l3)
              == mem - popped - (if l3 == "RemoteNode" then RepeaterPositions(4) else {})
    ensures var after := AfterThreeNodeSwap(mem, l1, l2, l3);
            !ThreeNodeSucceeds(mem, l1, l2, l3) ==>
              && (forall s :: s in after ==> s in mem && after[s] == mem[s])
              && (mem - {Slot(l1, 0), Slot(l2, 0), Slot(l3, 0)}).Keys <= after.Keys
  {
    ThreeNodePops(mem, l1, l2, l3);
  }

  /** The Bell outcome of the two-node swap: Ok(None) for the swallowed MemPositionEmptyError. */
  function TwoNodeState(reading: BellReading): (r: Result<Option<int>>)
    ensures reading.EmptyPosition? ==> r == Ok(None)
    ensures reading.Outcome? && MOutcome(reading.m).Ok? ==> r == Ok(Some(MOutcome(reading.m).value))
    ensures reading.Outcome? && MOutcome(reading.m).Err? ==> r == Err(MOutcome(reading.m).error)
  {
    match reading
    case EmptyPosition => Ok(None)
    case Outcome(m) =>
      match MOutcome(m)
      case Err(e) => Err(e)
      case Ok(state) => Ok(Some(state))
  }

  /**
   * What the first block of the two-node swap appends to the repeater's memory log: the Bell
   * measurement, when one of the nodes is N-1.
   */
  function TwoNodeRepeaterLog(measured: bool): (r: seq<Instruction>)
    ensures |r| == if measured then 1 else 0
  {
    if measured then [BellInstruction([])] else []
  }

  /** What it appends to the remote memory's log: the corrections of the outcome it read, if any. */
  function TwoNodeRemoteLog(measured: bool, reading: BellReading): (r: seq<Instruction>)
    ensures r != [] ==> measured && TwoNodeState(reading).Ok? && TwoNodeState(reading).value.Some?
  {
    var st := TwoNodeState(reading);
    if measured && st.Ok? && st.value.Some? then Issued(InlineCorrections(st.value.value), DefaultPositions) else []
  }

  /**
   * What the first block of the (corrected) three-node swap appends to the repeater's memory
   * log: the measurement of positions 0 and 1 and, once its outcome was read, of 2 and 3.
   */
  function ThreeNodeRepeaterLog(measured: bool, first: BellReading): (r: seq<Instruction>)
    ensures !measured ==> r == []
    ensures measured ==> 1 <= |r| <= 2 && r[0] == BellInstruction([0, 1])
  {
    if measured then [BellInstruction([0, 1])] + (if first.Outcome? && MOutcome(first.m).Ok? then [BellInstruction([2, 3])] else [])
    else []
  }

  /** What it appends to the remote memory's log: both outcomes' corrections once both were read. */
  function ThreeNodeRemoteLog(measured: bool, first: BellReading, second: BellReading): (r: seq<Instruction>)
    ensures r != [] ==> measured && ThreeNodeStates(first, second).Ok? && ThreeNodeStates(first, second).value.Some?
  {
    var st := ThreeNodeStates(first, second);
    if measured && st.Ok? && st.value.Some? then ThreeNodeCorrections(st.value.value.0, st.value.value.1) else []
  }

  class StarNetwork {
    var destinationsN: int
    var sourceDelay: real
    var channelsLength: real
    var models: Option<Models>
    var destinations: seq<Destination>
    var channels: seq<Channel>
    var portPairs: seq<PortPair>
    /** Forwarding and connections between ports. */
    var links: map<Port, Port>
    /** The qubits held by every memory. */
    var memory: map<Slot, Qubit>
    const repeaterMemory: QuantumMemory
    const remoteMemory: QuantumMemory

    ghost predicate Valid()
    {
      repeaterMemory != remoteMemory
    }

    /**
     * `StarNetwork(models, lengths)`: five destinations, N+2 channels of the captured default
     * length 1 (the `lengths` argument is stored but does not reach the channels), and the
     * remote node wired to the repeater.
     */
    constructor (models: Option<Models>, lengths: real := DefaultChannelsLength)
      ensures Valid()
      ensures destinationsN == DefaultDestinationsN && sourceDelay == DefaultSourceDelay
      ensures channelsLength == lengths && this.models == models
      ensures destinations == Destinations(destinationsN)
      ensures channels == ChannelsUpTo(destinationsN, destinationsN, DefaultChannelsLength, models)
      ensures portPairs == PairsUpTo(destinationsN, destinationsN)
      ensures |destinations| >= 2 && |portPairs| >= 2 && links == Wire(map[], RemoteEntries(destinations, portPairs))
      ensures memory == map[] && repeaterMemory.log == [] && remoteMemory.log == []
    {
      destinationsN := DefaultDestinationsN;
      sourceDelay := DefaultSourceDelay;
      channelsLength := lengths;
      this.models := models;
      destinations := [];
      channels := [];
      portPairs := [];
      links := map[];
      memory := map[];
      repeaterMemory := new QuantumMemory("QP_Repeater", RepeaterMemPositions);
      remoteMemory := new QuantumMemory("QP_RemoteNode", RemoteNodeMemPositions);
      new;
      ghost var N := destinationsN;
      InitDestinations();
      assert destinations == Destinations(N);
      InitQuantumChannels(DefaultChannelsLength);
      ChannelCount(destinationsN, DefaultChannelsLength, models);
      assert |destinations| == N && |portPairs| == N + 2;
      var _ := ConnectRemoteNode();
    }

    /** `_init_destinations`: appends destinations 1..N. */
    method InitDestinations()
      modifies this`destinations
      ensures destinations == old(destinations) + Destinations(destinationsN)
    {
      ghost var start := destinations;
      var n := 1;
      while n <= destinationsN
        invariant 1 <= n <= (if destinationsN < 0 then 0 else destinationsN) + 1
        invariant destinations == start + DestinationsUpTo(destinationsN, n - 1)
      {
        if n == destinationsN - 1 {
          destinations := destinations + [Destination("Repeater", "QP_Repeater", RepeaterMemPositions, [])];
        } else if n == destinationsN {
          destinations := destinations + [Destination("RemoteNode", "QP_RemoteNode", RemoteNodeMemPositions,
                                                      ["RemoteQuantumSource", "RemoteQuantumSource1"])];
        } else {
          destinations := destinations + [Destination("Node" + IntToString(n), "QP_Node" + IntToString(n),
                                                      NodeMemPositions, [])];
        }
        n := n + 1;
      }
    }

    /**
     * `_init_quantum_channels(length)`: clears the channels, then per destination appends its
     * channels and, one per channel, its port pairs; the pair list is not cleared.
     */
    method InitQuantumChannels(length: real)
      modifies this`channels, this`portPairs
      ensures channels == ChannelsUpTo(destinationsN, |destinations|, length, models)
      ensures portPairs == old(portPairs) + PairsUpTo(destinationsN, |destinations|)
    {
      channels := [];
      ghost var start := portPairs;
      var index := 0;
      while index < |destinations|
        invariant 0 <= index <= |destinations|
        invariant channels == ChannelsUpTo(destinationsN, index, length, models)
        invariant portPairs == start + PairsUpTo(destinationsN, index)
      {
        channels := channels + ChannelsFor(destinationsN, index, length, models);
        portPairs := portPairs + PairsFor(destinationsN, index);
        index := index + 1;
      }
    }

    /** `_connect_remote_node`: IndexError when there are fewer than two destinations or pairs. */
    method ConnectRemoteNode() returns (s: Status)
      modifies this`links
      ensures |destinations| < 2 || |portPairs| < 2 ==> s == Raised(IndexError) && links == old(links)
      ensures |destinations| >= 2 && |portPairs| >= 2 ==>
                s == Done && links == Wire(old(links), RemoteEntries(destinations, portPairs))
    {
      if |destinations| < 2 || |portPairs| < 2 {
        return Raised(IndexError);
      }
      links := Wire(links, RemoteEntries(destinations, portPairs));
      s := Done;
    }

    // -------------------------------------------------------------------------
    // Setters
    // -------------------------------------------------------------------------

    /** `source_delay = ns`: AssertionError for a negative delay. */
    method SetSourceDelay(ns: real) returns (s: Status)
      modifies this`sourceDelay
      ensures s == Done <==> ns >= 0.0
      ensures s == Done ==> sourceDelay == ns
      ensures s != Done ==> s == Raised(AssertionError) && sourceDelay == old(sourceDelay)
    {
      if !(ns >= 0.0) {
        return Raised(AssertionError);
      }
      sourceDelay := ns;
      s := Done;
    }

    /** `destinations_n = n`: AssertionError unless n is positive. */
    method SetDestinationsN(n: int) returns (s: Status)
      modifies this`destinationsN
      ensures s == Done <==> n > 0
      ensures s == Done ==> destinationsN == n
      ensures s != Done ==> s == Raised(AssertionError) && destinationsN == old(destinationsN)
    {
      if !(n > 0) {
        return Raised(AssertionError);
      }
      destinationsN := n;
      s := Done;
    }

    /** `models = models_dict`: the channels already built keep their models. */
    method SetModels(m: Option<Models>)
      modifies this`models
      ensures models == m
    {
      models := m;
    }

    /**
     * `_change_lengths(new_length)`: AssertionError for a negative length; nothing when it equals
     * the stored length; otherwise the channels are rebuilt at the new length.
     */
    method ChangeLengths(newLength: real) returns (s: Status)
      modifies this`channels, this`portPairs
      ensures newLength < 0.0 ==> s == Raised(AssertionError)
      ensures newLength >= 0.0 ==> s == Done
      ensures newLength < 0.0 || newLength == channelsLength ==> channels == old(channels) && portPairs == old(portPairs)
      ensures newLength >= 0.0 && newLength != channelsLength ==>
                && channels == ChannelsUpTo(destinationsN, |destinations|, newLength, models)
                && portPairs == old(portPairs) + PairsUpTo(destinationsN, |destinations|)
    {
      if !(newLength >= 0.0) {
        return Raised(AssertionError);
      }
      if newLength == channelsLength {
        return Done;
      }
      InitQuantumChannels(newLength);
      s := Done;
    }

    /**
     * `channels_length = n` (metres): AssertionError unless n is positive; stores n/1000 (km)
     * and then asks for that same length, so no channel is ever rebuilt.
     */
    method SetChannelsLength(n: real) returns (s: Status)
      modifies this`channelsLength, this`channels, this`portPairs
      ensures s == Done <==> n > 0.0
      ensures s == Done ==> channelsLength == n / 1000.0
      ensures s != Done ==> s == Raised(AssertionError) && channelsLength == old(channelsLength)
      ensures channels == old(channels) && portPairs == old(portPairs)
    {
      if !(n > 0.0) {
        return Raised(AssertionError);
      }
      channelsLength := n / 1000.0;
      s := ChangeLengths(channelsLength);
    }

    // -------------------------------------------------------------------------
    // Connecting the source to destinations
    // -------------------------------------------------------------------------

    /** `_connect_source_to_destination(n)`. */
    method ConnectSourceToDestination(n: int) returns (s: Status)
      modifies this`links
      ensures var c := Connect(destinationsN, destinations, portPairs, old(links), n);
              && (c.Ok? ==> s == Done && links == c.value)
              && (c.Err? ==> s == Raised(c.error) && links == old(links))
    {
      if !(1 <= n <= destinationsN - 1) {
        return Raised(AssertionError);
      }
      if n > |destinations| || n > |portPairs| {
        return Raised(IndexError);
      }
      var destination := destinations[n - 1];
      var pair := portPairs[n - 1];
      if SourceOutputs[0] in links && SourceOutputs[1] in links && SourceOutputs[2] in links && SourceOutputs[3] in links {
        return Raised(RaisedException(AllTakenMessage));
      }
      // The source's final `else: raise` cannot be reached after the check above.
      var output := if SourceOutputs[0] !in links then SourceOutputs[0]
                    else if SourceOutputs[1] !in links then SourceOutputs[1]
                    else if SourceOutputs[2] !in links then SourceOutputs[2]
                    else SourceOutputs[3];
      links := links[output := Port("Source", pair.source)];
      links := links[Port(destination.name, pair.destination) := Port(destination.processor, "qin0")];
      s := Done;
    }

    /** `_disconnect_source_from_destination(n)`. */
    method DisconnectSourceFromDestination(n: int) returns (s: Status)
      modifies this`links
      ensures var d := Disconnect(destinationsN, old(links), n);
              && (d.Ok? ==> s == Done && links == d.value)
              && (d.Err? ==> s == Raised(d.error) && links == old(links))
    {
      if !(1 <= n <= destinationsN - 1) {
        return Raised(AssertionError);
      }
      var names := {ConnPort(n, "C_Source->Node" + IntToString(n)), ConnPort(n, "C_Source->Repeater")};
      if SourceOutputs[0] in links && links[SourceOutputs[0]].name in names {
        links := links - {SourceOutputs[0]};
      } else if SourceOutputs[1] in links && links[SourceOutputs[1]].name in names {
        links := links - {SourceOutputs[1]};
      } else {
        return Raised(RaisedException("The source node is not connected to Node " + IntToString(n)));
      }
      s := Done;
    }

    /**
     * `_perform_entanglement(node1, node2)`: connect both, let the simulation deposit its qubits,
     * disconnect both; an exception stops the sequence where it is raised.
     */
    method PerformEntanglement(node1: int, node2: int, deposit: map<Slot, Qubit>) returns (s: Status)
      modifies this`links, this`memory
      ensures Wired(links, s) == TwoNodeConnections(destinationsN, destinations, portPairs, old(links), node1, node2)
      ensures memory == if ConnectAll(destinationsN, destinations, portPairs, old(links), [node1, node2]).status.Done?
                        then old(memory) + deposit else old(memory)
    {
      ghost var N, D, P := destinationsN, destinations, portPairs;
      ghost var w := ConnectAll(N, D, P, links, [node1, node2]);
      s := ConnectSourceToDestination(node1);
      if s.Raised? {
        return;
      }
      ConnectAllStep(N, D, P, old(links), [node1, node2]);
      assert [node1, node2][1..] == [node2];
      ghost var l1 := links;
      s := ConnectSourceToDestination(node2);
      if s.Raised? {
        return;
      }
      ConnectAllStep(N, D, P, l1, [node2]);
      assert w == Wired(links, Done);
      memory := memory + deposit;
      s := DisconnectSourceFromDestination(node1);
      if s.Raised? {
        return;
      }
      DisconnectAllStep(N, w.links, [node1, node2]);
      ghost var l3 := links;
      s := DisconnectSourceFromDestination(node2);
      assert s.Done? ==> DisconnectAll(N, l3, [node2]) == Wired(links, Done) by {
        if s.Done? {
          DisconnectAllStep(N, l3, [node2]);
        }
      }
    }

    /**
     * `_perform_new_entanglement(node1, node2, node3)`: connect all three, let the simulation
     * deposit its qubits, then disconnect node1 and node2 only.
     */
    method PerformNewEntanglement(node1: int, node2: int, node3: int, deposit: map<Slot, Qubit>) returns (s: Status)
      modifies this`links, this`memory
      ensures Wired(links, s) == ThreeNodeConnections(destinationsN, destinations, portPairs, old(links), node1, node2, node3)
      ensures memory == if ConnectAll(destinationsN, destinations, portPairs, old(links), [node1, node2, node3]).status.Done?
                        then old(memory) + deposit else old(memory)
    {
      ghost var N, D, P := destinationsN, destinations, portPairs;
      ghost var w := ConnectAll(N, D, P, links, [node1, node2, node3]);
      s := ConnectSourceToDestination(node1);
      if s.Raised? {
        assert w == Wired(links, s) && memory == old(memory);
        return;
      }
      ConnectAllStep(N, D, P, old(links), [node1, node2, node3]);
      assert [node1, node2, node3][1..] == [node2, node3];
      ghost var l1 := links;
      s := ConnectSourceToDestination(node2);
      if s.Raised? {
        assert w == Wired(links, s) && memory == old(memory);
        return;
      }
      ConnectAllStep(N, D, P, l1, [node2, node3]);
      assert [node2, node3][1..] == [node3];
      ghost var l2 := links;
      s := ConnectSourceToDestination(node3);
      if s.Raised? {
        assert w == Wired(links, s) && memory == old(memory);
        return;
      }
      ConnectAllStep(N, D, P, l2, [node3]);
      assert w == Wired(links, Done);
      memory := memory + deposit;
      assert w.status.Done? && memory == old(memory) + deposit;
      s := DisconnectSourceFromDestination(node1);
      if s.Raised? {
        return;
      }
      DisconnectAllStep(N, w.links, [node1, node2]);
      assert [node1, node2][1..] == [node2];
      ghost var l4 := links;
      s := DisconnectSourceFromDestination(node2);
      assert s.Done? ==> DisconnectAll(N, l4, [node2]) == Wired(links, Done) by {
        if s.Done? {
          DisconnectAllStep(N, l4, [node2]);
        }
      }
    }

    // -------------------------------------------------------------------------
    // Entanglement swapping
    // -------------------------------------------------------------------------

    /** The `if state == 1 … elif state == 3` chain on the remote memory, at `target`. */
    method IssueCorrections(state: int, target: Target)
      modifies remoteMemory`log
      ensures remoteMemory.log == old(remoteMemory.log) + Issued(InlineCorrections(state), target)
    {
      if state == 1 {
        remoteMemory.Execute(Instruction(OpX, target, None));
      } else if state == 2 {
        remoteMemory.Execute(Instruction(OpZ, target, None));
        remoteMemory.Execute(Instruction(OpX, target, None));
      } else if state == 3 {
        remoteMemory.Execute(Instruction(OpZ, target, None));
      }
    }

    /**
     * The first `try` block of `_perform_entanglement_swapping`: when either node is N-1, one
     * Bell measurement on the repeater, its outcome read as `m[0]["M"][0]`, and the inline
     * corrections on the remote memory. KeyError or IndexError from the read propagates.
     */
    method MeasureAndCorrect(node1: int, node2: int, reading: BellReading) returns (st: Result<Option<int>>)
      requires Valid()
      modifies repeaterMemory`log, remoteMemory`log
      ensures node1 == destinationsN - 1 || node2 == destinationsN - 1 ==>
                && st == TwoNodeState(reading)
                && repeaterMemory.log == old(repeaterMemory.log) + [BellInstruction([])]
      ensures !(node1 == destinationsN - 1 || node2 == destinationsN - 1) ==>
                st == Ok(None) && repeaterMemory.log == old(repeaterMemory.log)
      ensures st.Ok? && st.value.Some? ==>
                remoteMemory.log == old(remoteMemory.log) + Issued(InlineCorrections(st.value.value), DefaultPositions)
      ensures !(st.Ok? && st.value.Some?) ==> remoteMemory.log == old(remoteMemory.log)
    {
      if node1 == destinationsN - 1 || node2 == destinationsN - 1 {
        repeaterMemory.Execute(Instruction(OpMeasureBell, DefaultPositions, Some("M")));
        match reading
        case EmptyPosition =>
          return Ok(None);
        case Outcome(m) =>
          var state := MOutcome(m);
          if state.Err? {
            return Err(state.error);
          }
          IssueCorrections(state.value, DefaultPositions);
          return Ok(Some(state.value));
      }
      return Ok(None);
    }

    /** `qmemory.pop(position)` on the slot's memory: ValueError when the slot is empty. */
    method Pop(slot: Slot) returns (q: Result<Qubit>)
      modifies this`memory
      ensures slot in old(memory) ==> q == Ok(old(memory)[slot]) && memory == old(memory) - {slot}
      ensures slot !in old(memory) ==> q.Err? && q.error.ValueError? && memory == old(memory)
    {
      if slot !in memory {
        return Err(ValueError("empty memory position"));
      }
      q := Ok(memory[slot]);
      memory := memory - {slot};
    }

    /**
     * `qmemory.peek(position)` on a position the memory has: the qubit, or None for an empty
     * position (the one-element list `[None]`, which the swap routines unpack without error).
     */
    method Peek(slot: Slot) returns (q: Option<Qubit>)
      ensures slot in memory ==> q == Some(memory[slot])
      ensures slot !in memory ==> q == None
    {
      if slot !in memory {
        return None;
      }
      q := Some(memory[slot]);
    }

    /** `try: qmemory.discard(position) except: pass`: the slot is empty afterwards. */
    method Discard(slot: Slot)
      modifies this`memory
      ensures memory == old(memory) - {slot}
    {
      memory := memory - {slot};
    }

    /**
     * The second `try` block of `_perform_entanglement_swapping`: pop position 0 of both nodes,
     * peek repeater positions 0 and 1 (which never raises), compute the fidelity and, when a
     * label is `RemoteNode`, discard repeater positions 0 and 1. A ValueError from a pop gives
     * the loss record. The caller computes the labels from the node numbers, as the source does
     * before the block.
     */
    method CollectTwoNodeResult(label1: string, label2: string, fid: Fidelity) returns (r: Record)
      modifies this`memory
      ensures r == TwoNodeOutcome(fid, old(memory), label1, label2)
      ensures memory == AfterTwoNodeSwap(old(memory), label1, label2)
    {
      ghost var mem := memory;
      TwoNodePops(mem, label1, label2);
      var qubit1 := Pop(Slot(label1, 0));
      if qubit1.Err? {
        return Lost(TwoNodeLostMessage, true);
      }
      var qubit2 := Pop(Slot(label2, 0));
      if qubit2.Err? {
        return Lost(TwoNodeLostMessage, true);
      }
      assert TwoNodePopsSucceed(mem, label1, label2);
      assert qubit1.value == mem[Slot(label1, 0)] && qubit2.value == mem[Slot(label2, 0)];
      var _ := Peek(Slot("Repeater", 0));
      var _ := Peek(Slot("Repeater", 1));
      var fidelity := fid([qubit1.value, qubit2.value], B00);
      if label1 == "RemoteNode" || label2 == "RemoteNode" {
        Discard(Slot("Repeater", 0));
        Discard(Slot("Repeater", 1));
      }
      r := Measured([qubit1.value, qubit2.value], fidelity, false);
    }

    /** `_perform_entanglement_swapping(node1, node2)`. */
    method PerformEntanglementSwapping(node1: int, node2: int, reading: BellReading, fid: Fidelity)
      returns (r: Result<Record>)
      requires Valid()
      modifies this`memory, repeaterMemory`log, remoteMemory`log
      ensures var N := destinationsN;
              var failed := (node1 == N - 1 || node2 == N - 1) && TwoNodeState(reading).Err?;
              && (failed ==> r == Err(TwoNodeState(reading).error) && memory == old(memory))
              && (!failed ==> r == Ok(TwoNodeOutcome(fid, old(memory), Label(N, node1), Label(N, node2)))
                              && memory == AfterTwoNodeSwap(old(memory), Label(N, node1), Label(N, node2)))
      ensures var measured := node1 == destinationsN - 1 || node2 == destinationsN - 1;
              && repeaterMemory.log == old(repeaterMemory.log) + TwoNodeRepeaterLog(measured)
              && remoteMemory.log == old(remoteMemory.log) + TwoNodeRemoteLog(measured, reading)
    {
      var st := MeasureAndCorrect(node1, node2, reading);
      if st.Err? {
        return Err(st.error);
      }
      var record := CollectTwoNodeResult(Label(destinationsN, node1), Label(destinationsN, node2), fid);
      r := Ok(record);
    }

    /**
     * The first `try` block of the three-node swap, with the evident intent of its comment:
     * Bell measurements on repeater positions 0,1 and then 2,3, each outcome read as
     * `m[0]["M"][0]`, then each outcome's corrections at its own remote position.
     */
    method MeasureAndCorrectBoth(first: BellReading, second: BellReading) returns (st: Result<Option<(int, int)>>)
      requires Valid()
      modifies repeaterMemory`log, remoteMemory`log
      ensures st == ThreeNodeStates(first, second)
      ensures repeaterMemory.log == old(repeaterMemory.log) + [BellInstruction([0, 1])]
                + (if first.Outcome? && MOutcome(first.m).Ok? then [BellInstruction([2, 3])] else [])
      ensures st.Ok? && st.value.Some? ==>
                remoteMemory.log == old(remoteMemory.log) + ThreeNodeCorrections(st.value.value.0, st.value.value.1)
      ensures !(st.Ok? && st.value.Some?) ==> remoteMemory.log == old(remoteMemory.log)
    {
      repeaterMemory.Execute(Instruction(OpMeasureBell, At([0, 1]), Some("M")));
      if first.EmptyPosition? {
        return Ok(None);
      }
      var state := MOutcome(first.m);
      if state.Err? {
        return Err(state.error);
      }
      repeaterMemory.Execute(Instruction(OpMeasureBell, At([2, 3]), Some("M")));
      if second.EmptyPosition? {
        return Ok(None);
      }
      var state1 := MOutcome(second.m);
      if state1.Err? {
        return Err(state1.error);
      }
      IssueCorrections(state.value, At([0]));
      IssueCorrections(state1.value, At([1]));
      st := Ok(Some((state.value, state1.value)));
    }

    /**
     * The second `try` block of `_perform_new_entanglement_swapping`: pop node1 and node2 at 0
     * and node3 at 0 and 1, peek repeater positions 0..3, compute both fidelities and, when
     * node3's label is `RemoteNode`, discard repeater positions 0..3 ignoring failures. The
     * caller computes the labels from the node numbers, as the source does before the block.
     */
    method CollectThreeNodeResult(label1: string, label2: string, label3: string, fid: Fidelity) returns (r: TrialResult)
      modifies this`memory
      ensures r == ThreeNodeOutcome(fid, old(memory), label1, label2, label3)
      ensures memory == AfterThreeNodeSwap(old(memory), label1, label2, label3)
    {
      ghost var mem := memory;
      ThreeNodePops(mem, label1, label2, label3);
      var qubit1 := Pop(Slot(label1, 0));
      if qubit1.Err? {
        return Single(Lost(ThreeNodeLostMessage, true));
      }
      var qubit2 := Pop(Slot(label2, 0));
      if qubit2.Err? {
        return Single(Lost(ThreeNodeLostMessage, true));
      }
      var qubit3 := Pop(Slot(label3, 0));
      if qubit3.Err? {
        return Single(Lost(ThreeNodeLostMessage, true));
      }
      var qubit31 := Pop(Slot(label3, 1));
      if qubit31.Err? {
        return Single(Lost(ThreeNodeLostMessage, true));
      }
      assert ThreeNodePopsSucceed(mem, label1, label2, label3);
      assert qubit1.value == mem[Slot(label1, 0)] && qubit2.value == mem[Slot(label2, 0)];
      assert qubit3.value == mem[Slot(label3, 0)] && qubit31.value == mem[Slot(label3, 1)];
      r := PeekAndDiscard(label3, fid, [qubit1.value, qubit3.value], [qubit2.value, qubit31.value]);
    }

    /**
     * The rest of that block once the four pops succeeded: peek repeater positions 0..3 (which
     * never raises), then the two records, discarding repeater positions 0..3 when node3's label
     * is `RemoteNode`.
     */
    method PeekAndDiscard(label3: string, fid: Fidelity, pair: seq<Qubit>, pair1: seq<Qubit>) returns (r: TrialResult)
      modifies this`memory
      ensures r == Multiple(GetResults(fid, pair, pair1))
      ensures label3 == "RemoteNode" ==> memory == old(memory) - RepeaterPositions(4)
      ensures label3 != "RemoteNode" ==> memory == old(memory)
    {
      var _ := Peek(Slot("Repeater", 0));
      var _ := Peek(Slot("Repeater", 1));
      var _ := Peek(Slot("Repeater", 2));
      var _ := Peek(Slot("Repeater", 3));
      var fidelity := fid(pair, B00);
      var fidelity1 := fid(pair1, B00);
      if label3 == "RemoteNode" {
        ghost var before := memory;
        var i := 0;
        while i < 4
          invariant 0 <= i <= 4
          invariant memory == before - RepeaterPositions(i)
        {
          assert RepeaterPositions(i + 1) == RepeaterPositions(i) + {Slot("Repeater", i)};
          Discard(Slot("Repeater", i));
          i := i + 1;
        }
      }
      r := Multiple([Measured(pair, fidelity, false), Measured(pair1, fidelity1, false)]);
    }

    /**
     * `_perform_new_entanglement_swapping(node1, node2, node3)` with both of its defects
     * corrected: the measurement only happens when node3 is N-1; a read error propagates.
     */
    method PerformNewEntanglementSwapping(node1: int, node2: int, node3: int,
                                          first: BellReading, second: BellReading, fid: Fidelity)
      returns (r: Result<TrialResult>)
      requires Valid()
      modifies this`memory, repeaterMemory`log, remoteMemory`log
      ensures var N := destinationsN;
              var failed := node3 == N - 1 && ThreeNodeStates(first, second).Err?;
              && (failed ==> r == Err(ThreeNodeStates(first, second).error) && memory == old(memory))
              && (!failed ==> r == Ok(ThreeNodeOutcome(fid, old(memory), Label(N, node1), Label(N, node2), Label(N, node3)))
                              && memory == AfterThreeNodeSwap(old(memory), Label(N, node1), Label(N, node2), Label(N, node3)))
      ensures var measured := node3 == destinationsN - 1;
              && repeaterMemory.log == old(repeaterMemory.log) + ThreeNodeRepeaterLog(measured, first)
              && remoteMemory.log == old(remoteMemory.log) + ThreeNodeRemoteLog(measured, first, second)
    {
      if node3 == destinationsN - 1 {
        var st := MeasureAndCorrectBoth(first, second);
        if st.Err? {
          return Err(st.error);
        }
      }
      var results := CollectThreeNodeResult(Label(destinationsN, node1), Label(destinationsN, node2),
                                            Label(destinationsN, node3), fid);
      r := Ok(results);
    }

    // -------------------------------------------------------------------------
    // Entry points
    // -------------------------------------------------------------------------

    /**
     * `entangle_nodes(node1, node2)`: AssertionError outside the allowed indices; otherwise the
     * entanglement round and then the two-node swap on what the simulation deposited.
     */
    method EntangleNodes(node1: int, node2: int, deposit: map<Slot, Qubit>, reading: BellReading, fid: Fidelity)
      returns (r: Result<Record>)
      requires Valid()
      modifies this`links, this`memory, repeaterMemory`log, remoteMemory`log
      ensures !EntangleNodesAllowed(destinationsN, node1, node2) ==>
                r == Err(AssertionError) && links == old(links) && memory == old(memory)
      ensures !EntangleNodesAllowed(destinationsN, node1, node2) ==>
                repeaterMemory.log == old(repeaterMemory.log) && remoteMemory.log == old(remoteMemory.log)
      ensures var N := destinationsN;
              var w := TwoNodeConnections(N, destinations, portPairs, old(links), node1, node2);
              var connected := ConnectAll(N, destinations, portPairs, old(links), [node1, node2]).status.Done?;
              EntangleNodesAllowed(N, node1, node2) && w.status.Raised? ==>
                && links == w.links && r == Err(w.status.error)
                && memory == (if connected then old(memory) + deposit else old(memory))
                && repeaterMemory.log == old(repeaterMemory.log) && remoteMemory.log == old(remoteMemory.log)
      ensures var N := destinationsN;
              var w := TwoNodeConnections(N, destinations, portPairs, old(links), node1, node2);
              var measured := node1 == N - 1 || node2 == N - 1;
              var failed := measured && TwoNodeState(reading).Err?;
              var deposited := old(memory) + deposit;
              EntangleNodesAllowed(N, node1, node2) && w.status.Done? ==>
                && links == w.links
                && (failed ==> r == Err(TwoNodeState(reading).error) && memory == deposited)
                && (!failed ==> r == Ok(TwoNodeOutcome(fid, deposited, Label(N, node1), Label(N, node2)))
                                && memory == AfterTwoNodeSwap(deposited, Label(N, node1), Label(N, node2)))
                && repeaterMemory.log == old(repeaterMemory.log) + TwoNodeRepeaterLog(measured)
                && remoteMemory.log == old(remoteMemory.log) + TwoNodeRemoteLog(measured, reading)
    {
      if !(1 <= node1 <= destinationsN - 1 && 1 <= node2 <= destinationsN - 1 && node1 != node2) {
        return Err(AssertionError);
      }
      var s := PerformEntanglement(node1, node2, deposit);
      if s.Raised? {
        return Err(s.error);
      }
      r := PerformEntanglementSwapping(node1, node2, reading, fid);
    }

    /**
     * `protocol_a(node1, node2, node3)`: AssertionError outside the allowed indices; otherwise
     * the three-node round and then the (corrected) three-node swap.
     */
    method ProtocolA(deposit: map<Slot, Qubit>, first: BellReading, second: BellReading, fid: Fidelity,
                     node1: int := 1, node2: int := 2, node3: int := 4)
      returns (r: Result<TrialResult>)
      requires Valid()
      modifies this`links, this`memory, repeaterMemory`log, remoteMemory`log
      ensures !ProtocolAAllowed(destinationsN, node1, node2, node3) ==>
                r == Err(AssertionError) && links == old(links) && memory == old(memory)
      ensures !ProtocolAAllowed(destinationsN, node1, node2, node3) ==>
                repeaterMemory.log == old(repeaterMemory.log) && remoteMemory.log == old(remoteMemory.log)
      ensures var N := destinationsN;
              var w := ThreeNodeConnections(N, destinations, portPairs, old(links), node1, node2, node3);
              var connected := ConnectAll(N, destinations, portPairs, old(links), [node1, node2, node3]).status.Done?;
              ProtocolAAllowed(N, node1, node2, node3) && w.status.Raised? ==>
                && links == w.links && r == Err(w.status.error)
                && memory == (if connected then old(memory) + deposit else old(memory))
                && repeaterMemory.log == old(repeaterMemory.log) && remoteMemory.log == old(remoteMemory.log)
      ensures var N := destinationsN;
              var w := ThreeNodeConnections(N, destinations, portPairs, old(links), node1, node2, node3);
              var measured := node3 == N - 1;
              var failed := measured && ThreeNodeStates(first, second).Err?;
              var deposited := old(memory) + deposit;
              var labels := (Label(N, node1), Label(N, node2), Label(N, node3));
              ProtocolAAllowed(N, node1, node2, node3) && w.status.Done? ==>
                && links == w.links
                && (failed ==> r == Err(ThreeNodeStates(first, second).error) && memory == deposited)
                && (!failed ==> r == Ok(ThreeNodeOutcome(fid, deposited, labels.0, labels.1, labels.2))
                                && memory == AfterThreeNodeSwap(deposited, labels.0, labels.1, labels.2))
                && repeaterMemory.log == old(repeaterMemory.log) + ThreeNodeRepeaterLog(measured, first)
                && remoteMemory.log == old(remoteMemory.log) + ThreeNodeRemoteLog(measured, first, second)
    {
      if !(1 <= node1 <= destinationsN - 1 && 1 <= node2 <= destinationsN - 1 && 1 <= node3 <= destinationsN - 1
           && node1 < node2 < node3 && node1 != node2 && node2 != node3) {
        return Err(AssertionError);
      }
      var s := PerformNewEntanglement(node1, node2, node3, deposit);
      if s.Raised? {
        return Err(s.error);
      }
      r := PerformNewEntanglementSwapping(node1, node2, node3, first, second, fid);
    }
  }
}
