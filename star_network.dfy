/**
 * Bookkeeping of the star network (src/network/StarNetwork.py).
 *
 * A central source node holds two entangled-pair sources, `QuantumSource` and
 * `QuantumSource1`, each with output ports `qout0` and `qout1`. Destinations 1..N-2 are plain
 * nodes with one memory position, destination N-1 is the repeater (four positions) and
 * destination N the remote node (two positions and two sources of its own).
 *
 * The simulator objects are abstract state:
 * - `links` maps a port to the port it forwards to (or is connected to);
 * - `memory` maps a (node, position) slot to the qubit it holds;
 * - the repeater's and the remote node's memories keep the log of executed instructions.
 *
 * The simulation run itself is an input: `deposit` is what the run leaves in the memories,
 * `reading` is what the repeater's Bell measurement returns and `fid` is the library's
 * fidelity computation.
 *
 * Node IDs follow creation order: the source has ID 0 and destination k has ID k. A port that
 * `add_connection` creates on one node is named `conn|<ID of the other node>|<label>`.
 */
module Star {
  import opened Common
  import opened Components
  import opened SwapResults
  import EntanglementSwapping
  import BellMeasurement
  import HelperPortPair

  type PortPair = HelperPortPair.PortPair

  // ---------------------------------------------------------------------------
  // Defaults (class attributes)
  // ---------------------------------------------------------------------------

  const DefaultDestinationsN: int := 5
  const DefaultSourceDelay: real := 100000.0
  const DefaultChannelsLength: real := 1.0
  const NodeMemPositions: nat := 1
  const RepeaterMemPositions: nat := 4
  const RemoteNodeMemPositions: nat := 2

  // ---------------------------------------------------------------------------
  // Destinations
  // ---------------------------------------------------------------------------

  /** A destination node: its name, its processor's name, the processor's memory size and its own sources. */
  datatype Destination = Destination(name: string, processor: string, memPositions: nat, sources: seq<string>)

  /** The k-th destination (1-based) of a network with N destinations. */
  function DestinationFor(N: int, k: int): (d: Destination)
    ensures k == N - 1 ==> d.name == "Repeater" && d.memPositions == RepeaterMemPositions && d.sources == []
    ensures k != N - 1 && k == N ==>
              d.name == "RemoteNode" && d.memPositions == RemoteNodeMemPositions
              && d.sources == ["RemoteQuantumSource", "RemoteQuantumSource1"]
    ensures k != N - 1 && k != N ==>
              d.name == "Node" + IntToString(k) && d.memPositions == NodeMemPositions && d.sources == []
    ensures d.processor == "QP_" + d.name
  {
    if k == N - 1 then Destination("Repeater", "QP_Repeater", RepeaterMemPositions, [])
    else if k == N then
      Destination("RemoteNode", "QP_RemoteNode", RemoteNodeMemPositions, ["RemoteQuantumSource", "RemoteQuantumSource1"])
    else Destination("Node" + IntToString(k), "QP_Node" + IntToString(k), NodeMemPositions, [])
  }

  /** Destinations 1..k, in order. */
  function DestinationsUpTo(N: int, k: nat): (r: seq<Destination>)
    ensures |r| == k
    ensures forall i :: 0 <= i < k ==> r[i] == DestinationFor(N, i + 1)
  {
    if k == 0 then [] else DestinationsUpTo(N, k - 1) + [DestinationFor(N, k)]
  }

  /** What `_init_destinations` appends for N destinations: `range(1, N + 1)`. */
  function Destinations(N: int): (r: seq<Destination>)
    ensures |r| == if N < 0 then 0 else N
    ensures forall i :: 0 <= i < |r| ==> r[i] == DestinationFor(N, i + 1)
  {
    DestinationsUpTo(N, if N < 0 then 0 else N)
  }

  // ---------------------------------------------------------------------------
  // Channels and port pairs
  // ---------------------------------------------------------------------------

  datatype Channel = Channel(name: string, length: real, models: Option<Models>)

  /** Name of the port `add_connection` creates towards the node with ID `peer`. */
  function ConnPort(peer: int, connLabel: string): string
  {
    "conn|" + IntToString(peer) + "|" + connLabel
  }

  /** The channels `_init_quantum_channels` creates for the destination at 0-based `index`. */
  function ChannelsFor(N: int, index: int, length: real, models: Option<Models>): (r: seq<Channel>)
    ensures |r| == if index == N - 2 || index == N - 1 then 2 else 1
    ensures forall i :: 0 <= i < |r| ==> r[i].length == length && r[i].models == models
  {
    if index == N - 2 then
      [Channel("QC_Source->Repeater", length, models), Channel("QC_Source1->Repeater", length, models)]
    else if index == N - 1 then
      [Channel("QC_RemoteNode->Repeater", length, models), Channel("QC_RemoteNode1->Repeater", length, models)]
    else
      [Channel("QC_Source->Node" + IntToString(index), length, models)]
  }

  /** The port pairs appended for the destination at 0-based `index`, one per channel, same order. */
  function PairsFor(N: int, index: int): (r: seq<PortPair>)
    ensures |r| == if index == N - 2 || index == N - 1 then 2 else 1
  {
    if index == N - 2 then
      [ HelperPortPair.PortPair(ConnPort(index + 1, "C_Source->Repeater"), ConnPort(0, "C_Source->Repeater"),
                                Some("C_Source->Repeater")),
        HelperPortPair.PortPair(ConnPort(index + 1, "C_Source1->Repeater"), ConnPort(0, "C_Source1->Repeater"),
                                Some("C_Source1->Repeater")) ]
    else if index == N - 1 then
      [ HelperPortPair.PortPair(ConnPort(N - 1, "C_RemoteNode->Repeater"), ConnPort(index + 1, "C_RemoteNode->Repeater"),
                                Some("C_RemoteNode->Repeater")),
        HelperPortPair.PortPair(ConnPort(N - 1, "C_RemoteNode1->Repeater"), ConnPort(index + 1, "C_RemoteNode1->Repeater"),
                                Some("C_RemoteNode1->Repeater")) ]
    else
      var name := "C_Source->Node" + IntToString(index + 1);
      [HelperPortPair.PortPair(ConnPort(index + 1, name), ConnPort(0, name), Some(name))]
  }

  /** Channels of destinations 0..k-1 (0-based), in order. */
  function ChannelsUpTo(N: int, k: nat, length: real, models: Option<Models>): seq<Channel>
  {
    if k == 0 then [] else ChannelsUpTo(N, k - 1, length, models) + ChannelsFor(N, k - 1, length, models)
  }

  /** Port pairs of destinations 0..k-1 (0-based), in order. */
  function PairsUpTo(N: int, k: nat): seq<PortPair>
  {
    if k == 0 then [] else PairsUpTo(N, k - 1) + PairsFor(N, k - 1)
  }

  /** Channels and port pairs run in parallel: one pair per channel. */
  lemma {:induction false} ChannelsMatchPairs(N: int, k: nat, length: real, models: Option<Models>)
    ensures |ChannelsUpTo(N, k, length, models)| == |PairsUpTo(N, k)|
  {
    if k > 0 {
      ChannelsMatchPairs(N, k - 1, length, models);
    }
  }

  /** Before the repeater, each destination has exactly one pair, the one labelled with its number. */
  lemma {:induction false} PairsBeforeRepeater(N: int, k: nat)
    requires k <= N - 2
    ensures |PairsUpTo(N, k)| == k
    ensures forall j :: 0 <= j < k ==> PairsUpTo(N, k)[j] == PairsFor(N, j)[0]
  {
    if k > 0 {
      PairsBeforeRepeater(N, k - 1);
    }
  }

  /** N destinations give N + 2 channels: one per plain node, two for the repeater, two for the remote node. */
  lemma {:induction false} ChannelCount(N: int, length: real, models: Option<Models>)
    requires N >= 2
    ensures |ChannelsUpTo(N, N, length, models)| == N + 2
    ensures |PairsUpTo(N, N)| == N + 2
  {
    PairsBeforeRepeater(N, N - 2);
    assert PairsUpTo(N, N) == PairsUpTo(N, N - 2) + PairsFor(N, N - 2) + PairsFor(N, N - 1);
    ChannelsMatchPairs(N, N, length, models);
  }

  // ---------------------------------------------------------------------------
  // The four source output ports
  // ---------------------------------------------------------------------------

  /** The order in which `_connect_source_to_destination` tries the source's output ports. */
  const SourceOutputs: seq<Port> := [Port("QuantumSource", "qout0"), Port("QuantumSource", "qout1"),
                                     Port("QuantumSource1", "qout0"), Port("QuantumSource1", "qout1")]

  const AllTakenMessage := "Two nodes have already been connected to the source's QuantumSource component"

  /** The first source output port that forwards nowhere. */
  function FirstFree(links: map<Port, Port>): (r: Option<nat>)
    ensures r.Some? ==> r.value < 4 && SourceOutputs[r.value] !in links
    ensures r.Some? ==> forall j :: 0 <= j < r.value ==> SourceOutputs[j] in links
    ensures r.None? <==> forall j :: 0 <= j < 4 ==> SourceOutputs[j] in links
  {
    if SourceOutputs[0] !in links then Some(0)
    else if SourceOutputs[1] !in links then Some(1)
    else if SourceOutputs[2] !in links then Some(2)
    else if SourceOutputs[3] !in links then Some(3)
    else None
  }

  /** No destination shares a name with one of the source's components. */
  predicate NamesApart(dests: seq<Destination>)
  {
    forall i :: 0 <= i < |dests| ==> dests[i].name != "QuantumSource" && dests[i].name != "QuantumSource1"
  }

  /** The destination-side port of destination n and the memory port it forwards to. */
  function DestinationPort(dests: seq<Destination>, pairs: seq<PortPair>, n: int): Port
    requires 1 <= n <= |dests| && n <= |pairs|
  {
    Port(dests[n - 1].name, pairs[n - 1].destination)
  }

  /**
   * `_connect_source_to_destination(n)` on the links: the first free source output forwards to
   * the source-side port of destination n's pair, and that pair's destination port forwards to
   * the destination memory's `qin0`.
   */
  function Connect(N: int, dests: seq<Destination>, pairs: seq<PortPair>, links: map<Port, Port>, n: int)
    : (r: Result<map<Port, Port>>)
    ensures r == Err(AssertionError) <==> !(1 <= n <= N - 1)
    ensures 1 <= n <= N - 1 && (n > |dests| || n > |pairs|) ==> r == Err(IndexError)
    ensures 1 <= n <= N - 1 && n <= |dests| && n <= |pairs| && FirstFree(links).None? ==>
              r == Err(RaisedException(AllTakenMessage))
    ensures r.Ok? ==> 1 <= n <= |dests| && n <= |pairs| && FirstFree(links).Some?
  {
    if !(1 <= n <= N - 1) then Err(AssertionError)
    else if n > |dests| || n > |pairs| then Err(IndexError)
    else match FirstFree(links)
      case None => Err(RaisedException(AllTakenMessage))
      case Some(k) =>
        var dp := DestinationPort(dests, pairs, n);
        Ok(links[SourceOutputs[k] := Port("Source", pairs[n - 1].source)][dp := Port(dests[n - 1].processor, "qin0")])
  }

  /**
   * A successful connection adds exactly two links: the first free source output to the pair's
   * source-side port, and the destination's pair port to its processor's `qin0`.
   */
  lemma ConnectWiring(N: int, dests: seq<Destination>, pairs: seq<PortPair>, links: map<Port, Port>, n: int)
    requires Connect(N, dests, pairs, links, n).Ok?
    ensures var r := Connect(N, dests, pairs, links, n).value;
            var k := FirstFree(links).value;
            var dp := DestinationPort(dests, pairs, n);
            && r.Keys == links.Keys + {SourceOutputs[k], dp}
            && (NamesApart(dests) ==> r[SourceOutputs[k]] == Port("Source", pairs[n - 1].source))
            && r[dp] == Port(dests[n - 1].processor, "qin0")
            && forall p :: p in links && p != SourceOutputs[k] && p != dp ==> r[p] == links[p]
  {
  }

  /** The two names `_disconnect_source_from_destination(n)` accepts for node n's source-side port. */
  function ConnNames(n: int): set<string>
  {
    {ConnPort(n, "C_Source->Node" + IntToString(n)), ConnPort(n, "C_Source->Repeater")}
  }

  /** Port `p` forwards to a port named after node n. */
  predicate ForwardsTo(links: map<Port, Port>, p: Port, n: int)
  {
    p in links && links[p].name in ConnNames(n)
  }

  /**
   * `_disconnect_source_from_destination(n)` on the links: only `QuantumSource.qout0`, then
   * `QuantumSource.qout1`, are inspected; the first that forwards to node n stops forwarding.
   */
  function Disconnect(N: int, links: map<Port, Port>, n: int): (r: Result<map<Port, Port>>)
    ensures r == Err(AssertionError) <==> !(1 <= n <= N - 1)
    ensures r.Ok? ==> exists j :: 0 <= j < 2 && ForwardsTo(links, SourceOutputs[j], n) && r.value == links - {SourceOutputs[j]}
    ensures 1 <= n <= N - 1 && r.Err? ==>
              !ForwardsTo(links, SourceOutputs[0], n) && !ForwardsTo(links, SourceOutputs[1], n)
              && r.error == RaisedException("The source node is not connected to Node " + IntToString(n))
  {
    if !(1 <= n <= N - 1) then Err(AssertionError)
    else if ForwardsTo(links, SourceOutputs[0], n) then Ok(links - {SourceOutputs[0]})
    else if ForwardsTo(links, SourceOutputs[1], n) then Ok(links - {SourceOutputs[1]})
    else Err(RaisedException("The source node is not connected to Node " + IntToString(n)))
  }

  /** The source outputs that forward somewhere, as flags in `SourceOutputs` order. */
  function TakenOutputs(links: map<Port, Port>): seq<bool>
  {
    [SourceOutputs[0] in links, SourceOutputs[1] in links, SourceOutputs[2] in links, SourceOutputs[3] in links]
  }

  /**
   * A connection made on `QuantumSource` is released by disconnecting the same node, as long as
   * no earlier `QuantumSource` port already forwards to that node.
   */
  lemma ConnectThenDisconnect(N: int, dests: seq<Destination>, pairs: seq<PortPair>, links: map<Port, Port>, n: int)
    requires NamesApart(dests)
    requires Connect(N, dests, pairs, links, n).Ok? && FirstFree(links).value < 2
    requires pairs[n - 1].source in ConnNames(n)
    requires !ForwardsTo(links, SourceOutputs[0], n)
    ensures Disconnect(N, Connect(N, dests, pairs, links, n).value, n).Ok?
    ensures TakenOutputs(Disconnect(N, Connect(N, dests, pairs, links, n).value, n).value) == TakenOutputs(links)
  {
    var k := FirstFree(links).value;
    var l2 := Connect(N, dests, pairs, links, n).value;
    var dp := DestinationPort(dests, pairs, n);
    assert dp != SourceOutputs[0] && dp != SourceOutputs[1] && dp != SourceOutputs[2] && dp != SourceOutputs[3];
    assert ForwardsTo(l2, SourceOutputs[k], n);
    if k == 1 {
      assert l2[SourceOutputs[0]] == links[SourceOutputs[0]];
    }
  }

  /**
   * A connection made on `QuantumSource1` is never released: disconnecting the node either
   * fails or frees a `QuantumSource` port.
   */
  lemma ConnectionOnSecondSourceLeaks(N: int, dests: seq<Destination>, pairs: seq<PortPair>, links: map<Port, Port>, n: int, m: int)
    requires Connect(N, dests, pairs, links, n).Ok? && FirstFree(links).value >= 2
    ensures var l2 := Connect(N, dests, pairs, links, n).value;
            var k := FirstFree(links).value;
            Disconnect(N, l2, m).Ok? ==> SourceOutputs[k] in Disconnect(N, l2, m).value
  {
  }

  /** The links after a sequence of connect or disconnect calls, and how the sequence ended. */
  datatype Wired = Wired(links: map<Port, Port>, status: Status)

  /** Connect each node in turn, stopping at the first exception (earlier connections stay). */
  function ConnectAll(N: int, dests: seq<Destination>, pairs: seq<PortPair>, links: map<Port, Port>, ns: seq<int>)
    : (r: Wired)
    ensures |ns| == 0 ==> r == Wired(links, Done)
    ensures |ns| > 0 && Connect(N, dests, pairs, links, ns[0]).Err? ==>
              r == Wired(links, Raised(Connect(N, dests, pairs, links, ns[0]).error))
    decreases |ns|
  {
    if |ns| == 0 then Wired(links, Done)
    else match Connect(N, dests, pairs, links, ns[0])
      case Err(e) => Wired(links, Raised(e))
      case Ok(next) => ConnectAll(N, dests, pairs, next, ns[1..])
  }

  /** Disconnect each node in turn, stopping at the first exception. */
  function DisconnectAll(N: int, links: map<Port, Port>, ns: seq<int>): (r: Wired)
    ensures |ns| == 0 ==> r == Wired(links, Done)
    ensures |ns| > 0 && Disconnect(N, links, ns[0]).Err? ==> r == Wired(links, Raised(Disconnect(N, links, ns[0]).error))
    decreases |ns|
  {
    if |ns| == 0 then Wired(links, Done)
    else match Disconnect(N, links, ns[0])
      case Err(e) => Wired(links, Raised(e))
      case Ok(next) => DisconnectAll(N, next, ns[1..])
  }

  /** One step of `ConnectAll` after a successful connection. */
  lemma ConnectAllStep(N: int, dests: seq<Destination>, pairs: seq<PortPair>, links: map<Port, Port>, ns: seq<int>)
    requires |ns| > 0 && Connect(N, dests, pairs, links, ns[0]).Ok?
    ensures ConnectAll(N, dests, pairs, links, ns)
            == ConnectAll(N, dests, pairs, Connect(N, dests, pairs, links, ns[0]).value, ns[1..])
  {
  }

  /** One step of `DisconnectAll` after a successful disconnection. */
  lemma DisconnectAllStep(N: int, links: map<Port, Port>, ns: seq<int>)
    requires |ns| > 0 && Disconnect(N, links, ns[0]).Ok?
    ensures DisconnectAll(N, links, ns) == DisconnectAll(N, Disconnect(N, links, ns[0]).value, ns[1..])
  {
  }

  /** The port effect of `_perform_entanglement(a, b)`: connect a and b, run, disconnect a and b. */
  function TwoNodeConnections(N: int, dests: seq<Destination>, pairs: seq<PortPair>, links: map<Port, Port>,
                              a: int, b: int): Wired
  {
    var w := ConnectAll(N, dests, pairs, links, [a, b]);
    if w.status.Raised? then w else DisconnectAll(N, w.links, [a, b])
  }

  /**
   * The port effect of `_perform_new_entanglement(a, b, c)`: connect a, b and c, run, then
   * disconnect a and b only (c is never disconnected).
   */
  function ThreeNodeConnections(N: int, dests: seq<Destination>, pairs: seq<PortPair>, links: map<Port, Port>,
                                a: int, b: int, c: int): Wired
  {
    var w := ConnectAll(N, dests, pairs, links, [a, b, c]);
    if w.status.Raised? then w else DisconnectAll(N, w.links, [a, b])
  }

  /** The indices and pairs the three-node connection needs: each of a, b names its own pair. */
  predicate ThreeNodeReady(N: int, dests: seq<Destination>, pairs: seq<PortPair>, a: int, b: int, c: int)
  {
    && NamesApart(dests)
    && 1 <= a <= N - 1 && 1 <= b <= N - 1 && 1 <= c <= N - 1
    && a <= |dests| && b <= |dests| && c <= |dests| && a <= |pairs| && b <= |pairs| && c <= |pairs|
    && pairs[a - 1].source in ConnNames(a) && pairs[b - 1].source in ConnNames(b)
  }

  /** Connecting changes exactly one source output: the first free one now forwards to node n's pair. */
  lemma ConnectEffect(N: int, dests: seq<Destination>, pairs: seq<PortPair>, links: map<Port, Port>, n: int)
    requires NamesApart(dests) && Connect(N, dests, pairs, links, n).Ok?
    ensures var r := Connect(N, dests, pairs, links, n).value;
            var k := FirstFree(links).value;
            && TakenOutputs(r) == TakenOutputs(links)[k := true]
            && r[SourceOutputs[k]] == Port("Source", pairs[n - 1].source)
            && forall j :: 0 <= j < 4 && j != k && SourceOutputs[j] in links ==> r[SourceOutputs[j]] == links[SourceOutputs[j]]
  {
    var dp := DestinationPort(dests, pairs, n);
    assert dp != SourceOutputs[0] && dp != SourceOutputs[1] && dp != SourceOutputs[2] && dp != SourceOutputs[3];
  }

  /** Disconnecting frees one `QuantumSource` output and leaves the other outputs as they were. */
  lemma DisconnectEffect(N: int, links: map<Port, Port>, n: int)
    requires Disconnect(N, links, n).Ok?
    ensures var r := Disconnect(N, links, n).value;
            var j := if ForwardsTo(links, SourceOutputs[0], n) then 0 else 1;
            && TakenOutputs(r) == TakenOutputs(links)[j := false]
            && forall i :: 0 <= i < 4 && i != j && SourceOutputs[i] in links ==> r[SourceOutputs[i]] == links[SourceOutputs[i]]
  {
  }

  /** One three-node round, from a state where both `QuantumSource` outputs are free. */
  lemma ThreeNodeRound(N: int, dests: seq<Destination>, pairs: seq<PortPair>, links: map<Port, Port>,
                       a: int, b: int, c: int)
    requires ThreeNodeReady(N, dests, pairs, a, b, c)
    requires SourceOutputs[0] !in links && SourceOutputs[1] !in links
    ensures SourceOutputs[2] in links && SourceOutputs[3] in links ==>
              ThreeNodeConnections(N, dests, pairs, links, a, b, c).status == Raised(RaisedException(AllTakenMessage))
    ensures !(SourceOutputs[2] in links && SourceOutputs[3] in links) ==>
              && ThreeNodeConnections(N, dests, pairs, links, a, b, c).status == Done
              && TakenOutputs(ThreeNodeConnections(N, dests, pairs, links, a, b, c).links)
                 == [false, false, true, SourceOutputs[2] in links || SourceOutputs[3] in links]
  {
    var t := TakenOutputs(links);
    assert FirstFree(links) == Some(0);
    ConnectEffect(N, dests, pairs, links, a);
    var l1 := Connect(N, dests, pairs, links, a).value;
    assert FirstFree(l1) == Some(1);
    ConnectEffect(N, dests, pairs, l1, b);
    var l2 := Connect(N, dests, pairs, l1, b).value;
    assert TakenOutputs(l2) == [true, true, t[2], t[3]];
    assert [a, b, c][1..] == [b, c] && [b, c][1..] == [c] && [c][1..] == [];
    if !(t[2] && t[3]) {
      ConnectEffect(N, dests, pairs, l2, c);
      var l3 := Connect(N, dests, pairs, l2, c).value;
      assert ConnectAll(N, dests, pairs, l2, [c]) == Wired(l3, Done);
      assert ConnectAll(N, dests, pairs, l1, [b, c]) == Wired(l3, Done);
      assert ConnectAll(N, dests, pairs, links, [a, b, c]) == Wired(l3, Done);
      assert TakenOutputs(l3) == [true, true, true, t[2] || t[3]];
      assert ForwardsTo(l3, SourceOutputs[0], a);
      DisconnectEffect(N, l3, a);
      var l4 := Disconnect(N, l3, a).value;
      assert TakenOutputs(l4) == [false, true, true, t[2] || t[3]];
      assert ForwardsTo(l4, SourceOutputs[1], b);
      DisconnectEffect(N, l4, b);
      assert [a, b][1..] == [b] && [b][1..] == [];
      var l5 := Disconnect(N, l4, b).value;
      assert DisconnectAll(N, l4, [b]) == Wired(l5, Done);
      assert DisconnectAll(N, l3, [a, b]) == Wired(l5, Done);
    } else {
      assert FirstFree(l2).None?;
      assert ConnectAll(N, dests, pairs, links, [a, b, c]) == Wired(l2, Raised(RaisedException(AllTakenMessage)));
    }
  }

  /**
   * Starting with every source output free, the three-node connection succeeds twice and the
   * third attempt raises because all four source outputs are taken.
   */
  lemma ThreeNodeConnectionsRunTwice(N: int, dests: seq<Destination>, pairs: seq<PortPair>, links: map<Port, Port>,
                                     a: int, b: int, c: int)
    requires ThreeNodeReady(N, dests, pairs, a, b, c)
    requires TakenOutputs(links) == [false, false, false, false]
    ensures ThreeNodeConnections(N, dests, pairs, links, a, b, c).status == Done
    ensures var once := ThreeNodeConnections(N, dests, pairs, links, a, b, c).links;
            && ThreeNodeConnections(N, dests, pairs, once, a, b, c).status == Done
            && var twice := ThreeNodeConnections(N, dests, pairs, once, a, b, c).links;
            && TakenOutputs(twice) == [false, false, true, true]
            && ThreeNodeConnections(N, dests, pairs, twice, a, b, c).status == Raised(RaisedException(AllTakenMessage))
  {
    ThreeNodeRound(N, dests, pairs, links, a, b, c);
    var once := ThreeNodeConnections(N, dests, pairs, links, a, b, c).links;
    ThreeNodeRound(N, dests, pairs, once, a, b, c);
    var twice := ThreeNodeConnections(N, dests, pairs, once, a, b, c).links;
    ThreeNodeRound(N, dests, pairs, twice, a, b, c);
  }

  /**
   * A two-node round from free `QuantumSource` outputs connects a on `qout0` and b on `qout1`
   * and releases both: it succeeds and leaves every source output as it found it, so it can be
   * repeated without end.
   */
  lemma TwoNodeRoundRestoresOutputs(N: int, dests: seq<Destination>, pairs: seq<PortPair>, links: map<Port, Port>,
                                    a: int, b: int)
    requires ThreeNodeReady(N, dests, pairs, a, b, b)
    requires SourceOutputs[0] !in links && SourceOutputs[1] !in links
    ensures TwoNodeConnections(N, dests, pairs, links, a, b).status == Done
    ensures TakenOutputs(TwoNodeConnections(N, dests, pairs, links, a, b).links) == TakenOutputs(links)
  {
    assert FirstFree(links) == Some(0);
    ConnectEffect(N, dests, pairs, links, a);
    var l1 := Connect(N, dests, pairs, links, a).value;
    assert FirstFree(l1) == Some(1);
    ConnectEffect(N, dests, pairs, l1, b);
    var l2 := Connect(N, dests, pairs, l1, b).value;
    assert [a, b][1..] == [b] && [b][1..] == [];
    assert ConnectAll(N, dests, pairs, l1, [b]) == Wired(l2, Done);
    assert ConnectAll(N, dests, pairs, links, [a, b]) == Wired(l2, Done);
    assert ForwardsTo(l2, SourceOutputs[0], a);
    DisconnectEffect(N, l2, a);
    var l3 := Disconnect(N, l2, a).value;
    assert ForwardsTo(l3, SourceOutputs[1], b);
    DisconnectEffect(N, l3, b);
    var l4 := Disconnect(N, l3, b).value;
    assert DisconnectAll(N, l3, [b]) == Wired(l4, Done);
    assert DisconnectAll(N, l2, [a, b]) == Wired(l4, Done);
  }

  // ---------------------------------------------------------------------------
  // The pairs built by `_init_quantum_channels` and the remote node's wiring
  // ---------------------------------------------------------------------------

  /**
   * For every destination 1..N-1, the source-side port of its pair is one of the two names
   * `_disconnect_source_from_destination` looks for: what connects can be disconnected.
   */
  lemma PairSourceIsDisconnectable(N: int, n: int)
    requires N >= 2 && 1 <= n <= N - 1
    ensures n <= |PairsUpTo(N, N)| && PairsUpTo(N, N)[n - 1].source in ConnNames(n)
  {
    ChannelCount(N, 0.0, None);
    PairsBeforeRepeater(N, N - 2);
    assert PairsUpTo(N, N) == PairsUpTo(N, N - 2) + PairsFor(N, N - 2) + PairsFor(N, N - 1);
    if n <= N - 2 {
      assert PairsUpTo(N, N)[n - 1] == PairsFor(N, n - 1)[0];
    } else {
      assert PairsUpTo(N, N)[n - 1] == PairsFor(N, N - 2)[0];
    }
  }

  /** Set up forwarding entries in order: an entry for a port that already forwards replaces it. */
  function Wire(links: map<Port, Port>, entries: seq<(Port, Port)>): (r: map<Port, Port>)
    decreases |entries|
  {
    if |entries| == 0 then links else Wire(links[entries[0].0 := entries[0].1], entries[1..])
  }

  /** Wiring adds exactly the entries' ports to those already forwarding. */
  lemma {:induction false} WireKeys(links: map<Port, Port>, entries: seq<(Port, Port)>)
    ensures Wire(links, entries).Keys == links.Keys + set i | 0 <= i < |entries| :: entries[i].0
    decreases |entries|
  {
    if |entries| > 0 {
      WireKeys(links[entries[0].0 := entries[0].1], entries[1..]);
      var tail := set i | 0 <= i < |entries| - 1 :: entries[1..][i].0;
      var all := set i | 0 <= i < |entries| :: entries[i].0;
      assert all == {entries[0].0} + tail by {
        forall p | p in all ensures p in {entries[0].0} + tail {
          var i :| 0 <= i < |entries| && entries[i].0 == p;
          if i > 0 {
            assert entries[1..][i - 1].0 == p;
          }
        }
      }
    }
  }

  /** Python's `s[-2], s[-1]`. */
  function LastTwo<T>(s: seq<T>): (r: (T, T))
    requires |s| >= 2
  {
    if |s| == 2 then (s[0], s[1]) else LastTwo(s[1..])
  }

  lemma {:induction false} LastTwoIndexes<T>(s: seq<T>)
    requires |s| >= 2
    ensures LastTwo(s) == (s[|s| - 2], s[|s| - 1])
  {
    if |s| > 2 {
      LastTwoIndexes(s[1..]);
    }
  }

  /**
   * The six forwardings `_connect_remote_node` sets up, in its order: each remote source forwards
   * `qout0` to the remote node's side of its channel and feeds `qout1` into the remote memory
   * (`qin0`, `qin1`); the repeater's sides of the two channels feed repeater positions 1 and 3.
   */
  function RemoteEntries(dests: seq<Destination>, pairs: seq<PortPair>): (r: seq<(Port, Port)>)
    requires |dests| >= 2 && |pairs| >= 2
  {
    var (repeater, remote) := LastTwo(dests);
    var (pair, pair1) := LastTwo(pairs);
    [ (Port("RemoteQuantumSource", "qout0"), Port(remote.name, pair.source)),
      (Port("RemoteQuantumSource", "qout1"), Port(remote.processor, "qin0")),
      (Port(repeater.name, pair.destination), Port(repeater.processor, "qin1")),
      (Port("RemoteQuantumSource1", "qout0"), Port(remote.name, pair1.source)),
      (Port("RemoteQuantumSource1", "qout1"), Port(remote.processor, "qin1")),
      (Port(repeater.name, pair1.destination), Port(repeater.processor, "qin3")) ]
  }

  /** The remote node's wiring takes none of the central source's four outputs. */
  lemma RemoteWiringLeavesSourceFree(links: map<Port, Port>, dests: seq<Destination>, pairs: seq<PortPair>)
    requires |dests| >= 2 && |pairs| >= 2 && NamesApart(dests)
    ensures TakenOutputs(Wire(links, RemoteEntries(dests, pairs))) == TakenOutputs(links)
  {
    var e := RemoteEntries(dests, pairs);
    LastTwoIndexes(dests);
    WireKeys(links, e);
    assert dests[|dests| - 2].name != "QuantumSource" && dests[|dests| - 2].name != "QuantumSource1";
    forall k | 0 <= k < 4
      ensures SourceOutputs[k] !in set i | 0 <= i < |e| :: e[i].0
    {
      forall i | 0 <= i < |e| ensures e[i].0 != SourceOutputs[k] {
      }
    }
  }

  /** The N destinations are named apart from the source's components. */
  lemma DestinationsNamedApart(N: int)
    ensures NamesApart(Destinations(N))
  {
    forall i | 0 <= i < |Destinations(N)|
      ensures Destinations(N)[i].name != "QuantumSource" && Destinations(N)[i].name != "QuantumSource1"
    {
      var d := Destinations(N)[i];
      assert d == DestinationFor(N, i + 1);
      if d.name != "Repeater" && d.name != "RemoteNode" {
        assert d.name[0] == 'N';
      }
    }
  }
}
