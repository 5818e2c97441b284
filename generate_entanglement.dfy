/**
 * The node protocol that shares entanglement between the star's nodes
 * (src/protocols/GenerateEntanglement.py): what its constructor claims, the QSource lookup of
 * `is_connected`, and the order of the steps of `run`.
 *
 * The input-port list `_qmem_input_ports` is a class attribute that every constructor appends to,
 * so one list is shared by all protocols: it is the object `SharedInputPorts`, and each protocol
 * holds a reference to the same one.
 */
module GenerateEntanglementProtocol {
  import opened Common
  import opened Components

  /** The class-level `_qmem_input_ports` list, shared by every protocol. */
  class SharedInputPorts {
    var ports: seq<Port>

    constructor ()
      ensures ports == []
    {
      ports := [];
    }
  }

  class GenerateEntanglement {
    const node: Node
    const name: string
    const isSource: bool
    const isRepeater: bool
    const isRemote: bool
    const inputPorts: SharedInputPorts
    var qsourceName: Option<string>

    /**
     * A protocol that is not a source appends its memory's `qin0` to the shared list and marks
     * position 0 in use; a repeater also appends `qin1` and marks position 1. A source claims
     * nothing. The node must have a memory with the positions claimed.
     */
    constructor (onNode: Node, name: string, isSource: bool, isRepeater: bool, isRemote: bool,
                 inputPorts: SharedInputPorts)
      requires !isSource ==> onNode.qmemory != null && onNode.qmemory.Valid() && onNode.qmemory.numPositions >= 1
      requires isRepeater ==> onNode.qmemory != null && onNode.qmemory.Valid() && onNode.qmemory.numPositions >= 2
      modifies inputPorts, onNode.qmemory
      ensures this.node == onNode && this.name == name && this.inputPorts == inputPorts
      ensures this.isSource == isSource && this.isRepeater == isRepeater && this.isRemote == isRemote
      ensures qsourceName == None
      ensures inputPorts.ports == old(inputPorts.ports)
                                 + (if !isSource then [onNode.qmemory.InputPort(0)] else [])
                                 + (if isRepeater then [onNode.qmemory.InputPort(1)] else [])
      ensures onNode.qmemory != null ==>
                && |onNode.qmemory.inUse| == |old(onNode.qmemory.inUse)|
                && onNode.qmemory.log == old(onNode.qmemory.log)
                && forall i :: 0 <= i < |onNode.qmemory.inUse| ==>
                     onNode.qmemory.inUse[i] == (old(onNode.qmemory.inUse[i]) || (i == 0 && !isSource) || (i == 1 && isRepeater))
    {
      this.node := onNode;
      this.name := name;
      this.isSource := isSource;
      this.isRepeater := isRepeater;
      this.isRemote := isRemote;
      this.inputPorts := inputPorts;
      qsourceName := None;
      new;
      if !isSource {
        inputPorts.ports := inputPorts.ports + [onNode.qmemory.InputPort(0)];
        onNode.qmemory.SetInUse(0, true);
      }
      if isRepeater {
        inputPorts.ports := inputPorts.ports + [onNode.qmemory.InputPort(1)];
        onNode.qmemory.SetInUse(1, true);
      }
    }

    /**
     * `is_connected`: always for a plain receiver or a repeater; a source or a remote node is
     * connected exactly when its node has a QSource subcomponent, whose first name it records.
     */
    method IsConnected() returns (connected: bool)
      modifies this`qsourceName
      ensures !(isSource || isRemote) ==> connected
      ensures (isSource || isRemote) ==> (connected <==> exists j :: 0 <= j < |node.subcomponents| && node.subcomponents[j].isQSource)
      ensures (isSource || isRemote) && connected ==>
                exists j :: 0 <= j < |node.subcomponents| && node.subcomponents[j].isQSource
                            && qsourceName == Some(node.subcomponents[j].name)
                            && forall i :: 0 <= i < j ==> !node.subcomponents[i].isQSource
      ensures !((isSource || isRemote) && connected) ==> qsourceName == old(qsourceName)
    {
      if isSource || isRemote {
        var found := FindQSource(node.subcomponents);
        if found.None? {
          return false;
        }
        qsourceName := found;
      }
      return true;
    }

    /**
     * `run`: a source or remote node first triggers its QSource (KeyError when `is_connected` has
     * not recorded one); a protocol that is not a source then waits for input on the shared list's
     * first port and signals SUCCESS with 0; only a remote node then waits on the list's second
     * port and signals SUCCESS with 1. Every protocol waits on the shared list's entries, not on
     * its own memory's ports; an entry missing from the list raises IndexError.
     */
    method Run() returns (steps: seq<Step>, status: Status)
      ensures (isSource || isRemote) && qsourceName.None? ==> steps == [] && status == Raised(KeyError("None"))
      // a source only triggers
      ensures isSource && !isRemote && qsourceName.Some? ==> steps == [Trigger(qsourceName.value)] && status == Done
      // a receiver or a repeater waits on the first port only
      ensures !isSource && !isRemote ==>
                if |inputPorts.ports| < 1 then steps == [] && status == Raised(IndexError)
                else steps == [AwaitInput(inputPorts.ports[0]), SignalSuccess(0)] && status == Done
      // a remote node triggers, then waits on the first port and on the second
      ensures !isSource && isRemote && qsourceName.Some? ==>
                if |inputPorts.ports| < 1 then steps == [Trigger(qsourceName.value)] && status == Raised(IndexError)
                else if |inputPorts.ports| < 2 then
                  steps == [Trigger(qsourceName.value), AwaitInput(inputPorts.ports[0]), SignalSuccess(0)]
                  && status == Raised(IndexError)
                else steps == [Trigger(qsourceName.value), AwaitInput(inputPorts.ports[0]), SignalSuccess(0),
                               AwaitInput(inputPorts.ports[1]), SignalSuccess(1)] && status == Done
      // a source that is also remote triggers and waits on the second port only
      ensures isSource && isRemote && qsourceName.Some? ==>
                if |inputPorts.ports| < 2 then steps == [Trigger(qsourceName.value)] && status == Raised(IndexError)
                else steps == [Trigger(qsourceName.value), AwaitInput(inputPorts.ports[1]), SignalSuccess(1)]
                     && status == Done
    {
      steps := [];
      if isSource || isRemote {
        if qsourceName.None? {
          return [], Raised(KeyError("None"));
        }
        steps := [Trigger(qsourceName.value)];
      }
      if !isSource {
        if |inputPorts.ports| < 1 {
          return steps, Raised(IndexError);
        }
        steps := steps + [AwaitInput(inputPorts.ports[0]), SignalSuccess(0)];
      }
      if isRemote {
        if |inputPorts.ports| < 2 {
          return steps, Raised(IndexError);
        }
        steps := steps + [AwaitInput(inputPorts.ports[1]), SignalSuccess(1)];
      }
      status := Done;
    }
  }

  /**
   * Two receivers on nodes with different memories: because the port list is shared, the second
   * protocol's `run` waits on the first node's `qin0`, not on its own.
   */
  method SecondReceiverWaitsOnFirstPort() returns (awaited: Port, own: Port)
    ensures awaited != own
    ensures awaited == Port("MemoryA", "qin0") && own == Port("MemoryB", "qin0")
  {
    var shared := new SharedInputPorts();
    var memA := new QuantumMemory("MemoryA", 1);
    var memB := new QuantumMemory("MemoryB", 1);
    var nodeA := new Node("NodeA", [], memA);
    var nodeB := new Node("NodeB", [], memB);
    var first := new GenerateEntanglement(nodeA, "ProtocolA", false, false, false, shared);
    var second := new GenerateEntanglement(nodeB, "ProtocolB", false, false, false, shared);
    var steps, status := second.Run();
    assert NatToString(0) == "0";
    assert shared.ports == [memA.InputPort(0), memB.InputPort(0)];
    assert steps[0].AwaitInput?;
    awaited := steps[0].port;
    own := memB.InputPort(0);
  }
}
