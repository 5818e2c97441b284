/**
 * Abstract state of the simulation library's components, as far as the
 * repository's own code reads or changes it: a quantum memory is a row of
 * `in_use` flags plus the log of the instructions issued on it; a node is its
 * ordered subcomponents and an optional memory. What an instruction does to
 * qubit states is not modelled.
 */
module Components {
  import opened Common

  /**
   * The library's Bell index: outcome 0..3 of a Bell measurement names the Bell state
   * B00, B01, B11, B10 (in that order), and B00's ket `|00> + |11>` is the reference state `b00`.
   */
  datatype BellIndex = B00 | B01 | B11 | B10
  {
    function Index(): (i: nat)
      ensures i <= 3
    {
      match this
      case B00 => 0
      case B01 => 1
      case B11 => 2
      case B10 => 3
    }

    /** First digit of the ket label `|ab>`. */
    predicate ZBit() { this == B10 || this == B11 }

    /** Second digit of the ket label `|ab>`. */
    predicate XBit() { this == B01 || this == B11 }
  }

  /** `BellIndex(i)`: None where the enumeration raises ValueError. */
  function BellIndexOf(i: int): (r: Option<BellIndex>)
    ensures r.Some? <==> 0 <= i <= 3
    ensures r.Some? ==> r.value.Index() == i
  {
    if i == 0 then Some(B00) else if i == 1 then Some(B01) else if i == 2 then Some(B11)
    else if i == 3 then Some(B10) else None
  }

  /** The instructions the repository issues. */
  datatype Operation = OpX | OpZ | OpMeasureBell | OpSwap

  /** Where an instruction is issued: without positions (library default) or at explicit positions. */
  datatype Target = DefaultPositions | At(positions: seq<int>)

  datatype Instruction = Instruction(op: Operation, target: Target, outputKey: Option<string>)

  /** Operations issued at exactly `[p]`, in issue order. */
  function GatesAt(log: seq<Instruction>, p: int): (r: seq<Operation>)
    ensures |r| <= |log|
  {
    if |log| == 0 then []
    else GatesAt(log[..|log| - 1], p) + (if log[|log| - 1].target == At([p]) then [log[|log| - 1].op] else [])
  }

  lemma {:induction false} GatesAtAppend(a: seq<Instruction>, b: seq<Instruction>, p: int)
    ensures GatesAt(a + b, p) == GatesAt(a, p) + GatesAt(b, p)
    decreases |b|
  {
    if |b| > 0 {
      assert (a + b)[..|a + b| - 1] == a + b[..|b| - 1];
      GatesAtAppend(a, b[..|b| - 1], p);
    } else {
      assert a + b == a;
    }
  }

  /** A quantum memory: `mem_positions[i].in_use` flags and the instructions executed on it. */
  class QuantumMemory {
    const name: string
    const numPositions: nat
    var inUse: seq<bool>
    var log: seq<Instruction>

    ghost predicate Valid()
      reads this
    {
      |inUse| == numPositions
    }

    constructor (name: string, numPositions: nat)
      ensures Valid()
      ensures this.name == name && this.numPositions == numPositions
      ensures inUse == Repeat(false, numPositions) && log == []
    {
      this.name := name;
      this.numPositions := numPositions;
      inUse := Repeat(false, numPositions);
      log := [];
    }

    /** `execute_instruction`, as far as the log records it. */
    method Execute(instr: Instruction)
      modifies this`log
      ensures log == old(log) + [instr]
    {
      log := log + [instr];
    }

    /** `mem_positions[i].in_use = flag`. */
    method SetInUse(i: nat, flag: bool)
      requires Valid() && i < numPositions
      modifies this`inUse
      ensures Valid()
      ensures inUse == old(inUse)[i := flag]
    {
      inUse := inUse[i := flag];
    }

    /** `mem_positions[i].in_use = flag` for each `i` of `positions`, in order. */
    method SetAllInUse(positions: seq<nat>, flag: bool)
      requires Valid() && forall k :: 0 <= k < |positions| ==> positions[k] < numPositions
      modifies this`inUse
      ensures Valid()
      ensures forall i :: 0 <= i < |inUse| ==> inUse[i] == (if i in positions then flag else old(inUse[i]))
    {
      var k := 0;
      while k < |positions|
        invariant 0 <= k <= |positions| && Valid()
        invariant forall i :: 0 <= i < |inUse| ==> inUse[i] == (if i in positions[..k] then flag else old(inUse[i]))
      {
        assert positions[..k + 1] == positions[..k] + [positions[k]];
        SetInUse(positions[k], flag);
        k := k + 1;
      }
      assert positions[..k] == positions;
    }

    /** `unused_positions`: the positions not in use, ascending. */
    function UnusedPositions(): (r: seq<nat>)
      reads this
      ensures |r| <= |inUse|
      ensures forall k :: 0 <= k < |r| ==> r[k] < |inUse| && !inUse[r[k]]
      ensures forall i :: 0 <= i < |inUse| && !inUse[i] ==> i in r
    {
      Unused(inUse, 0)
    }

    /** The memory's input port `qin{k}`. */
    function InputPort(k: nat): Port
      reads this
    {
      Port(name, "qin" + NatToString(k))
    }
  }

  /** Positions `from..` of `flags` that are false, ascending. */
  function Unused(flags: seq<bool>, from: nat): (r: seq<nat>)
    ensures |r| <= |flags| - from || from > |flags|
    ensures forall k :: 0 <= k < |r| ==> from <= r[k] < |flags| && !flags[r[k]]
    ensures forall i :: from <= i < |flags| && !flags[i] ==> i in r
    ensures forall j, k :: 0 <= j < k < |r| ==> r[j] < r[k]
    decreases |flags| - from
  {
    if from >= |flags| then []
    else if !flags[from] then [from] + Unused(flags, from + 1)
    else Unused(flags, from + 1)
  }

  /** A port, named by the component that owns it. */
  datatype Port = Port(owner: string, name: string)

  /**
   * One action of a node protocol, in the order it happens: triggering a source subcomponent,
   * waiting for the start expression or for input on a port, a swap issued on the memory, waiting
   * for the memory's program while the memory is busy, and sending the SUCCESS signal with a
   * result. How long a wait lasts is not modelled.
   */
  datatype Step = Trigger(source: string) | AwaitStart | AwaitInput(port: Port) | Swap(positions: seq<int>)
                | AwaitProgram | SignalSuccess(result: int)

  /** A dictionary of channel models; only its keys are modelled. */
  datatype Models = Models(keys: seq<string>)

  datatype Subcomponent = Subcomponent(name: string, isQSource: bool)

  /** A network node: its subcomponents in insertion order and its memory, if any. */
  class Node {
    const name: string
    const subcomponents: seq<Subcomponent>
    const qmemory: QuantumMemory?

    constructor (name: string, subcomponents: seq<Subcomponent>, qmemory: QuantumMemory?)
      ensures this.name == name && this.subcomponents == subcomponents && this.qmemory == qmemory
    {
      this.name := name;
      this.subcomponents := subcomponents;
      this.qmemory := qmemory;
    }
  }

  /** Index of the first subcomponent that is a QSource. */
  function FirstQSource(subs: seq<Subcomponent>): (r: Option<nat>)
    ensures r.Some? ==> r.value < |subs| && subs[r.value].isQSource
    ensures r.Some? ==> forall j :: 0 <= j < r.value ==> !subs[j].isQSource
    ensures r.None? <==> forall j :: 0 <= j < |subs| ==> !subs[j].isQSource
  {
    if |subs| == 0 then None
    else if subs[0].isQSource then Some(0)
    else match FirstQSource(subs[1..])
      case None => None
      case Some(k) => Some(k + 1)
  }

  /**
   * The `for name, subcomp in node.subcomponents.items(): if isinstance(subcomp, QSource): ... break`
   * search shared by both node protocols: the name of the first QSource, if any.
   */
  method FindQSource(subs: seq<Subcomponent>) returns (found: Option<string>)
    ensures found.Some? <==> exists j :: 0 <= j < |subs| && subs[j].isQSource
    ensures found.Some? ==> exists j :: 0 <= j < |subs| && subs[j].isQSource && found.value == subs[j].name
                                        && forall i :: 0 <= i < j ==> !subs[i].isQSource
  {
    found := None;
    var i := 0;
    while i < |subs|
      invariant 0 <= i <= |subs|
      invariant forall j :: 0 <= j < i ==> !subs[j].isQSource
    {
      if subs[i].isQSource {
        found := Some(subs[i].name);
        return;
      }
      i := i + 1;
    }
  }
}
