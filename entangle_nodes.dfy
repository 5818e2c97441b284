/**
 * The example protocol that entangles two nodes (src/examples/entangle_nodes_protocol.py): the
 * constructor's checks and claim, the memory positions `start` claims and `stop` releases, the
 * order of the steps of one round of `run`, when a source stops, and `is_connected`.
 *
 * Waiting for the start expression, for port input and for a busy memory are steps; the
 * simulation that ends the waits is not modelled, and whether the memory is still busy after a
 * swap is an input, `busy`, keyed by the position swapped into.
 */
module EntangleNodesExample {
  import opened Common
  import opened Components

  /** What was passed as `start_expression`. */
  datatype StartArgument = NoExpression | EventExpression | OtherValue(typeRepr: string)

  /** How the message prints the EventExpression class; the library's own text is not modelled. */
  const EventExpressionRepr := "<class 'pydynaa.EventExpression'>"

  function StartTypeMessage(typeRepr: string): string
  {
    "Start expression should be a " + EventExpressionRepr + ", not a " + typeRepr
  }

  function NoMemoryMessage(nodeName: string): string
  {
    "Node " + nodeName + " does not have a quantum memory assigned."
  }

  function NotEnoughMemoryMessage(need: int, have: int): string
  {
    "Not enough unused memory: need " + IntToString(need) + ", have " + IntToString(have)
  }

  /** The elements of `s` from last to first. */
  function Reversed<T>(s: seq<T>): (r: seq<T>)
    ensures |r| == |s|
    ensures forall i :: 0 <= i < |s| ==> r[i] == s[|s| - 1 - i]
  {
    if |s| == 0 then [] else [s[|s| - 1]] + Reversed(s[..|s| - 1])
  }

  /** The positions `stop` releases: every claimed position but the first, the input position. */
  function Released(claimed: Option<seq<nat>>): seq<nat>
  {
    if claimed.Some? && |claimed.value| > 0 then claimed.value[1..] else []
  }

  // ---------------------------------------------------------------------------
  // One round of `run`
  // ---------------------------------------------------------------------------

  /**
   * The steps for one visited position: a source triggers its QSource, then the protocol waits
   * for input, swaps the qubit from the input position to `p` unless `p` is the input position
   * (and waits for the memory's program when the memory is then busy), and signals SUCCESS with `p`.
   */
  function VisitSteps(source: Option<string>, port: Port, input: nat, p: nat, busy: bool): seq<Step>
  {
    (if source.Some? then [Trigger(source.value)] else []) + [AwaitInput(port)]
    + (if p != input then [Swap([input, p])] + (if busy then [AwaitProgram] else []) else []) + [SignalSuccess(p)]
  }

  /** The steps for visiting `order` position by position; `busy(p)` says whether the memory is busy after the swap into `p`. */
  function RoundSteps(source: Option<string>, port: Port, input: nat, order: seq<nat>, busy: nat -> bool): seq<Step>
  {
    if |order| == 0 then []
    else RoundSteps(source, port, input, order[..|order| - 1], busy)
         + VisitSteps(source, port, input, order[|order| - 1], busy(order[|order| - 1]))
  }

  /** The swaps a round issues on the memory, one per visited position other than the input. */
  function SwapLog(input: nat, order: seq<nat>): seq<Instruction>
  {
    if |order| == 0 then []
    else SwapLog(input, order[..|order| - 1])
         + (if order[|order| - 1] != input then [Instruction(OpSwap, At([input, order[|order| - 1]]), None)] else [])
  }

  /** The results of the SUCCESS signals among `steps`, in order. */
  function Signals(steps: seq<Step>): seq<int>
  {
    if |steps| == 0 then []
    else Signals(steps[..|steps| - 1]) + (if steps[|steps| - 1].SignalSuccess? then [steps[|steps| - 1].result] else [])
  }

  /** The number of waits for port input among `steps`. */
  function Awaits(steps: seq<Step>): nat
  {
    if |steps| == 0 then 0 else Awaits(steps[..|steps| - 1]) + (if steps[|steps| - 1].AwaitInput? then 1 else 0)
  }

  lemma {:induction false} SignalsAppend(a: seq<Step>, b: seq<Step>)
    ensures Signals(a + b) == Signals(a) + Signals(b)
    decreases |b|
  {
    if |b| == 0 {
      assert a + b == a;
    } else {
      assert (a + b)[..|a + b| - 1] == a + b[..|b| - 1];
      SignalsAppend(a, b[..|b| - 1]);
    }
  }

  lemma {:induction false} AwaitsAppend(a: seq<Step>, b: seq<Step>)
    ensures Awaits(a + b) == Awaits(a) + Awaits(b)
    decreases |b|
  {
    if |b| == 0 {
      assert a + b == a;
    } else {
      assert (a + b)[..|a + b| - 1] == a + b[..|b| - 1];
      AwaitsAppend(a, b[..|b| - 1]);
    }
  }

  /** Steps that neither signal nor wait for input add nothing to either count. */
  lemma {:induction false} QuietSteps(steps: seq<Step>)
    requires forall k :: 0 <= k < |steps| ==> !steps[k].SignalSuccess? && !steps[k].AwaitInput?
    ensures Signals(steps) == [] && Awaits(steps) == 0
    decreases |steps|
  {
    if |steps| > 0 {
      QuietSteps(steps[..|steps| - 1]);
    }
  }

  lemma VisitSignalsAndAwaits(source: Option<string>, port: Port, input: nat, p: nat, busy: bool)
    ensures Signals(VisitSteps(source, port, input, p, busy)) == [p]
    ensures Awaits(VisitSteps(source, port, input, p, busy)) == 1
  {
    var pre: seq<Step> := if source.Some? then [Trigger(source.value)] else [];
    var swap: seq<Step> := if p != input then [Swap([input, p])] + (if busy then [AwaitProgram] else []) else [];
    assert VisitSteps(source, port, input, p, busy) == pre + [AwaitInput(port)] + swap + [SignalSuccess(p)];
    QuietSteps(pre);
    QuietSteps(swap);
    VisitSignals(pre, port, swap, p);
    VisitAwaits(pre, port, swap, p);
  }

  lemma VisitSignals(pre: seq<Step>, port: Port, swap: seq<Step>, p: nat)
    requires Signals(pre) == [] && Signals(swap) == []
    ensures Signals(pre + [AwaitInput(port)] + swap + [SignalSuccess(p)]) == [p]
  {
    var waited := pre + [AwaitInput(port)];
    assert Signals([AwaitInput(port)]) == [];
    assert Signals([SignalSuccess(p)]) == [p];
    SignalsAppend(pre, [AwaitInput(port)]);
    SignalsAppend(waited, swap);
    SignalsAppend(waited + swap, [SignalSuccess(p)]);
  }

  lemma VisitAwaits(pre: seq<Step>, port: Port, swap: seq<Step>, p: nat)
    requires Awaits(pre) == 0 && Awaits(swap) == 0
    ensures Awaits(pre + [AwaitInput(port)] + swap + [SignalSuccess(p)]) == 1
  {
    var waited := pre + [AwaitInput(port)];
    assert Awaits([AwaitInput(port)]) == 1;
    assert Awaits([SignalSuccess(p)]) == 0;
    AwaitsAppend(pre, [AwaitInput(port)]);
    AwaitsAppend(waited, swap);
    AwaitsAppend(waited + swap, [SignalSuccess(p)]);
  }

  /**
   * A visit waits for the memory's program only when it swapped and the memory is then busy, and
   * that wait comes straight after the swap.
   */
  lemma VisitWaitsForProgram(source: Option<string>, port: Port, input: nat, p: nat, busy: bool)
    ensures AwaitProgram in VisitSteps(source, port, input, p, busy) <==> p != input && busy
    ensures var steps := VisitSteps(source, port, input, p, busy);
            forall k :: 0 <= k < |steps| && steps[k] == AwaitProgram ==> k > 0 && steps[k - 1] == Swap([input, p])
  {
  }

  /**
   * A round signals SUCCESS once per visited position, with that position, in the order visited,
   * and waits for input once per position.
   */
  lemma {:induction false} RoundSignalsVisitOrder(source: Option<string>, port: Port, input: nat, order: seq<nat>,
                                                  busy: nat -> bool)
    ensures Signals(RoundSteps(source, port, input, order, busy)) == order
    ensures Awaits(RoundSteps(source, port, input, order, busy)) == |order|
  {
    RoundSignals(source, port, input, order, busy);
    RoundAwaits(source, port, input, order, busy);
  }

  lemma {:induction false} RoundSignals(source: Option<string>, port: Port, input: nat, order: seq<nat>,
                                       busy: nat -> bool)
    ensures Signals(RoundSteps(source, port, input, order, busy)) == order
    decreases |order|
  {
    if |order| > 0 {
      var init := order[..|order| - 1];
      var last := order[|order| - 1];
      RoundSignals(source, port, input, init, busy);
      SignalsAppend(RoundSteps(source, port, input, init, busy), VisitSteps(source, port, input, last, busy(last)));
      VisitSignalsAndAwaits(source, port, input, last, busy(last));
      assert init + [last] == order;
    }
  }

  lemma {:induction false} RoundAwaits(source: Option<string>, port: Port, input: nat, order: seq<nat>,
                                      busy: nat -> bool)
    ensures Awaits(RoundSteps(source, port, input, order, busy)) == |order|
    decreases |order|
  {
    if |order| > 0 {
      var init := order[..|order| - 1];
      var last := order[|order| - 1];
      RoundAwaits(source, port, input, init, busy);
      AwaitsAppend(RoundSteps(source, port, input, init, busy), VisitSteps(source, port, input, last, busy(last)));
      VisitSignalsAndAwaits(source, port, input, last, busy(last));
    }
  }

  /**
   * The swaps move the received qubit out of the input position only: each targets the input
   * position and a different one, and there is one per visited position other than the input.
   */
  lemma {:induction false} SwapsLeaveInputPosition(input: nat, order: seq<nat>)
    ensures |SwapLog(input, order)| == |order| - Occurrences(order, input)
    ensures forall k :: 0 <= k < |SwapLog(input, order)| ==>
              SwapLog(input, order)[k].op == OpSwap && SwapLog(input, order)[k].target.At?
              && |SwapLog(input, order)[k].target.positions| == 2
              && SwapLog(input, order)[k].target.positions[0] == input
              && SwapLog(input, order)[k].target.positions[1] != input
    decreases |order|
  {
    if |order| > 0 {
      SwapsLeaveInputPosition(input, order[..|order| - 1]);
    }
  }

  /** How often `x` occurs in `s`. */
  function Occurrences(s: seq<nat>, x: nat): (n: nat)
    ensures n <= |s|
  {
    if |s| == 0 then 0 else Occurrences(s[..|s| - 1], x) + (if s[|s| - 1] == x then 1 else 0)
  }

  /**
   * Visiting the claimed positions in reverse handles the input position, claimed first, last:
   * the round ends by waiting for input and signalling SUCCESS with the input position, with no
   * swap in between.
   */
  lemma InputPositionLast(source: Option<string>, port: Port, input: nat, claimed: seq<nat>, busy: nat -> bool)
    requires |claimed| > 0 && claimed[0] == input
    ensures var steps := RoundSteps(source, port, input, Reversed(claimed), busy);
            |steps| >= 2 && steps[|steps| - 2] == AwaitInput(port) && steps[|steps| - 1] == SignalSuccess(input)
  {
    var order := Reversed(claimed);
    assert order[|order| - 1] == input;
    var visit := VisitSteps(source, port, input, input, busy(input));
    assert visit[|visit| - 2..] == [AwaitInput(port), SignalSuccess(input)];
  }

  // ---------------------------------------------------------------------------
  // The protocol
  // ---------------------------------------------------------------------------

  class EntangleNodes {
    const node: Node
    const name: string
    const isSource: bool
    const hasStartExpression: bool
    const numPairs: int
    const inputMemPosition: nat
    const qmemInputPort: Port
    var memPositions: Option<seq<nat>>
    var qsourceName: Option<string>
    var entangledPairsN: int

    /** The node has a memory, the input position is one of its positions, and so is every claimed one. */
    ghost predicate Valid()
      reads this, node.qmemory
    {
      && node.qmemory != null && node.qmemory.Valid()
      && inputMemPosition < node.qmemory.numPositions
      && (memPositions.Some? ==> forall k :: 0 <= k < |memPositions.value| ==> memPositions.value[k] < node.qmemory.numPositions)
    }

    /** The object the checks of `New` let through: the input position is marked in use. */
    constructor Init(onNode: Node, isSource: bool, name: string, hasStartExpression: bool, inputMemPos: nat,
                     numPairs: int)
      requires onNode.qmemory != null && onNode.qmemory.Valid() && inputMemPos < onNode.qmemory.numPositions
      modifies onNode.qmemory
      ensures Valid()
      ensures node == onNode && this.isSource == isSource && this.name == name
      ensures this.hasStartExpression == hasStartExpression && this.numPairs == numPairs
      ensures inputMemPosition == inputMemPos && qmemInputPort == onNode.qmemory.InputPort(inputMemPos)
      ensures memPositions == None && qsourceName == None && entangledPairsN == 0
      ensures onNode.qmemory.inUse == old(onNode.qmemory.inUse)[inputMemPos := true]
      ensures onNode.qmemory.log == old(onNode.qmemory.log)
    {
      node := onNode;
      this.isSource := isSource;
      this.name := name;
      this.hasStartExpression := hasStartExpression;
      this.numPairs := numPairs;
      inputMemPosition := inputMemPos;
      qmemInputPort := onNode.qmemory.InputPort(inputMemPos);
      memPositions := None;
      qsourceName := None;
      entangledPairsN := 0;
      new;
      onNode.qmemory.SetInUse(inputMemPos, true);
    }

    /**
     * `EntangleNodes(on_node, is_source, name, start_expression, input_mem_pos, num_pairs)`:
     * TypeError for a start expression that is not an EventExpression, ValueError for a node
     * without a memory, KeyError when the memory has no port `qin{input_mem_pos}`; otherwise the
     * protocol, with the input position marked in use.
     */
    static method New(onNode: Node, isSource: bool, name: string, start: StartArgument, inputMemPos: int,
                      numPairs: int) returns (r: Result<EntangleNodes>)
      requires onNode.qmemory != null ==> onNode.qmemory.Valid()
      modifies onNode.qmemory
      ensures start.OtherValue? ==> r == Err(TypeError(StartTypeMessage(start.typeRepr)))
      ensures !start.OtherValue? && onNode.qmemory == null ==> r == Err(ValueError(NoMemoryMessage(onNode.name)))
      ensures !start.OtherValue? && onNode.qmemory != null && !(0 <= inputMemPos < onNode.qmemory.numPositions) ==>
                r == Err(KeyError("qin" + IntToString(inputMemPos)))
      ensures r.Err? && onNode.qmemory != null ==> unchanged(onNode.qmemory)
      ensures r.Ok? <==> !start.OtherValue? && onNode.qmemory != null && 0 <= inputMemPos < onNode.qmemory.numPositions
      ensures r.Ok? ==> && fresh(r.value) && r.value.Valid() && r.value.node == onNode
                        && r.value.hasStartExpression == start.EventExpression?
                        && r.value.inputMemPosition == inputMemPos && r.value.numPairs == numPairs
                        && r.value.memPositions == None && r.value.entangledPairsN == 0
                        && onNode.qmemory.inUse == old(onNode.qmemory.inUse)[inputMemPos := true]
    {
      if start.OtherValue? {
        return Err(TypeError(StartTypeMessage(start.typeRepr)));
      }
      if onNode.qmemory == null {
        return Err(ValueError(NoMemoryMessage(onNode.name)));
      }
      if !(0 <= inputMemPos < onNode.qmemory.numPositions) {
        return Err(KeyError("qin" + IntToString(inputMemPos)));
      }
      var p := new EntangleNodes.Init(onNode, isSource, name, start.EventExpression?, inputMemPos, numPairs);
      return Ok(p);
    }

    /**
     * `start`: the claimed list becomes the input position followed by the first `num_pairs - 1`
     * unused positions, each marked in use; RuntimeError, with only the input position claimed,
     * when fewer positions are unused.
     */
    method Start() returns (s: Status)
      requires Valid()
      modifies this`memPositions, node.qmemory
      ensures Valid()
      ensures node.qmemory.log == old(node.qmemory.log)
      ensures s.Raised? <==> numPairs - 1 > 0 && numPairs - 1 > |old(node.qmemory.UnusedPositions())|
      ensures s.Raised? ==> && s.error == RuntimeError(NotEnoughMemoryMessage(numPairs - 1, |old(node.qmemory.UnusedPositions())|))
                            && memPositions == Some([inputMemPosition])
                            && node.qmemory.inUse == old(node.qmemory.inUse)
      ensures s.Done? ==> memPositions == Some([inputMemPosition] + old(node.qmemory.UnusedPositions())[..if numPairs > 1 then numPairs - 1 else 0])
      ensures s.Done? ==> forall k :: 1 <= k < |memPositions.value| ==> !old(node.qmemory.inUse)[memPositions.value[k]]
      ensures |node.qmemory.inUse| == |old(node.qmemory.inUse)|
      ensures forall i :: 0 <= i < |node.qmemory.inUse| ==> node.qmemory.inUse[i] == (old(node.qmemory.inUse[i]) || i in Released(memPositions))
    {
      memPositions := Some([inputMemPosition]);
      var extra := numPairs - 1;
      if extra > 0 {
        var unused := node.qmemory.UnusedPositions();
        assert unused == old(node.qmemory.UnusedPositions());
        if extra > |unused| {
          return Raised(RuntimeError(NotEnoughMemoryMessage(extra, |unused|)));
        }
        memPositions := Some([inputMemPosition] + unused[..extra]);
        node.qmemory.SetAllInUse(unused[..extra], true);
        assert Released(memPositions) == unused[..extra];
      } else {
        assert [inputMemPosition] + old(node.qmemory.UnusedPositions())[..0] == [inputMemPosition];
      }
      return Done;
    }

    /**
     * `stop`: every claimed position but the input position is marked unused again, and the
     * claimed list is emptied; nothing happens when nothing is claimed.
     */
    method Stop()
      requires Valid()
      modifies this`memPositions, node.qmemory
      ensures Valid()
      ensures node.qmemory.log == old(node.qmemory.log)
      ensures memPositions == if old(memPositions).Some? && |old(memPositions).value| > 0 then Some([]) else old(memPositions)
      ensures |node.qmemory.inUse| == |old(node.qmemory.inUse)|
      ensures forall i :: 0 <= i < |node.qmemory.inUse| ==>
                node.qmemory.inUse[i] == (old(node.qmemory.inUse[i]) && i !in Released(old(memPositions)))
    {
      if memPositions.Some? && |memPositions.value| > 0 {
        node.qmemory.SetAllInUse(memPositions.value[1..], false);
        memPositions := Some([]);
      }
    }

    /**
     * Claiming and releasing undo each other: `stop` right after a successful `start` leaves every
     * `in_use` flag as it was before, and the claimed list empty.
     */
    method StartThenStop() returns (s: Status)
      requires Valid()
      modifies this`memPositions, node.qmemory
      ensures Valid()
      ensures node.qmemory.inUse == old(node.qmemory.inUse)
      ensures memPositions == Some([])
    {
      s := Start();
      Stop();
      assert node.qmemory.inUse == old(node.qmemory.inUse);
    }

    /**
     * `is_connected`: false when the base protocol is not connected, when the node has no memory,
     * before `start` when fewer than `num_pairs - 1` positions are unused, after `start` when the
     * claimed list does not hold `num_pairs` positions, and for a source without a QSource
     * subcomponent, whose first name it otherwise records.
     */
    method IsConnected(baseConnected: bool) returns (connected: bool)
      modifies this`qsourceName
      ensures connected <==> && baseConnected && node.qmemory != null
                             && (memPositions.None? ==> |node.qmemory.UnusedPositions()| >= numPairs - 1)
                             && (memPositions.Some? ==> |memPositions.value| == numPairs)
                             && (isSource ==> exists j :: 0 <= j < |node.subcomponents| && node.subcomponents[j].isQSource)
      ensures connected && isSource ==>
                exists j :: 0 <= j < |node.subcomponents| && node.subcomponents[j].isQSource
                            && qsourceName == Some(node.subcomponents[j].name)
                            && forall i :: 0 <= i < j ==> !node.subcomponents[i].isQSource
      ensures !(connected && isSource) ==> qsourceName == old(qsourceName)
    {
      if !baseConnected || node.qmemory == null {
        return false;
      }
      if memPositions.None? && |node.qmemory.UnusedPositions()| < numPairs - 1 {
        return false;
      }
      if memPositions.Some? && |memPositions.value| != numPairs {
        return false;
      }
      if isSource {
        var found := FindQSource(node.subcomponents);
        if found.None? {
          return false;
        }
        qsourceName := found;
      }
      return true;
    }

    /**
     * One round of `run`: the claimed positions visited last to first, each with the steps of
     * `VisitSteps`; each received qubit adds 1 to the pair count. TypeError before `start`, and
     * KeyError at the first trigger of a source whose QSource `is_connected` has not recorded.
     * `busy(p)` is whether the memory is still busy after the swap into `p`.
     */
    method Round(busy: nat -> bool) returns (steps: seq<Step>, status: Status)
      requires Valid()
      modifies this`entangledPairsN, node.qmemory`log
      ensures Valid()
      ensures memPositions.None? ==> && status == Raised(TypeError("'NoneType' object is not subscriptable"))
                                     && steps == [] && entangledPairsN == old(entangledPairsN)
                                     && node.qmemory.log == old(node.qmemory.log)
      ensures memPositions.Some? && |memPositions.value| > 0 && isSource && qsourceName.None? ==>
                && status == Raised(KeyError("None")) && steps == []
                && entangledPairsN == old(entangledPairsN) && node.qmemory.log == old(node.qmemory.log)
      ensures memPositions.Some? && !(|memPositions.value| > 0 && isSource && qsourceName.None?) ==>
                && status == Done
                && steps == RoundSteps(if isSource then qsourceName else None, qmemInputPort, inputMemPosition,
                                       Reversed(memPositions.value), busy)
                && entangledPairsN == old(entangledPairsN) + |memPositions.value|
                && node.qmemory.log == old(node.qmemory.log) + SwapLog(inputMemPosition, Reversed(memPositions.value))
    {
      if memPositions.None? {
        return [], Raised(TypeError("'NoneType' object is not subscriptable"));
      }
      var order := Reversed(memPositions.value);
      var source := if isSource then qsourceName else None;
      steps := [];
      var k := 0;
      while k < |order|
        invariant 0 <= k <= |order|
        invariant k > 0 ==> !(isSource && qsourceName.None?)
        invariant steps == RoundSteps(source, qmemInputPort, inputMemPosition, order[..k], busy)
        invariant entangledPairsN == old(entangledPairsN) + k
        invariant node.qmemory.log == old(node.qmemory.log) + SwapLog(inputMemPosition, order[..k])
      {
        var memPos := order[k];
        assert order[..k + 1][..k] == order[..k];
        if isSource && qsourceName.None? {
          return [], Raised(KeyError("None"));
        }
        if memPos != inputMemPosition {
          node.qmemory.Execute(Instruction(OpSwap, At([inputMemPosition, memPos]), None));
        }
        entangledPairsN := entangledPairsN + 1;
        steps := steps + VisitSteps(source, qmemInputPort, inputMemPosition, memPos, busy(memPos));
        k := k + 1;
      }
      assert order[..|order|] == order;
      status := Done;
    }

    /** Without a start expression a source stops before a round once its pair count reaches `num_pairs`. */
    predicate Finished()
      reads this
    {
      !hasStartExpression && isSource && entangledPairsN >= numPairs
    }

    /**
     * One pass of `run`'s loop: wait for the start expression when there is one; otherwise a
     * finished source stops; then one round.
     */
    method Iteration(busy: nat -> bool) returns (steps: seq<Step>, status: Status, stopped: bool)
      requires Valid()
      modifies this`entangledPairsN, node.qmemory`log
      ensures Valid()
      ensures stopped <==> old(Finished())
      ensures stopped ==> steps == [] && status == Done && entangledPairsN == old(entangledPairsN)
      ensures hasStartExpression ==> |steps| > 0 && steps[0] == AwaitStart
      ensures !stopped && status.Done? ==> memPositions.Some? && entangledPairsN == old(entangledPairsN) + |memPositions.value|
      ensures !stopped ==> (status.Done? <==> memPositions.Some? && !(|memPositions.value| > 0 && isSource && qsourceName.None?))
    {
      var wait: seq<Step> := [];
      if hasStartExpression {
        wait := [AwaitStart];
      } else if isSource && entangledPairsN >= numPairs {
        return [], Done, true;
      }
      var round;
      round, status := Round(busy);
      steps := wait + round;
      stopped := false;
    }

    /**
     * `run` for a source without a start expression, the only configuration whose loop ends:
     * rounds until the pair count reaches `num_pairs`, and not one round more.
     */
    method RunSource(busy: nat -> bool) returns (rounds: nat)
      requires Valid() && isSource && !hasStartExpression && qsourceName.Some?
      requires memPositions.Some? && |memPositions.value| > 0
      modifies this`entangledPairsN, node.qmemory`log
      ensures entangledPairsN >= numPairs
      ensures entangledPairsN == old(entangledPairsN) + rounds * |memPositions.value|
      ensures rounds == 0 <==> old(entangledPairsN) >= numPairs
      ensures rounds > 0 ==> entangledPairsN - |memPositions.value| < numPairs
      ensures old(entangledPairsN) == 0 && |memPositions.value| == numPairs ==> rounds == 1
    {
      var size := |memPositions.value|;
      ghost var start := entangledPairsN;
      ghost var before := start;
      rounds := 0;
      var steps, status, stopped := Iteration(busy);
      while !stopped
        invariant Valid() && qsourceName.Some? && memPositions.Some? && |memPositions.value| == size
        invariant before == start + rounds * size
        invariant stopped <==> before >= numPairs
        invariant entangledPairsN == if stopped then before else before + size
        invariant rounds > 0 ==> before - size < numPairs && start < numPairs
        decreases if stopped then 0 else 1 + numPairs - before
      {
        rounds := rounds + 1;
        MultiplySuccessor(rounds - 1, size);
        before := entangledPairsN;
        steps, status, stopped := Iteration(busy);
      }
      if start == 0 && size == numPairs {
        FewerThanTwo(rounds, size);
      }
    }
  }

  lemma MultiplySuccessor(r: nat, s: nat)
    ensures (r + 1) * s == r * s + s
  {
  }

  lemma FewerThanTwo(r: nat, s: nat)
    requires s > 0 && r * s < 2 * s
    ensures r < 2
  {
    if r >= 2 {
      MultiplyMonotone(2, r, s);
    }
  }

  lemma MultiplyMonotone(a: nat, b: nat, s: nat)
    requires a <= b
    ensures a * s <= b * s
  {
  }
}
