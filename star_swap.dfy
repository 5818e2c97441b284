/**
 * What the two entanglement-swapping routines of the star network compute from the
 * memories once the simulation has run (src/network/StarNetwork.py).
 *
 * The qubits held by all memories are one map from a (node, position) slot to a qubit.
 * `pop` on an empty slot raises ValueError, which both routines catch to report a loss.
 * `peek` of an empty position gives `[None]`, so the routines' one-element unpacking of it
 * never fails and the repeater's contents do not decide the result. `discard` removes the
 * qubit and any failure is ignored.
 */
module StarSwap {
  import opened Common
  import opened Components
  import opened SwapResults
  import opened EntanglementSwapping
  import opened BellMeasurement

  /** A memory position of a node's processor, named by the node. */
  datatype Slot = Slot(node: string, position: nat)

  /** The node whose memory the swap routines read for destination n: `RemoteNode` for n = N-1. */
  function Label(N: int, n: int): (l: string)
    ensures n == N - 1 ==> l == "RemoteNode"
    ensures n != N - 1 ==> |l| > 4 && l[..4] == "Node" && l[4..] == IntToString(n)
  {
    if n != N - 1 then "Node" + IntToString(n) else "RemoteNode"
  }

  /** No destination number is read from the repeater's memory. */
  lemma LabelIsNeverRepeater(N: int, n: int)
    ensures Label(N, n) != "Repeater"
  {
    if n != N - 1 {
      assert Label(N, n)[1] == 'o';
    }
  }

  /** A plain node's label is neither the repeater nor the remote node. */
  lemma PlainLabel(N: int, n: int)
    requires n != N - 1
    ensures Label(N, n) != "Repeater" && Label(N, n) != "RemoteNode"
  {
    assert Label(N, n)[0] == 'N';
  }

  /** Different destination numbers are read from different memories. */
  lemma LabelsDistinct(N: int, a: int, b: int)
    requires 1 <= a && 1 <= b && a != b
    ensures Label(N, a) != Label(N, b)
  {
    if a != N - 1 && b != N - 1 {
      if Label(N, a) == Label(N, b) {
        assert IntToString(a) == Label(N, a)[4..] == Label(N, b)[4..] == IntToString(b);
        assert NatToString(a) == NatToString(b);
        NatToStringInjective(a, b);
      }
    } else if a != N - 1 {
      PlainLabel(N, a);
    } else {
      PlainLabel(N, b);
    }
  }

  // ---------------------------------------------------------------------------
  // Popping, peeking and discarding
  // ---------------------------------------------------------------------------

  /** Every slot holds a qubit and no slot is named twice: popping them in order succeeds. */
  predicate Poppable(mem: map<Slot, Qubit>, slots: seq<Slot>)
  {
    && (forall i :: 0 <= i < |slots| ==> slots[i] in mem)
    && (forall i, j :: 0 <= i < j < |slots| ==> slots[i] != slots[j])
  }

  function SlotSet(slots: seq<Slot>): set<Slot>
  {
    set i | 0 <= i < |slots| :: slots[i]
  }

  /** Pop each slot in turn: the qubits in order and what remains, or None at the first empty slot. */
  function PopAll(mem: map<Slot, Qubit>, slots: seq<Slot>): (r: Option<(seq<Qubit>, map<Slot, Qubit>)>)
    ensures r.Some? <==> Poppable(mem, slots)
    ensures r.Some? ==> |r.value.0| == |slots| && forall i :: 0 <= i < |slots| ==> r.value.0[i] == mem[slots[i]]
    ensures r.Some? ==> r.value.1 == mem - SlotSet(slots)
    decreases |slots|
  {
    if |slots| == 0 then Some(([], mem))
    else if slots[0] !in mem then None
    else match PopAll(mem - {slots[0]}, slots[1..])
      case None =>
        assert !Poppable(mem, slots) by {
          if Poppable(mem, slots) {
            forall i | 0 <= i < |slots[1..]| ensures slots[1..][i] in mem - {slots[0]} {
              assert slots[1..][i] == slots[i + 1] != slots[0];
            }
          }
        }
        None
      case Some(popped) =>
        assert SlotSet(slots) == {slots[0]} + SlotSet(slots[1..]) by {
          forall s | s in SlotSet(slots) ensures s in {slots[0]} + SlotSet(slots[1..]) {
            var i :| 0 <= i < |slots| && slots[i] == s;
            if i > 0 { assert slots[1..][i - 1] == s; }
          }
        }
        Some(([mem[slots[0]]] + popped.0, popped.1))
  }

  /** The repeater's positions 0..k-1, as a set. */
  function RepeaterPositions(k: nat): set<Slot>
  {
    set i | 0 <= i < k :: Slot("Repeater", i)
  }

  // ---------------------------------------------------------------------------
  // The Bell measurement's outcome and the inline correction table
  // ---------------------------------------------------------------------------

  /** What the repeater's Bell measurement gives: its output, or MemPositionEmptyError. */
  datatype BellReading = Outcome(m: MeasureOutput) | EmptyPosition

  /** `m[0]["M"][0]`. */
  function MOutcome(m: MeasureOutput): (r: Result<int>)
    ensures r.Ok? <==> "M" in m.outputs && |m.outputs["M"]| > 0
    ensures r.Ok? ==> r.value == m.outputs["M"][0]
    ensures "M" !in m.outputs ==> r == Err(KeyError("M"))
    ensures "M" in m.outputs && |m.outputs["M"]| == 0 ==> r == Err(IndexError)
  {
    if "M" !in m.outputs then Err(KeyError("M"))
    else if |m.outputs["M"]| == 0 then Err(IndexError)
    else Ok(m.outputs["M"][0])
  }

  /** The `if state == 1 … elif state == 3` chain written out in both swap routines. */
  function InlineCorrections(state: int): (r: seq<Operation>)
    ensures |r| <= 2
  {
    if state == 1 then [OpX] else if state == 2 then [OpZ, OpX] else if state == 3 then [OpZ] else []
  }

  /**
   * The inline chain agrees with the table of `apply_gates` on every Bell outcome; where the
   * table raises KeyError, the chain silently issues nothing.
   */
  lemma InlineMatchesTable(state: int)
    ensures Corrections(state).Some? ==> InlineCorrections(state) == Corrections(state).value
    ensures Corrections(state).None? ==> InlineCorrections(state) == []
  {
  }

  // ---------------------------------------------------------------------------
  // The two-node swap
  // ---------------------------------------------------------------------------

  const TwoNodeLostMessage := "Either one or both Qubits were lost during transfer"

  /** The slots `_perform_entanglement_swapping` pops, in order. */
  function TwoNodeSlots(l1: string, l2: string): seq<Slot>
  {
    [Slot(l1, 0), Slot(l2, 0)]
  }

  /** Both pops of the two-node swap find a qubit (the second pop cannot find the first's). */
  predicate TwoNodeSucceeds(mem: map<Slot, Qubit>, l1: string, l2: string)
  {
    Slot(l1, 0) in mem && Slot(l2, 0) in mem && l1 != l2
  }

  /**
   * The record `_perform_entanglement_swapping` returns: both nodes' qubits and their fidelity
   * when both pops succeed, whatever the repeater holds, else the loss record.
   */
  function TwoNodeOutcome(fid: Fidelity, mem: map<Slot, Qubit>, l1: string, l2: string): (r: Record)
    ensures r.Measured? <==> TwoNodeSucceeds(mem, l1, l2)
    ensures r.Measured? ==> r == GetResult(fid, [mem[Slot(l1, 0)], mem[Slot(l2, 0)]])
    ensures r.Lost? ==> r == Lost(TwoNodeLostMessage, true)
  {
    var slots := TwoNodeSlots(l1, l2);
    assert slots[0] == Slot(l1, 0) && slots[1] == Slot(l2, 0);
    assert Poppable(mem, slots) <==> Slot(l1, 0) in mem && Slot(l2, 0) in mem && l1 != l2;
    assert SlotSet(slots) == {Slot(l1, 0), Slot(l2, 0)} by {
      assert forall s :: s in SlotSet(slots) ==> s == slots[0] || s == slots[1];
    }
    match PopAll(mem, slots)
    case None => Lost(TwoNodeLostMessage, true)
    case Some(popped) =>
      assert popped.0 == [mem[Slot(l1, 0)], mem[Slot(l2, 0)]];
      GetResult(fid, popped.0)
  }

  /**
   * Two different destinations whose positions 0 hold a qubit always give a measured record of
   * exactly those two qubits, whether or not the repeater holds anything.
   */
  lemma DistinctNodesAreMeasured(fid: Fidelity, mem: map<Slot, Qubit>, N: int, n1: int, n2: int)
    requires 1 <= n1 && 1 <= n2 && n1 != n2
    requires Slot(Label(N, n1), 0) in mem && Slot(Label(N, n2), 0) in mem
    ensures TwoNodeOutcome(fid, mem, Label(N, n1), Label(N, n2))
         == GetResult(fid, [mem[Slot(Label(N, n1), 0)], mem[Slot(Label(N, n2), 0)]])
  {
    LabelsDistinct(N, n1, n2);
  }

  // ---------------------------------------------------------------------------
  // The three-node swap
  // ---------------------------------------------------------------------------

  const ThreeNodeLostMessage := "Some Qubits were lost during transfer"

  /** The slots `_perform_new_entanglement_swapping` pops, in order. */
  function ThreeNodeSlots(l1: string, l2: string, l3: string): seq<Slot>
  {
    [Slot(l1, 0), Slot(l2, 0), Slot(l3, 0), Slot(l3, 1)]
  }

  /** All four pops of the three-node swap find a qubit. */
  predicate ThreeNodeSucceeds(mem: map<Slot, Qubit>, l1: string, l2: string, l3: string)
  {
    && Slot(l1, 0) in mem && Slot(l2, 0) in mem && Slot(l3, 0) in mem && Slot(l3, 1) in mem
    && l1 != l2 && l1 != l3 && l2 != l3
  }

  /**
   * What `_perform_new_entanglement_swapping` returns: the pairs (node1, node3 position 0) and
   * (node2, node3 position 1) when all four pops succeed, whatever the repeater holds, else one
   * loss record. No partial list is ever returned.
   */
  function ThreeNodeOutcome(fid: Fidelity, mem: map<Slot, Qubit>, l1: string, l2: string, l3: string)
    : (r: TrialResult)
    ensures r.Multiple? <==> ThreeNodeSucceeds(mem, l1, l2, l3)
    ensures r.Multiple? ==>
              r.records == GetResults(fid, [mem[Slot(l1, 0)], mem[Slot(l3, 0)]], [mem[Slot(l2, 0)], mem[Slot(l3, 1)]])
    ensures r.Single? ==> r.record == Lost(ThreeNodeLostMessage, true)
  {
    var slots := ThreeNodeSlots(l1, l2, l3);
    assert slots[0] == Slot(l1, 0) && slots[1] == Slot(l2, 0) && slots[2] == Slot(l3, 0) && slots[3] == Slot(l3, 1);
    assert Poppable(mem, slots) <==>
             && Slot(l1, 0) in mem && Slot(l2, 0) in mem && Slot(l3, 0) in mem && Slot(l3, 1) in mem
             && l1 != l2 && l1 != l3 && l2 != l3;
    assert SlotSet(slots) == {Slot(l1, 0), Slot(l2, 0), Slot(l3, 0), Slot(l3, 1)} by {
      assert forall s :: s in SlotSet(slots) ==> s == slots[0] || s == slots[1] || s == slots[2] || s == slots[3];
    }
    match PopAll(mem, slots)
    case None => Single(Lost(ThreeNodeLostMessage, true))
    case Some(popped) =>
      Multiple([GetResult(fid, [popped.0[0], popped.0[2]]), GetResult(fid, [popped.0[1], popped.0[3]])])
  }

  /** Each plain node's memory has the single position 0. */
  predicate OnePositionPerPlainNode(mem: map<Slot, Qubit>)
  {
    forall s :: s in mem && s.node != "Repeater" && s.node != "RemoteNode" ==> s.position == 0
  }

  /**
   * When the third node is not destination N-1 it is a plain node, whose memory has no
   * position 1: the three-node swap always reports a loss.
   */
  lemma PlainThirdNodeIsLost(fid: Fidelity, mem: map<Slot, Qubit>, N: int, n3: int, l1: string, l2: string)
    requires n3 != N - 1 && OnePositionPerPlainNode(mem)
    ensures ThreeNodeOutcome(fid, mem, l1, l2, Label(N, n3)) == Single(Lost(ThreeNodeLostMessage, true))
  {
    PlainLabel(N, n3);
    assert Slot(Label(N, n3), 1) !in mem;
  }

  // ---------------------------------------------------------------------------
  // Reading the two outcomes of the three-node swap
  // ---------------------------------------------------------------------------

  const NotSubscriptable := "'float' object is not subscriptable"

  /**
   * As written, the three-node swap reads the first outcome from `m[0]["M"][0]` and the
   * second from `m[1]["M"][0]`; but `m[1]` is the measurement's duration, a float, so once
   * the first read succeeds the second raises TypeError. Ok(None) stands for the swallowed
   * MemPositionEmptyError.
   */
  function ThreeNodeStatesAsWritten(reading: BellReading): (r: Result<Option<(int, int)>>)
    ensures r.Ok? ==> r.value.None?
    ensures r == Ok(None) <==> reading.EmptyPosition?
    ensures reading.Outcome? && MOutcome(reading.m).Ok? ==> r == Err(TypeError(NotSubscriptable))
  {
    match reading
    case EmptyPosition => Ok(None)
    case Outcome(m) =>
      match MOutcome(m)
      case Err(e) => Err(e)
      case Ok(_) => Err(TypeError(NotSubscriptable))
  }

  /** With the measurement output `({'M': [1]}, 0.0)` the as-written read raises instead of giving 1. */
  lemma ThreeNodeStatesAsWrittenRaises()
    ensures ThreeNodeStatesAsWritten(Outcome(MeasureOutput(map["M" := [1]], 0.0))) == Err(TypeError(NotSubscriptable))
    ensures MOutcome(MeasureOutput(map["M" := [1]], 0.0)) == Ok(1)
  {
  }

  /**
   * The evident intent: one Bell measurement on repeater positions 0 and 1, one on positions
   * 2 and 3, each outcome read as `m[0]["M"][0]`. Ok(None) when either measurement finds an
   * empty position (the error is swallowed and no correction follows).
   */
  function ThreeNodeStates(first: BellReading, second: BellReading): (r: Result<Option<(int, int)>>)
    ensures r.Ok? && r.value.Some? <==>
              first.Outcome? && second.Outcome? && MOutcome(first.m).Ok? && MOutcome(second.m).Ok?
    ensures r.Ok? && r.value.Some? ==> r.value.value == (MOutcome(first.m).value, MOutcome(second.m).value)
    ensures r.Err? ==>
              || (first.Outcome? && MOutcome(first.m).Err? && r.error == MOutcome(first.m).error)
              || (second.Outcome? && MOutcome(second.m).Err? && r.error == MOutcome(second.m).error)
  {
    match first
    case EmptyPosition => Ok(None)
    case Outcome(m0) =>
      match MOutcome(m0)
      case Err(e) => Err(e)
      case Ok(state) =>
        match second
        case EmptyPosition => Ok(None)
        case Outcome(m1) =>
          match MOutcome(m1)
          case Err(e) => Err(e)
          case Ok(state1) => Ok(Some((state, state1)))
  }

  /** On the same kind of output the intended read gives both outcomes. */
  lemma ThreeNodeStatesReadsBoth()
    ensures ThreeNodeStates(Outcome(MeasureOutput(map["M" := [1]], 0.0)), Outcome(MeasureOutput(map["M" := [2]], 0.0)))
         == Ok(Some((1, 2)))
  {
  }

  // ---------------------------------------------------------------------------
  // The corrections of the three-node swap
  // ---------------------------------------------------------------------------

  /**
   * As written (and reached only once the outcome read is corrected): every gate names its
   * position by a keyword, `positions=0` for outcome 1 of the first measurement and `position=`
   * for all others, where the other calls on these memories pass the positions as the second
   * positional argument. The model takes neither keyword as a target, so every gate is issued
   * without positions.
   */
  function ThreeNodeCorrectionsAsWritten(state: int, state1: int): (r: seq<Instruction>)
    ensures |r| == |InlineCorrections(state)| + |InlineCorrections(state1)|
  {
    Issued(InlineCorrections(state), DefaultPositions) + Issued(InlineCorrections(state1), DefaultPositions)
  }

  /** As written, no remote position receives a targeted gate, whatever the two outcomes. */
  lemma {:induction false} AsWrittenMissesPositions(state: int, state1: int, q: int)
    ensures GatesAt(ThreeNodeCorrectionsAsWritten(state, state1), q) == []
  {
    var first := Issued(InlineCorrections(state), DefaultPositions);
    var second := Issued(InlineCorrections(state1), DefaultPositions);
    GatesAtAppend(first, second, q);
    GatesAtIssued(InlineCorrections(state), 0, q);
    GatesAtIssued(InlineCorrections(state1), 0, q);
  }

  /** Outcomes 2 and 1 call for [Z, X] on position 0 and [X] on position 1; as written, neither is targeted. */
  lemma AsWrittenCounterexample()
    ensures InlineCorrections(2) == [OpZ, OpX] && InlineCorrections(1) == [OpX]
    ensures GatesAt(ThreeNodeCorrectionsAsWritten(2, 1), 0) == [] && GatesAt(ThreeNodeCorrectionsAsWritten(2, 1), 1) == []
  {
    AsWrittenMissesPositions(2, 1, 0);
    AsWrittenMissesPositions(2, 1, 1);
  }

  /** The evident intent: the first outcome's gates at remote position 0, the second's at position 1. */
  function ThreeNodeCorrections(state: int, state1: int): (r: seq<Instruction>)
    ensures |r| == |InlineCorrections(state)| + |InlineCorrections(state1)|
  {
    Issued(InlineCorrections(state), At([0])) + Issued(InlineCorrections(state1), At([1]))
  }

  /** Each remote position receives exactly the correction for its own outcome, and no other position any gate. */
  lemma {:induction false} CorrectionsReachTheirPositions(state: int, state1: int, q: int)
    ensures GatesAt(ThreeNodeCorrections(state, state1), 0) == InlineCorrections(state)
    ensures GatesAt(ThreeNodeCorrections(state, state1), 1) == InlineCorrections(state1)
    ensures q != 0 && q != 1 ==> GatesAt(ThreeNodeCorrections(state, state1), q) == []
  {
    var first := Issued(InlineCorrections(state), At([0]));
    var second := Issued(InlineCorrections(state1), At([1]));
    GatesAtAppend(first, second, 0);
    GatesAtAppend(first, second, 1);
    GatesAtAppend(first, second, q);
    GatesAtIssued(InlineCorrections(state), 0, 1);
    GatesAtIssued(InlineCorrections(state), 0, q);
    GatesAtIssued(InlineCorrections(state1), 1, 0);
    GatesAtIssued(InlineCorrections(state1), 1, q);
  }
}
