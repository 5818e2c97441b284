/**
 * Correction step of entanglement swapping (src/helper/network/entanglement_swapping.py).
 *
 * After the repeater's Bell measurement yields outcome 0..3, the remote node corrects its
 * half of the swapped pair with a fixed list of Pauli gates. The gates are recorded in the
 * remote memory's instruction log; their effect on the qubit is not modelled.
 */
module EntanglementSwapping {
  import opened Common
  import opened Components

  /** The correction table: the gates for each outcome, or None where the lookup raises KeyError. */
  function Corrections(outcome: int): (r: Option<seq<Operation>>)
    ensures r.Some? <==> 0 <= outcome <= 3
    ensures r.Some? ==> forall i :: 0 <= i < |r.value| ==> r.value[i] == OpX || r.value[i] == OpZ
  {
    if outcome == 0 then Some([])
    else if outcome == 1 then Some([OpX])
    else if outcome == 2 then Some([OpZ, OpX])
    else if outcome == 3 then Some([OpZ])
    else None
  }

  /**
   * Reference definition of the correction for Bell state `|ab>`: Z when the first
   * digit is 1, then X when the second digit is 1.
   */
  function PauliCorrection(b: BellIndex): (r: seq<Operation>)
    ensures |r| <= 2
  {
    (if b.ZBit() then [OpZ] else []) + (if b.XBit() then [OpX] else [])
  }

  /** Where `apply_gates` issues an instruction: without positions for -1, else at `[position]`. */
  function TargetOf(position: int): (t: Target)
    ensures position == -1 <==> t == DefaultPositions
    ensures position != -1 ==> t == At([position])
  {
    if position == -1 then DefaultPositions else At([position])
  }

  /** The instructions that issue `ops` in order at `target`, without an output key. */
  function Issued(ops: seq<Operation>, target: Target): (r: seq<Instruction>)
    ensures |r| == |ops|
    ensures forall i :: 0 <= i < |r| ==> r[i] == Instruction(ops[i], target, None)
  {
    seq(|ops|, i requires 0 <= i < |ops| => Instruction(ops[i], target, None))
  }

  /**
   * `apply_gates(curr_state, remote_node_memory, position)`: looks the outcome up in the
   * table (KeyError, and no instruction, for an unknown outcome) and executes each gate in order.
   */
  method ApplyGates(currState: int, memory: QuantumMemory, position: int := -1) returns (s: Status)
    modifies memory`log
    ensures Corrections(currState).None? ==> s == Raised(KeyError(IntToString(currState))) && memory.log == old(memory.log)
    ensures Corrections(currState).Some? ==>
              s == Done && memory.log == old(memory.log) + Issued(Corrections(currState).value, TargetOf(position))
  {
    var table := Corrections(currState);
    if table.None? {
      return Raised(KeyError(IntToString(currState)));
    }
    var instructions := table.value;
    ghost var before := memory.log;
    var i := 0;
    while i < |instructions|
      invariant 0 <= i <= |instructions|
      invariant memory.log == before + Issued(instructions[..i], TargetOf(position))
    {
      var target := if position == -1 then DefaultPositions else At([position]);
      memory.Execute(Instruction(instructions[i], target, None));
      assert Issued(instructions[..i + 1], TargetOf(position))
          == Issued(instructions[..i], TargetOf(position)) + [Instruction(instructions[i], TargetOf(position), None)];
      i := i + 1;
    }
    assert instructions[..i] == instructions;
    return Done;
  }

  // ---------------------------------------------------------------------------
  // Properties of the correction table
  // ---------------------------------------------------------------------------

  /** The table is the Pauli correction of the Bell state the outcome names, and has no other entries. */
  lemma CorrectionsFollowBellLabel(outcome: int)
    ensures BellIndexOf(outcome).Some? ==> Corrections(outcome) == Some(PauliCorrection(BellIndexOf(outcome).value))
    ensures BellIndexOf(outcome).None? <==> Corrections(outcome).None?
  {
    assert PauliCorrection(B00) == [];
    assert PauliCorrection(B01) == [OpX];
    assert PauliCorrection(B11) == [OpZ, OpX];
    assert PauliCorrection(B10) == [OpZ];
  }

  /** 0, 1, 2 and 1 instructions for outcomes 0, 1, 2 and 3. */
  lemma CorrectionCounts()
    ensures |Corrections(0).value| == 0 && |Corrections(1).value| == 1
    ensures |Corrections(2).value| == 2 && |Corrections(3).value| == 1
    ensures Corrections(2).value == [OpZ, OpX]
  {
  }

  /** Gates issued at `[p]` are exactly `ops` at `p`, and nothing at any other position. */
  lemma {:induction false} GatesAtIssued(ops: seq<Operation>, p: int, q: int)
    ensures GatesAt(Issued(ops, At([p])), p) == ops
    ensures q != p ==> GatesAt(Issued(ops, At([p])), q) == []
    ensures GatesAt(Issued(ops, DefaultPositions), q) == []
    decreases |ops|
  {
    if |ops| > 0 {
      var front := ops[..|ops| - 1];
      assert Issued(ops, At([p]))[..|ops| - 1] == Issued(front, At([p]));
      assert Issued(ops, DefaultPositions)[..|ops| - 1] == Issued(front, DefaultPositions);
      GatesAtIssued(front, p, q);
      assert front + [ops[|ops| - 1]] == ops;
    }
  }

  /**
   * After `ApplyGates` at a position, that position's gate history has grown by exactly the
   * table entry and every other position's history is unchanged.
   */
  lemma ApplyGatesHistory(before: seq<Instruction>, outcome: int, position: int, q: int)
    requires Corrections(outcome).Some? && position != -1
    ensures GatesAt(before + Issued(Corrections(outcome).value, TargetOf(position)), position)
         == GatesAt(before, position) + Corrections(outcome).value
    ensures q != position ==>
              GatesAt(before + Issued(Corrections(outcome).value, TargetOf(position)), q) == GatesAt(before, q)
  {
    var ops := Corrections(outcome).value;
    GatesAtAppend(before, Issued(ops, At([position])), position);
    GatesAtAppend(before, Issued(ops, At([position])), q);
    GatesAtIssued(ops, position, q);
  }
}
