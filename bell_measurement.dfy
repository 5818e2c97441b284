/**
 * The repeater's Bell measurement and its report
 * (src/helper/network/entanglement_swapping_utils/bell_measurement.py).
 */
module BellMeasurement {
  import opened Common
  import opened Components

  /**
   * What `execute_instruction` returns for a measurement: the outcomes per output key
   * and the time the program took, as in `({'M': [1]}, 0.0)`.
   */
  datatype MeasureOutput = MeasureOutput(outputs: map<string, seq<int>>, duration: real)

  /** The Bell-measurement instruction `perform_bell_measurement` issues for `positions`. */
  function BellInstruction(positions: seq<int>): (r: Instruction)
    ensures r.op == OpMeasureBell && r.outputKey == Some("M")
    ensures |positions| == 0 <==> r.target == DefaultPositions
    ensures |positions| > 0 ==> r.target == At(positions)
  {
    if |positions| == 0 then Instruction(OpMeasureBell, DefaultPositions, Some("M"))
    else Instruction(OpMeasureBell, At(positions), Some("M"))
  }

  /**
   * `perform_bell_measurement(memory, positions)`: one Bell measurement, without positions when
   * the list is empty, and the library's `result` handed back unchanged.
   */
  method PerformBellMeasurement(memory: QuantumMemory, positions: seq<int>, result: MeasureOutput)
    returns (m: MeasureOutput)
    modifies memory`log
    ensures memory.log == old(memory.log) + [BellInstruction(positions)]
    ensures m == result
  {
    if |positions| == 0 {
      memory.Execute(Instruction(OpMeasureBell, DefaultPositions, Some("M")));
    } else {
      memory.Execute(Instruction(OpMeasureBell, At(positions), Some("M")));
    }
    m := result;
  }

  const Heading := "Bell measurement in repeater:"
  const IndicesLabel := "M/Indices format for the states: "
  const KetLabel := "B/Bell states/" + "Ket vectors " + "format for the states: "

  /** The four lines of the report, without their newlines. */
  function ReportLines(mText: string, state: int): seq<string>
  {
    [ Heading,
      "m= " + mText + ", state:",
      IndicesLabel + IntToString(state),
      KetLabel + IntToString(state) ]
  }

  /**
   * `print_bell_measurement(m, state)`, given `mText`, the text of `m`: the message it prints
   * and returns. `BellIndex(state)` raises ValueError outside 0..3; inside, the f-string renders
   * the index by its integer value.
   */
  function PrintBellMeasurement(mText: string, state: int): (r: Result<string>)
    ensures r.Err? <==> BellIndexOf(state).None?
    ensures r.Err? ==> r.error.ValueError?
  {
    match BellIndexOf(state)
    case None => Err(ValueError(IntToString(state) + " is not a valid BellIndex"))
    case Some(b) =>
      var msg := Heading + "\n";
      var msg := msg + "m= " + mText + ", state:" + "\n";
      var msg := msg + IndicesLabel + IntToString(state) + "\n";
      Ok(msg + KetLabel + IntToString(b.Index()) + "\n")
  }

  lemma LabelsHaveNoNewline()
    ensures '\n' !in Heading && '\n' !in IndicesLabel && '\n' !in KetLabel
  {
    forall i | 0 <= i < |Heading| ensures Heading[i] != '\n' {}
    forall i | 0 <= i < |IndicesLabel| ensures IndicesLabel[i] != '\n' {}
    forall i | 0 <= i < |KetLabel| ensures KetLabel[i] != '\n' {}
  }

  /** The report's text is its four lines, each followed by a newline. */
  lemma ReportIsTerminatedLines(mText: string, state: int)
    requires 0 <= state <= 3
    ensures PrintBellMeasurement(mText, state).Ok?
    ensures PrintBellMeasurement(mText, state).value == Terminated(ReportLines(mText, state))
  {
    var digits := IntToString(state);
    assert BellIndexOf(state).value.Index() == state;
    var m1 := Heading + "\n";
    var m2 := m1 + "m= " + mText + ", state:" + "\n";
    var m3 := m2 + IndicesLabel + digits + "\n";
    assert PrintBellMeasurement(mText, state).value == m3 + KetLabel + digits + "\n";
    assert m1 + "m= " + mText + ", state:" == m1 + ("m= " + mText + ", state:");
    assert m2 + IndicesLabel + digits == m2 + (IndicesLabel + digits);
    assert m3 + KetLabel + digits == m3 + (KetLabel + digits);
    FourLinesTerminated(Heading, "m= " + mText + ", state:", IndicesLabel + digits, KetLabel + digits);
  }

  /** No line of the report holds a newline when the text of `m` holds none. */
  lemma ReportLinesHaveNoNewline(mText: string, state: int)
    requires '\n' !in mText && 0 <= state <= 3
    ensures forall i :: 0 <= i < |ReportLines(mText, state)| ==> '\n' !in ReportLines(mText, state)[i]
  {
    var digits := IntToString(state);
    assert digits == NatToString(state);
    assert '\n' !in digits by {
      forall k | 0 <= k < |digits| ensures digits[k] != '\n' {
        assert IsDigit(digits[k]);
      }
    }
    LabelsHaveNoNewline();
    assert '\n' !in "m= " && '\n' !in ", state:";
  }

  /**
   * The report is exactly four newline-terminated lines, in order, when the text of `m`
   * holds no newline.
   */
  lemma ReportIsFourLines(mText: string, state: int)
    requires '\n' !in mText && 0 <= state <= 3
    ensures PrintBellMeasurement(mText, state).Ok?
    ensures Split(PrintBellMeasurement(mText, state).value, '\n') == ReportLines(mText, state) + [""]
  {
    ReportIsTerminatedLines(mText, state);
    ReportLinesHaveNoNewline(mText, state);
    SplitTerminated(ReportLines(mText, state));
  }
}
