/**
 * Result records of an entanglement swap (src/helper/network/entanglement_swapping_utils/results.py,
 * and the identical definitions at the end of src/helper/network/entanglement_swapping.py).
 *
 * Qubits are opaque handles. The library's fidelity computation is an uninterpreted
 * function `Fidelity` handed in by the caller: it maps a list of qubits and a reference
 * Bell state to a real.
 */
module SwapResults {
  import opened Common
  import opened Components

  /** A qubit handle, named as the simulator names it. */
  datatype Qubit = Qubit(name: string)

  /** The library's `qubits.fidelity(qubits, reference)`. */
  type Fidelity = (seq<Qubit>, BellIndex) -> real

  /**
   * A result dictionary: `{"qubits", "fidelity", "error"}` after a successful swap or
   * `{"message", "error"}` when a qubit was lost.
   */
  datatype Record =
    | Measured(qubits: seq<Qubit>, fidelity: real, error: bool)
    | Lost(message: string, error: bool)
  {
    /** The dictionary's keys in insertion order. */
    function Keys(): seq<string>
    {
      match this
      case Measured(_, _, _) => ["qubits", "fidelity", "error"]
      case Lost(_, _) => ["message", "error"]
    }

    /** `record["fidelity"]`: KeyError when the dictionary has no such key. */
    function FidelityField(): (r: Result<real>)
      ensures r.Ok? <==> "fidelity" in Keys()
      ensures r.Err? ==> r.error == KeyError("fidelity")
    {
      match this
      case Measured(_, f, _) => Ok(f)
      case Lost(_, _) => Err(KeyError("fidelity"))
    }
  }

  /** What a trial returns: one dictionary, or a list of them. */
  datatype TrialResult = Single(record: Record) | Multiple(records: seq<Record>)

  /** `calc_fidelity(pair, reference_state=b00)`. */
  function CalcFidelity(fid: Fidelity, pair: seq<Qubit>, reference: Option<BellIndex> := None): (r: real)
    ensures reference.None? ==> r == fid(pair, B00)
    ensures reference.Some? ==> r == fid(pair, reference.value)
  {
    fid(pair, if reference.Some? then reference.value else B00)
  }

  /** `get_result(pair)`. */
  function GetResult(fid: Fidelity, pair: seq<Qubit>): (r: Record)
    ensures r.Keys() == ["qubits", "fidelity", "error"]
    ensures r.Measured? && r.qubits == pair && !r.error
    ensures r.FidelityField() == Ok(CalcFidelity(fid, pair))
  {
    Measured(pair, CalcFidelity(fid, pair), false)
  }

  /** `get_results(pair1, pair2)`: pair1's record, then pair2's. */
  function GetResults(fid: Fidelity, pair1: seq<Qubit>, pair2: seq<Qubit>): (r: seq<Record>)
    ensures |r| == 2
    ensures r[0] == GetResult(fid, pair1) && r[1] == GetResult(fid, pair2)
    ensures forall i :: 0 <= i < |r| ==> r[i].Measured? && !r[i].error
  {
    [GetResult(fid, pair1), GetResult(fid, pair2)]
  }
}
