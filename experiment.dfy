/**
 * The fidelity-over-length experiment (src/helper/main/Experiment.py): its settings, and the
 * sweep that sets the network's channel length, collects fidelity samples from repeated trials
 * and writes one CSV row per length.
 *
 * One trial, `run_method_with_nodes(method, nodes, debug)` on the network, is a function `Trial`
 * handed in by the caller: given the network's channel length in kilometres and the trial's
 * number within the current length, it yields the method's result or the exception it raised.
 * What a trial does to the network's links, memories and logs is not modelled.
 * Fidelities are reals, and the CSV file is the sequence of lines written to it.
 */
module Experiments {
  import opened Common
  import opened SwapResults
  import opened StarNet

  type Trial = (real, nat) -> Result<TrialResult>

  const DefaultNumEachSimulation: int := 100
  const DefaultCsvPath: string := "../out/data.csv"
  const DefaultFigPath: string := "../out/fidelity-over-length.png"

  // ---------------------------------------------------------------------------
  // Lengths
  // ---------------------------------------------------------------------------

  /** `np.arange(start, stop, step)` for a positive step. */
  function Arange(start: int, stop: int, step: int): seq<int>
    requires step > 0
    decreases stop - start
  {
    if start >= stop then [] else [start] + Arange(start + step, stop, step)
  }

  /** The elements of `np.arange` are `start + i * step`, for every `i` below the count. */
  lemma {:induction false} ArangeElements(start: int, stop: int, step: int, k: nat)
    requires step > 0 && start + k * step <= stop
    ensures |Arange(start, stop, step)| >= k
    ensures forall i :: 0 <= i < k ==> Arange(start, stop, step)[i] == start + i * step
    decreases k
  {
    if k > 0 {
      ArangeElements(start + step, stop, step, k - 1);
      var r := Arange(start, stop, step);
      forall i | 0 <= i < k ensures r[i] == start + i * step {
        if i > 0 {
          assert r[i] == Arange(start + step, stop, step)[i - 1];
        }
      }
    }
  }

  /** `np.arange` stops before `stop`. */
  lemma {:induction false} ArangeBound(start: int, stop: int, step: int, k: nat)
    requires step > 0 && stop <= start + k * step
    ensures |Arange(start, stop, step)| <= k
    decreases k
  {
    if k > 0 && start < stop {
      ArangeBound(start + step, stop, step, k - 1);
    }
  }

  /** The class default `np.arange(10, 1000 + 10, 10)`. */
  function DefaultLengths(): seq<int>
  {
    Arange(10, 1000 + 10, 10)
  }

  /** The default lengths are the 100 values 10, 20, ..., 1000. */
  lemma DefaultLengthsAreTensToThousand()
    ensures |DefaultLengths()| == 100
    ensures forall i :: 0 <= i < 100 ==> DefaultLengths()[i] == 10 * (i + 1)
    ensures DefaultLengths()[0] == 10 && DefaultLengths()[99] == 1000
  {
    ArangeElements(10, 1010, 10, 100);
    ArangeBound(10, 1010, 10, 100);
  }

  // ---------------------------------------------------------------------------
  // Samples
  // ---------------------------------------------------------------------------

  /**
   * What a list result adds: each element's fidelity in index order; the first element without
   * one raises KeyError, which the trial's handler turns into one 0 sample.
   */
  function ListSamples(records: seq<Record>): seq<real>
  {
    if |records| == 0 then []
    else match records[0].FidelityField()
      case Ok(f) => [f] + ListSamples(records[1..])
      case Err(_) => [0.0]
  }

  /** A list of measured records adds their fidelities, one per element, in order. */
  lemma {:induction false} ListSamplesAllMeasured(records: seq<Record>)
    requires forall i :: 0 <= i < |records| ==> records[i].Measured?
    ensures |ListSamples(records)| == |records|
    ensures forall i :: 0 <= i < |records| ==> ListSamples(records)[i] == records[i].fidelity
  {
    if |records| > 0 {
      ListSamplesAllMeasured(records[1..]);
    }
  }

  /** When element `k` is the first lost one, the `k` fidelities before it are kept and one 0 follows. */
  lemma {:induction false} ListSamplesFirstLost(records: seq<Record>, k: nat)
    requires k < |records| && records[k].Lost?
    requires forall i :: 0 <= i < k ==> records[i].Measured?
    ensures |ListSamples(records)| == k + 1
    ensures forall i :: 0 <= i < k ==> ListSamples(records)[i] == records[i].fidelity
    ensures ListSamples(records)[k] == 0.0
  {
    if k > 0 {
      ListSamplesFirstLost(records[1..], k - 1);
    }
  }

  /** `r` with `xs` in front of its samples; an exception stays the exception. */
  function Prefixed(xs: seq<real>, r: Result<seq<real>>): Result<seq<real>>
  {
    match r
    case Ok(ys) => Ok(xs + ys)
    case Err(e) => Err(e)
  }

  /**
   * The samples one trial adds: one for a dictionary (0 when it has no fidelity), the list's
   * samples for a list, one 0 for a KeyError. Any other exception escapes the sweep.
   */
  function TrialSamples(outcome: Result<TrialResult>): (r: Result<seq<real>>)
    ensures r.Err? <==> outcome.Err? && !outcome.error.KeyError?
    ensures r.Err? ==> r.error == outcome.error
    ensures outcome.Err? && outcome.error.KeyError? ==> r == Ok([0.0])
    ensures outcome.Ok? && outcome.value.Single? ==> r.Ok? && |r.value| == 1
    ensures outcome.Ok? && outcome.value.Single? && outcome.value.record.Measured? ==>
              r == Ok([outcome.value.record.fidelity])
  {
    match outcome
    case Err(e) => if e.KeyError? then Ok([0.0]) else Err(e)
    case Ok(Single(rec)) => Ok(match rec.FidelityField() case Ok(f) => [f] case Err(_) => [0.0])
    case Ok(Multiple(records)) => Ok(ListSamples(records))
  }

  lemma PrefixedTwice(xs: seq<real>, ys: seq<real>, r: Result<seq<real>>)
    ensures Prefixed(xs, Prefixed(ys, r)) == Prefixed(xs + ys, r)
  {
    if r.Ok? {
      assert xs + (ys + r.value) == (xs + ys) + r.value;
    }
  }

  /** The samples of trials `from` to `n - 1` at channel length `km`, in trial order. */
  function SamplesFrom(trial: Trial, km: real, from: nat, n: int): Result<seq<real>>
    decreases n - from
  {
    if from >= n then Ok([])
    else match TrialSamples(trial(km, from))
      case Err(e) => Err(e)
      case Ok(xs) => Prefixed(xs, SamplesFrom(trial, km, from + 1, n))
  }

  /** When every trial returns one dictionary, exactly one sample per trial is collected. */
  lemma {:induction false} OneSamplePerSingleTrial(trial: Trial, km: real, from: nat, n: int)
    requires forall t: nat :: from <= t < n ==> trial(km, t).Ok? && trial(km, t).value.Single?
    ensures SamplesFrom(trial, km, from, n).Ok?
    ensures |SamplesFrom(trial, km, from, n).value| == if from >= n then 0 else n - from
    decreases n - from
  {
    if from < n {
      OneSamplePerSingleTrial(trial, km, from + 1, n);
    }
  }

  function Sum(xs: seq<real>): real
  {
    if |xs| == 0 then 0.0 else xs[0] + Sum(xs[1..])
  }

  /** `np.mean`; `None` stands for the `nan` of an empty list. */
  function Mean(xs: seq<real>): Option<real>
  {
    if |xs| == 0 then None else Some(Sum(xs) / |xs| as real)
  }

  lemma {:induction false} SumBounds(xs: seq<real>, lo: real, hi: real)
    requires forall i :: 0 <= i < |xs| ==> lo <= xs[i] <= hi
    ensures |xs| as real * lo <= Sum(xs) <= |xs| as real * hi
  {
    if |xs| > 0 {
      SumBounds(xs[1..], lo, hi);
    }
  }

  /** The mean of samples that all lie in `[lo, hi]` lies in `[lo, hi]`. */
  lemma MeanWithin(xs: seq<real>, lo: real, hi: real)
    requires |xs| > 0
    requires forall i :: 0 <= i < |xs| ==> lo <= xs[i] <= hi
    ensures Mean(xs).Some? && lo <= Mean(xs).value <= hi
  {
    SumBounds(xs, lo, hi);
    var n := |xs| as real;
    assert Sum(xs) / n >= lo by {
      assert Sum(xs) >= n * lo;
    }
    assert Sum(xs) / n <= hi by {
      assert Sum(xs) <= n * hi;
    }
  }

  // ---------------------------------------------------------------------------
  // The sweep
  // ---------------------------------------------------------------------------

  /** A line of the CSV file: the header, or a length and the mean of its samples. */
  datatype Line = Header | Row(length: int, mean: Option<real>)

  /** The lines written and, when the sweep stopped early, the exception that stopped it. */
  datatype Sweep = Sweep(lines: seq<Line>, raised: Option<PyError>)

  /**
   * One length's row: setting `channels_length` raises AssertionError unless the length is
   * positive; otherwise the network's length becomes `length / 1000` for all `n` trials.
   */
  function LengthRow(trial: Trial, length: int, n: int): (r: Result<Line>)
    ensures length <= 0 ==> r == Err(AssertionError)
    ensures r.Ok? ==> r.value.Row? && r.value.length == length
  {
    if length <= 0 then Err(AssertionError)
    else match SamplesFrom(trial, length as real / 1000.0, 0, n)
      case Err(e) => Err(e)
      case Ok(xs) => Ok(Row(length, Mean(xs)))
  }

  /** The rows of `lengths`, in order, up to the first length whose row raises. */
  function RowsFrom(trial: Trial, lengths: seq<int>, n: int): Sweep
  {
    if |lengths| == 0 then Sweep([], None)
    else match LengthRow(trial, lengths[0], n)
      case Err(e) => Sweep([], Some(e))
      case Ok(row) => Prepend([row], RowsFrom(trial, lengths[1..], n))
  }

  function Prepend(lines: seq<Line>, s: Sweep): Sweep
  {
    Sweep(lines + s.lines, s.raised)
  }

  /** One row written: the row of length `i` moves from the rest of the sweep to the lines. */
  lemma RowsFromStep(trial: Trial, lengths: seq<int>, i: nat, n: int, lines: seq<Line>)
    requires i < |lengths| && LengthRow(trial, lengths[i], n).Ok?
    ensures Prepend(lines, RowsFrom(trial, lengths[i..], n))
            == Prepend(lines + [LengthRow(trial, lengths[i], n).value], RowsFrom(trial, lengths[i + 1..], n))
  {
    assert lengths[i..][0] == lengths[i] && lengths[i..][1..] == lengths[i + 1..];
  }

  /** What `run` writes: the header, then the rows. */
  function RunSweep(trial: Trial, lengths: seq<int>, n: int): Sweep
  {
    Prepend([Header], RowsFrom(trial, lengths, n))
  }

  /**
   * The rows are those of the lengths in order: all of them when nothing raised, otherwise those
   * before the first length whose row raised, and that row's exception.
   */
  lemma {:induction false} RowsInOrder(trial: Trial, lengths: seq<int>, n: int)
    ensures var s := RowsFrom(trial, lengths, n);
            && |s.lines| <= |lengths|
            && (forall i :: 0 <= i < |s.lines| ==> LengthRow(trial, lengths[i], n) == Ok(s.lines[i]))
            && (s.raised.None? <==> |s.lines| == |lengths|)
            && (s.raised.Some? ==> LengthRow(trial, lengths[|s.lines|], n) == Err(s.raised.value))
  {
    if |lengths| > 0 {
      RowsInOrder(trial, lengths[1..], n);
    }
  }

  /** Without exceptions the default sweep writes 101 lines: the header and one row per length. */
  lemma DefaultSweepLines(trial: Trial, n: int)
    requires RunSweep(trial, DefaultLengths(), n).raised.None?
    ensures var lines := RunSweep(trial, DefaultLengths(), n).lines;
            && |lines| == 101 && lines[0] == Header
            && forall i :: 1 <= i < 101 ==> lines[i].Row? && lines[i].length == 10 * i
  {
    DefaultLengthsAreTensToThousand();
    RowsInOrder(trial, DefaultLengths(), n);
  }

  // ---------------------------------------------------------------------------
  // The CSV text
  // ---------------------------------------------------------------------------

  /** A line without its CRLF ending; `show` renders a mean as the f-string does. */
  function LineBody(line: Line, show: real -> string): string
  {
    match line
    case Header => "length,fidelity"
    case Row(length, mean) => IntToString(length) + "," + (if mean.Some? then show(mean.value) else "nan")
  }

  /** What `f.write` receives for a line. */
  function LineText(line: Line, show: real -> string): string
  {
    LineBody(line, show) + "\r\n"
  }

  /** The file's contents. */
  function CsvText(lines: seq<Line>, show: real -> string): string
  {
    if |lines| == 0 then "" else LineText(lines[0], show) + CsvText(lines[1..], show)
  }

  function Records(lines: seq<Line>, show: real -> string): (r: seq<string>)
    ensures |r| == |lines|
  {
    seq(|lines|, i requires 0 <= i < |lines| => LineBody(lines[i], show) + "\r")
  }

  lemma {:induction false} CsvIsTerminated(lines: seq<Line>, show: real -> string)
    ensures CsvText(lines, show) == Terminated(Records(lines, show))
  {
    if |lines| > 0 {
      CsvIsTerminated(lines[1..], show);
      var records := Records(lines, show);
      var body := LineBody(lines[0], show);
      assert records[0] == body + "\r";
      assert records[1..] == Records(lines[1..], show);
      assert CsvText(lines, show) == LineText(lines[0], show) + CsvText(lines[1..], show);
      assert Terminated(records) == records[0] + "\n" + Terminated(records[1..]);
      CrlfIsCrThenNewline(body, CsvText(lines[1..], show));
    }
  }

  lemma CrlfIsCrThenNewline(body: string, rest: string)
    ensures body + "\r\n" + rest == body + "\r" + "\n" + rest
  {
    assert body + "\r\n" == body + "\r" + "\n";
  }

  lemma DigitsHaveNoNewline(i: int)
    ensures '\n' !in IntToString(i)
  {
    var digits := NatToString(if i < 0 then -i else i);
    forall k | 0 <= k < |digits| ensures digits[k] != '\n' {
      assert IsDigit(digits[k]);
    }
    assert IntToString(i) == digits || IntToString(i) == "-" + digits;
  }

  lemma LineBodyHasNoNewline(line: Line, show: real -> string)
    requires forall x :: '\n' !in show(x)
    ensures '\n' !in LineBody(line, show)
  {
    match line
    case Header =>
      var h := "length,fidelity";
      forall k | 0 <= k < |h| ensures h[k] != '\n' {}
    case Row(length, mean) =>
      DigitsHaveNoNewline(length);
      var shown := if mean.Some? then show(mean.value) else "nan";
      if mean.Some? {
        var m := mean.value;
        assert '\n' !in show(m);
      } else {
        forall k | 0 <= k < |shown| ensures shown[k] != '\n' {}
      }
      assert LineBody(line, show) == IntToString(length) + "," + shown;
  }

  /**
   * The file is one record per line, each ended by CRLF (the record delimiter of section 2 of
   * RFC 4180): split at the newlines it gives each line's text followed by a carriage return,
   * then the empty text after the last newline.
   */
  lemma CsvRecordsEndInCrlf(lines: seq<Line>, show: real -> string)
    requires forall x :: '\n' !in show(x)
    ensures Split(CsvText(lines, show), '\n') == Records(lines, show) + [""]
    ensures forall i :: 0 <= i < |lines| ==> Records(lines, show)[i] == LineBody(lines[i], show) + "\r"
  {
    CsvIsTerminated(lines, show);
    var records := Records(lines, show);
    forall i | 0 <= i < |records| ensures '\n' !in records[i] {
      LineBodyHasNoNewline(lines[i], show);
      assert records[i] == LineBody(lines[i], show) + "\r";
    }
    SplitTerminated(records);
  }

  // ---------------------------------------------------------------------------
  // The experiment object
  // ---------------------------------------------------------------------------

  /**
   * The network's channel length after a sweep that wrote `k` rows: the last length whose setter
   * call succeeded, in km. When the sweep stopped at length `k`, its setter either raised (a
   * length that is not positive, the previous value stays) or succeeded before a trial raised.
   */
  function LengthAfterSweep(initial: real, lengths: seq<int>, k: nat, stopped: bool): (km: real)
    requires k <= |lengths|
    ensures !stopped && k == |lengths| && k > 0 ==> km == lengths[k - 1] as real / 1000.0
    ensures k == 0 && !(stopped && k < |lengths| && lengths[0] > 0) ==> km == initial
  {
    if stopped && k < |lengths| && lengths[k] > 0 then lengths[k] as real / 1000.0
    else if k > 0 then lengths[k - 1] as real / 1000.0
    else initial
  }

  class Experiment {
    var numEachSimulation: int
    var csvPath: string
    var figPath: string
    /** `_lengths`: the class default; the class offers no setter for it. */
    var lengths: seq<int>
    const verbose: bool
    const network: StarNetwork

    /** `Experiment(network, verbose)`: the class defaults, on the given network. */
    constructor (network: StarNetwork, verbose: bool := false)
      ensures this.network == network && this.verbose == verbose
      ensures numEachSimulation == DefaultNumEachSimulation
      ensures csvPath == DefaultCsvPath && figPath == DefaultFigPath
      ensures lengths == DefaultLengths()
    {
      this.network := network;
      this.verbose := verbose;
      numEachSimulation := DefaultNumEachSimulation;
      csvPath := DefaultCsvPath;
      figPath := DefaultFigPath;
      lengths := DefaultLengths();
    }

    /** The `num_each_simulation` setter: AssertionError unless the value is positive. */
    method SetNumEachSimulation(value: int) returns (s: Status)
      modifies this`numEachSimulation
      ensures s == Done <==> value > 0
      ensures s == Done ==> numEachSimulation == value
      ensures s != Done ==> s == Raised(AssertionError) && numEachSimulation == old(numEachSimulation)
    {
      if !(value > 0) {
        return Raised(AssertionError);
      }
      numEachSimulation := value;
      s := Done;
    }

    /** The `csv_path` setter: AssertionError unless the name contains ".csv". */
    method SetCsvPath(filename: string) returns (s: Status)
      modifies this`csvPath
      ensures s == Done <==> Contains(filename, ".csv")
      ensures s == Done ==> csvPath == filename
      ensures s != Done ==> s == Raised(AssertionError) && csvPath == old(csvPath)
    {
      if !Contains(filename, ".csv") {
        return Raised(AssertionError);
      }
      csvPath := filename;
      s := Done;
    }

    /** The `fig_path` setter: AssertionError unless the name contains ".png". */
    method SetFigPath(filename: string) returns (s: Status)
      modifies this`figPath
      ensures s == Done <==> Contains(filename, ".png")
      ensures s == Done ==> figPath == filename
      ensures s != Done ==> s == Raised(AssertionError) && figPath == old(figPath)
    {
      if !Contains(filename, ".png") {
        return Raised(AssertionError);
      }
      figPath := filename;
      s := Done;
    }

    /**
     * `run(method, nodes, debug)`, with `trial` standing for one call of the method on the
     * network: for each length, set the network's channel length, run `numEachSimulation`
     * trials collecting samples, and write the row with their mean. The file and the plot
     * are left out; the result is the lines written and the exception that ended the run early.
     */
    method Run(trial: Trial) returns (sweep: Sweep)
      modifies network`channelsLength, network`channels, network`portPairs
      ensures sweep == RunSweep(trial, lengths, numEachSimulation)
      ensures network.channels == old(network.channels) && network.portPairs == old(network.portPairs)
      ensures 1 <= |sweep.lines| <= |lengths| + 1
      ensures sweep.raised.None? ==> |sweep.lines| == |lengths| + 1
      ensures network.channelsLength
              == LengthAfterSweep(old(network.channelsLength), lengths, |sweep.lines| - 1, sweep.raised.Some?)
    {
      var n := numEachSimulation;
      var lines := [Header];
      var i := 0;
      ghost var initial := network.channelsLength;
      while i < |lengths|
        invariant 0 <= i <= |lengths|
        invariant network.channels == old(network.channels) && network.portPairs == old(network.portPairs)
        invariant |lines| == i + 1
        invariant network.channelsLength == LengthAfterSweep(initial, lengths, i, false)
        invariant RunSweep(trial, lengths, n) == Prepend(lines, RowsFrom(trial, lengths[i..], n))
      {
        var length := lengths[i];
        assert lengths[i..][0] == length && lengths[i..][1..] == lengths[i + 1..];
        var s := network.SetChannelsLength(length as real);
        if s.Raised? {
          assert length <= 0;
          return Sweep(lines, Some(s.error));
        }
        assert length > 0 && network.channelsLength == length as real / 1000.0;
        var fidelityValues := CollectSamples(trial, network.channelsLength, n);
        if fidelityValues.Err? {
          return Sweep(lines, Some(fidelityValues.error));
        }
        assert LengthRow(trial, length, n) == Ok(Row(length, Mean(fidelityValues.value)));
        RowsFromStep(trial, lengths, i, n, lines);
        lines := lines + [Row(length, Mean(fidelityValues.value))];
        assert network.channelsLength == LengthAfterSweep(initial, lengths, i + 1, false);
        i := i + 1;
      }
      assert lengths[i..] == [];
      sweep := Sweep(lines, None);
    }
  }

  /**
   * The trials of one length, as `run`'s inner loop makes them: `n` trials at channel length
   * `km`, each adding its samples, a KeyError adding one 0; any other exception ends the loop.
   */
  method CollectSamples(trial: Trial, km: real, n: int) returns (r: Result<seq<real>>)
    ensures r == SamplesFrom(trial, km, 0, n)
  {
    var fidelityValues: seq<real> := [];
    var t: nat := 0;
    assert Prefixed([], SamplesFrom(trial, km, 0, n)) == SamplesFrom(trial, km, 0, n) by {
      if SamplesFrom(trial, km, 0, n).Ok? {
        assert [] + SamplesFrom(trial, km, 0, n).value == SamplesFrom(trial, km, 0, n).value;
      }
    }
    while t < n
      invariant t <= n || t == 0
      invariant SamplesFrom(trial, km, 0, n) == Prefixed(fidelityValues, SamplesFrom(trial, km, t, n))
    {
      var added: seq<real>;
      match trial(km, t) {
        case Err(e) =>
          if !e.KeyError? {
            return Err(e);
          }
          added := [0.0];
        case Ok(Single(record)) =>
          match record.FidelityField() {
            case Ok(f) => added := [f];
            case Err(_) => added := [0.0];
          }
        case Ok(Multiple(records)) =>
          added := ListFidelities(records);
      }
      assert TrialSamples(trial(km, t)) == Ok(added);
      PrefixedTwice(fidelityValues, added, SamplesFrom(trial, km, t + 1, n));
      fidelityValues := fidelityValues + added;
      t := t + 1;
    }
    assert fidelityValues + [] == fidelityValues;
    r := Ok(fidelityValues);
  }

  /**
   * The loop over a list result: each element's fidelity in index order, and at the first
   * element without one, the handler's 0 in place of the KeyError.
   */
  method ListFidelities(records: seq<Record>) returns (values: seq<real>)
    ensures values == ListSamples(records)
  {
    values := [];
    var idx := 0;
    while idx < |records|
      invariant 0 <= idx <= |records|
      invariant ListSamples(records) == values + ListSamples(records[idx..])
    {
      assert records[idx..][1..] == records[idx + 1..];
      match records[idx].FidelityField() {
        case Ok(f) =>
          values := values + [f];
        case Err(_) =>
          values := values + [0.0];
          return;
      }
      idx := idx + 1;
    }
    assert values + [] == values;
  }
}
