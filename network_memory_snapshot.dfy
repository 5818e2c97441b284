/**
 * The earlier memory snapshot of the star network (src/network/MemorySnapshot.py): a fixed four
 * repeater positions, position 0 of each end node and two remote-node positions, read through the
 * same keyed dictionary as the helper snapshot, and a report that is printed but not returned.
 */
module NetworkSnapshot {
  import opened Common
  import HelperSnapshot

  /** The snapshot's end nodes and the remote node's number, which the constructor checks. */
  datatype MemorySnapshot = MemorySnapshot(node1: int, node2: int, node4: int)
  {
    /** `repeater()`: the repeater's four positions 0 to 3. */
    function Repeater(): (l: HelperSnapshot.Listing)
      ensures |l.names| == |l.positions| == 4
      ensures forall i :: 0 <= i < 4 ==> l.names[i] == "Repeater" && l.positions[i] == i
    {
      HelperSnapshot.Listing(["Repeater", "Repeater", "Repeater", "Repeater"], [0, 1, 2, 3])
    }

    /** `nodes()`: position 0 of each end node. */
    function Nodes(): (l: HelperSnapshot.Listing)
      ensures l.names == ["Node" + IntToString(node1), "Node" + IntToString(node2)]
      ensures l.positions == [0, 0]
    {
      HelperSnapshot.Listing(["Node" + IntToString(node1), "Node" + IntToString(node2)], [0, 0])
    }

    /** `remote_node()`: the remote node's positions 0 and 1. */
    function RemoteNode(): (l: HelperSnapshot.Listing)
      ensures |l.names| == |l.positions| == 2
      ensures forall i :: 0 <= i < 2 ==> l.names[i] == "RemoteNode" && l.positions[i] == i
    {
      HelperSnapshot.Listing(["RemoteNode", "RemoteNode"], [0, 1])
    }

    /** The helper snapshot with the positions this one reads: 4 repeater, 1 per node, 2 remote. */
    function AsHelper(): HelperSnapshot.MemorySnapshot
    {
      HelperSnapshot.MemorySnapshot(node1, node2, 4, 1, 2)
    }
  }

  /** `MemorySnapshot(network, node1, node2, node4)`: AssertionError unless `node4` is 4. */
  function NewMemorySnapshot(node1: int, node2: int, node4: int): (r: Result<MemorySnapshot>)
    ensures r.Ok? <==> node4 == 4
    ensures r.Ok? ==> r.value == MemorySnapshot(node1, node2, 4)
    ensures r.Err? ==> r.error == AssertionError
  {
    if node4 != 4 then Err(AssertionError) else Ok(MemorySnapshot(node1, node2, node4))
  }

  /** The three fixed listings are those of the helper snapshot with 4, 1 and 2 positions. */
  lemma SameListingsAsHelper(s: MemorySnapshot)
    ensures s.Repeater() == s.AsHelper().Repeater()
    ensures s.Nodes() == s.AsHelper().Nodes()
    ensures s.RemoteNode() == s.AsHelper().RemoteNode()
  {
    var h := s.AsHelper();
    assert h.Repeater().names == s.Repeater().names;
    assert h.Repeater().positions == s.Repeater().positions;
    assert h.Nodes().positions == [0, 0];
    assert h.RemoteNode().names == s.RemoteNode().names;
    assert h.RemoteNode().positions == s.RemoteNode().positions;
  }

  /**
   * The item lines of `[repeater(), nodes(), remote_node()]`, read in that order: the exception of
   * the first reading that raises, or the lines `f"{k}: {v}"` of the three dictionaries in order.
   */
  function ItemLines(peek: HelperSnapshot.Peek, s: MemorySnapshot): Result<seq<string>>
  {
    match HelperSnapshot.MultiAccess(peek, s.Repeater())
    case Err(e) => Err(e)
    case Ok(d1) =>
      match HelperSnapshot.MultiAccess(peek, s.Nodes())
      case Err(e) => Err(e)
      case Ok(d2) =>
        match HelperSnapshot.MultiAccess(peek, s.RemoteNode())
        case Err(e) => Err(e)
        case Ok(d3) => Ok(HelperSnapshot.Items(d1) + HelperSnapshot.Items(d2) + HelperSnapshot.Items(d3))
  }

  /** Both snapshots read the same positions in the same order, so they raise or yield alike. */
  lemma ItemLinesAsHelper(s: MemorySnapshot, peek: HelperSnapshot.Peek)
    ensures ItemLines(peek, s) == HelperSnapshot.ItemLines(peek, s.AsHelper())
  {
    SameListingsAsHelper(s);
  }

  /**
   * One line per memory position: eight of them, or seven when both end nodes are the same node,
   * whose two readings share the key `Node<n>_m0`; joined by newlines they split back into the
   * same lines when no reading holds a newline.
   */
  lemma ItemLineCount(s: MemorySnapshot, peek: HelperSnapshot.Peek)
    requires ItemLines(peek, s).Ok?
    requires forall n, q :: peek(n, q).Ok? ==> '\n' !in peek(n, q).value
    ensures |ItemLines(peek, s).value| == (if s.node1 == s.node2 then 7 else 8)
    ensures Split(Join(ItemLines(peek, s).value, "\n"), '\n') == ItemLines(peek, s).value
  {
    var h := s.AsHelper();
    ItemLinesAsHelper(s, peek);
    HelperSnapshot.OneLinePerPosition(h, peek);
    assert HelperSnapshot.PositionCount(h) == (if s.node1 == s.node2 then 7 else 8);
  }

  /**
   * `show_all_memory_positions(initial, end, width)`: prints the rule and the initial message
   * before reading when that message is not empty, then the item lines joined by newlines, then
   * the end message and the rule when that message is not empty; it returns nothing. A read that
   * raises ends the call after the first print.
   */
  function ShowAllMemoryPositions(s: MemorySnapshot, peek: HelperSnapshot.Peek, initial: string, end: string,
                                  width: int): (p: HelperSnapshot.Printout<Status>)
    ensures p.outcome.Done? <==> ItemLines(peek, s).Ok?
    ensures p.outcome.Raised? ==> p.outcome.error == ItemLines(peek, s).error
    ensures |p.printed| == (if initial != "" then 1 else 0) + (if p.outcome.Done? then 1 else 0)
                           + (if p.outcome.Done? && end != "" then 1 else 0)
    ensures initial != "" ==> p.printed[0] == Repeat('-', width) + "\n" + initial
    ensures p.outcome.Done? && end != "" ==> p.printed[|p.printed| - 1] == end + "\n" + Repeat('-', width)
  {
    var line := Repeat('-', width);
    var header := if initial != "" then [line + "\n" + initial] else [];
    match ItemLines(peek, s)
    case Err(e) => HelperSnapshot.Printout(header, Raised(e))
    case Ok(lines) =>
      HelperSnapshot.Printout(header + [Join(lines, "\n")] + (if end != "" then [end + "\n" + line] else []), Done)
  }

  /** The helper's footer is this report's footer after the prefix. */
  lemma FooterAfterPrefix(prefix: string, end: string, line: string)
    ensures prefix + end + "\n" + line == prefix + (end + "\n" + line)
  {
  }

  /**
   * The report prints what the helper snapshot with 4, 1 and 2 positions prints, except that its
   * footer is the end message alone rather than the end message after the fixed expectation text.
   */
  lemma PrintsLikeHelper(s: MemorySnapshot, peek: HelperSnapshot.Peek, initial: string, end: string, width: int)
    ensures var p := ShowAllMemoryPositions(s, peek, initial, end, width);
            var q := HelperSnapshot.ShowAllMemoryPositions(s.AsHelper(), peek, initial, end, width);
            && (p.outcome.Done? <==> q.outcome.Ok?)
            && (p.outcome.Raised? ==> p.outcome.error == q.outcome.error)
            && (p.outcome.Done? && end != "" ==>
                  q.printed == p.printed[..|p.printed| - 1] + [HelperSnapshot.EndPrefix + p.printed[|p.printed| - 1]])
            && (!(p.outcome.Done? && end != "") ==> q.printed == p.printed)
  {
    ItemLinesAsHelper(s, peek);
    var line := Repeat('-', width);
    var header := if initial != "" then [line + "\n" + initial] else [];
    match ItemLines(peek, s)
    case Err(e) =>
    case Ok(lines) =>
      var p := ShowAllMemoryPositions(s, peek, initial, end, width);
      if end != "" {
        var footer := end + "\n" + line;
        assert p.printed == header + [Join(lines, "\n")] + [footer];
        assert p.printed[..|p.printed| - 1] == header + [Join(lines, "\n")];
        FooterAfterPrefix(HelperSnapshot.EndPrefix, end, line);
      }
  }
}
