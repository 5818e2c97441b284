/**
 * The memory snapshot of the star network (src/helper/network/MemorySnapshot.py): which memory
 * positions of the repeater, the two end nodes and the remote node are read, the keys the
 * readings are stored under, and the report assembled from them.
 *
 * Reading a position, `network.subcomponents[name].qmemory.peek(position)` unpacked to one
 * element, is a function `Peek` handed in by the caller: it yields the text of the element
 * (`str` of the qubit, "None" for an empty position) or the exception raised.
 */
module HelperSnapshot {
  import opened Common

  type Peek = (string, int) -> Result<string>

  /** The `(names, positions)` pair the listing methods return. */
  datatype Listing = Listing(names: seq<string>, positions: seq<int>)

  /** The snapshot's settings: the two end nodes and the number of positions read per memory. */
  datatype MemorySnapshot = MemorySnapshot(node1: int, node2: int, repeaterMemPositions: int,
                                           nodeMemPositions: int, remoteNodeMemPositions: int)
  {
    /** `repeater()`: every repeater position, in order. */
    function Repeater(): (l: Listing)
      ensures |l.names| == |l.positions| == (if repeaterMemPositions < 0 then 0 else repeaterMemPositions)
      ensures forall i :: 0 <= i < |l.names| ==> l.names[i] == "Repeater" && l.positions[i] == i
    {
      Listing(Repeat("Repeater", repeaterMemPositions), Range(repeaterMemPositions))
    }

    /** `nodes()`: the two node names, and the positions `range(m)` twice over. */
    function Nodes(): (l: Listing)
      ensures l.names == ["Node" + IntToString(node1), "Node" + IntToString(node2)]
      ensures |l.positions| == 2 * (if nodeMemPositions < 0 then 0 else nodeMemPositions)
      ensures forall i :: 0 <= i < |l.positions| ==> l.positions[i] == if i < nodeMemPositions then i else i - nodeMemPositions
    {
      Listing(["Node" + IntToString(node1), "Node" + IntToString(node2)],
              Range(nodeMemPositions) + Range(nodeMemPositions))
    }

    /** `remote_node()`: every remote-node position, in order. */
    function RemoteNode(): (l: Listing)
      ensures |l.names| == |l.positions| == (if remoteNodeMemPositions < 0 then 0 else remoteNodeMemPositions)
      ensures forall i :: 0 <= i < |l.names| ==> l.names[i] == "RemoteNode" && l.positions[i] == i
    {
      Listing(Repeat("RemoteNode", remoteNodeMemPositions), Range(remoteNodeMemPositions))
    }
  }

  /** `MemorySnapshot(network, node1, node2, node4, ...)`: AssertionError unless `node4` is 4. */
  function NewMemorySnapshot(node1: int, node2: int, node4: int, repeaterMemPositions: int,
                             nodeMemPositions: int, remoteNodeMemPositions: int): (r: Result<MemorySnapshot>)
    ensures r.Ok? <==> node4 == 4
    ensures r.Ok? ==> r.value == MemorySnapshot(node1, node2, repeaterMemPositions, nodeMemPositions,
                                                remoteNodeMemPositions)
    ensures r.Err? ==> r.error == AssertionError
  {
    if node4 != 4 then Err(AssertionError)
    else Ok(MemorySnapshot(node1, node2, repeaterMemPositions, nodeMemPositions, remoteNodeMemPositions))
  }

  // ---------------------------------------------------------------------------
  // multi_access
  // ---------------------------------------------------------------------------

  /** The key `f"{name}_m{pos}"`. */
  function Key(name: string, pos: int): string
  {
    name + "_m" + IntToString(pos)
  }

  /** One read of the comprehension: the key it is stored under, the memory and the position. */
  datatype Read = Read(key: string, name: string, pos: int)

  /** `zip(names, positions)` with each pair's key: in order, as many as the shorter list has. */
  function Reads(names: seq<string>, positions: seq<int>): (r: seq<Read>)
    ensures |r| == if |names| < |positions| then |names| else |positions|
    ensures forall i :: 0 <= i < |r| ==> r[i] == Read(Key(names[i], positions[i]), names[i], positions[i])
  {
    if |names| == 0 || |positions| == 0 then []
    else [Read(Key(names[0], positions[0]), names[0], positions[0])] + Reads(names[1..], positions[1..])
  }

  /** A dictionary from keys to texts, as its items in insertion order. */
  type Dict = seq<(string, string)>

  predicate HasKey(d: Dict, k: string)
  {
    exists i :: 0 <= i < |d| && d[i].0 == k
  }

  /** The items of `d` with the value of key `k` replaced by `v`. */
  function Replace(d: Dict, k: string, v: string): (r: Dict)
    ensures |r| == |d|
    ensures forall i :: 0 <= i < |d| ==> r[i] == if d[i].0 == k then (k, v) else d[i]
  {
    if |d| == 0 then [] else [if d[0].0 == k then (k, v) else d[0]] + Replace(d[1..], k, v)
  }

  /** `d[k] = v`: a new key goes last, an existing one keeps its place and takes the new value. */
  function Put(d: Dict, k: string, v: string): (r: Dict)
    ensures HasKey(d, k) ==> |r| == |d|
    ensures !HasKey(d, k) ==> r == d + [(k, v)]
  {
    if HasKey(d, k) then Replace(d, k, v) else d + [(k, v)]
  }

  /**
   * The dictionary comprehension `{f"{name}_m{pos}": memory_access(name, pos) for ...}`: rs
   * taken in order; the first read that raises ends it with that exception.
   */
  function Comprehension(peek: Peek, rs: seq<Read>): Result<Dict>
  {
    if |rs| == 0 then Ok([])
    else
      var last := rs[|rs| - 1];
      match Comprehension(peek, rs[..|rs| - 1])
      case Err(e) => Err(e)
      case Ok(d) =>
        match peek(last.name, last.pos)
        case Err(e) => Err(e)
        case Ok(v) => Ok(Put(d, last.key, v))
  }

  /** `multi_access((names, positions))`: the comprehension over `zip(names, positions)`. */
  function MultiAccess(peek: Peek, listing: Listing): Result<Dict>
  {
    Comprehension(peek, Reads(listing.names, listing.positions))
  }

  /** No two reads store under the same key. */
  predicate DistinctKeys(rs: seq<Read>)
  {
    forall i, j :: 0 <= i < j < |rs| ==> rs[i].key != rs[j].key
  }

  /**
   * With distinct keys and no failing read, the dictionary holds one item per read, in order,
   * under the read's key and with the text read at that position.
   */
  lemma {:induction false} ComprehensionItems(peek: Peek, rs: seq<Read>)
    requires forall i :: 0 <= i < |rs| ==> peek(rs[i].name, rs[i].pos).Ok?
    requires DistinctKeys(rs)
    ensures var r := Comprehension(peek, rs);
            && r.Ok? && |r.value| == |rs|
            && forall i :: 0 <= i < |rs| ==> r.value[i] == (rs[i].key, peek(rs[i].name, rs[i].pos).value)
  {
    if |rs| > 0 {
      var init, last := rs[..|rs| - 1], rs[|rs| - 1];
      ComprehensionItems(peek, init);
      var d := Comprehension(peek, init).value;
      assert !HasKey(d, last.key) by {
        forall i | 0 <= i < |d| ensures d[i].0 != last.key {
          assert d[i].0 == rs[i].key;
        }
      }
      var v := peek(last.name, last.pos).value;
      assert Comprehension(peek, rs) == Ok(d + [(last.key, v)]);
    }
  }

  /** A read that raises ends the comprehension with the exception of the first such read. */
  lemma {:induction false} ComprehensionRaises(peek: Peek, rs: seq<Read>, k: nat)
    requires k < |rs| && peek(rs[k].name, rs[k].pos).Err?
    requires forall i :: 0 <= i < k ==> peek(rs[i].name, rs[i].pos).Ok?
    ensures Comprehension(peek, rs) == Err(peek(rs[k].name, rs[k].pos).error)
    decreases |rs|
  {
    var init := rs[..|rs| - 1];
    if k < |rs| - 1 {
      ComprehensionRaises(peek, init, k);
    } else {
      ComprehensionSucceeds(peek, init);
    }
  }

  lemma {:induction false} ComprehensionSucceeds(peek: Peek, rs: seq<Read>)
    requires forall i :: 0 <= i < |rs| ==> peek(rs[i].name, rs[i].pos).Ok?
    ensures Comprehension(peek, rs).Ok?
  {
    if |rs| > 0 {
      ComprehensionSucceeds(peek, rs[..|rs| - 1]);
    }
  }

  /** A comprehension that does not raise made every one of its rs. */
  lemma {:induction false} ComprehensionReadsAll(peek: Peek, rs: seq<Read>)
    requires Comprehension(peek, rs).Ok?
    ensures forall i :: 0 <= i < |rs| ==> peek(rs[i].name, rs[i].pos).Ok?
  {
    if |rs| > 0 {
      var init, last := rs[..|rs| - 1], rs[|rs| - 1];
      assert Comprehension(peek, init).Ok? && peek(last.name, last.pos).Ok?;
      ComprehensionReadsAll(peek, init);
      forall i | 0 <= i < |rs| ensures peek(rs[i].name, rs[i].pos).Ok? {
        if i < |init| {
          assert rs[i] == init[i];
        }
      }
    }
  }

  /** Every read of the comprehension succeeds. */
  predicate AllReadsSucceed(peek: Peek, rs: seq<Read>)
  {
    forall i :: 0 <= i < |rs| ==> peek(rs[i].name, rs[i].pos).Ok?
  }

  /** A comprehension yields a dictionary exactly when none of its reads raises. */
  lemma ComprehensionOkExactly(peek: Peek, rs: seq<Read>)
    ensures Comprehension(peek, rs).Ok? <==> AllReadsSucceed(peek, rs)
  {
    if Comprehension(peek, rs).Ok? {
      ComprehensionReadsAll(peek, rs);
    } else if AllReadsSucceed(peek, rs) {
      ComprehensionSucceeds(peek, rs);
    }
  }

  /** `multi_access` yields a dictionary exactly when none of its reads of `zip(names, positions)` raises. */
  lemma MultiAccessRaisesExactly(peek: Peek, listing: Listing)
    ensures MultiAccess(peek, listing).Ok? <==> AllReadsSucceed(peek, Reads(listing.names, listing.positions))
  {
    ComprehensionOkExactly(peek, Reads(listing.names, listing.positions));
  }

  /** Keys of one memory at two different positions differ. */
  lemma KeyInjective(name: string, p: nat, q: nat)
    requires Key(name, p) == Key(name, q)
    ensures p == q
  {
    var k := |name| + 2;
    assert Key(name, p)[k..] == NatToString(p);
    assert Key(name, q)[k..] == NatToString(q);
    NatToStringInjective(p, q);
  }

  /** Positions 0 to k - 1 of one memory have pairwise different keys. */
  lemma AllPositionsKeysDiffer(name: string, k: int)
    ensures DistinctKeys(Reads(Repeat(name, k), Range(k)))
  {
    var rs := Reads(Repeat(name, k), Range(k));
    forall i, j | 0 <= i < j < |rs| ensures rs[i].key != rs[j].key {
      assert rs[i].key == Key(name, i) && rs[j].key == Key(name, j);
      if rs[i].key == rs[j].key {
        KeyInjective(name, i, j);
      }
    }
  }

  /**
   * Reading positions 0 to k - 1 of one memory, as `repeater()` and `remote_node()` list them:
   * when no read raises, one item per position, in order, keyed `{name}_m{i}`.
   */
  lemma AllPositionsItems(peek: Peek, name: string, k: int)
    requires forall i :: 0 <= i < k ==> peek(name, i).Ok?
    ensures var r := MultiAccess(peek, Listing(Repeat(name, k), Range(k)));
            && r.Ok? && |r.value| == (if k < 0 then 0 else k)
            && forall i :: 0 <= i < |r.value| ==> r.value[i] == (Key(name, i), peek(name, i).value)
  {
    var rs := Reads(Repeat(name, k), Range(k));
    AllPositionsKeysDiffer(name, k);
    ComprehensionItems(peek, rs);
  }

  /**
   * The node reads: the second node is read at position 1 when each node has two or more
   * positions, at position 0 when it has one, and nothing is read when it has none.
   */
  lemma NodesReadPositions(s: MemorySnapshot)
    ensures var l := s.Nodes();
            var r := Reads(l.names, l.positions);
            var n1 := "Node" + IntToString(s.node1);
            var n2 := "Node" + IntToString(s.node2);
            && (s.nodeMemPositions >= 2 ==> r == [Read(Key(n1, 0), n1, 0), Read(Key(n2, 1), n2, 1)])
            && (s.nodeMemPositions == 1 ==> r == [Read(Key(n1, 0), n1, 0), Read(Key(n2, 0), n2, 0)])
            && (s.nodeMemPositions <= 0 ==> r == [])
  {
    var l := s.Nodes();
    if s.nodeMemPositions >= 2 {
      assert l.positions[0] == 0 && l.positions[1] == 1;
    } else if s.nodeMemPositions == 1 {
      assert l.positions[0] == 0 && l.positions[1] == 0;
    }
  }

  // ---------------------------------------------------------------------------
  // show_all_memory_positions
  // ---------------------------------------------------------------------------

  /** The lines `f"{k}: {v}"` of a dictionary, in its order. */
  function Items(d: Dict): (r: seq<string>)
    ensures |r| == |d|
  {
    seq(|d|, i requires 0 <= i < |d| => d[i].0 + ": " + d[i].1)
  }

  /**
   * `[f"{k}: {v}" for d in all_mem for k, v in d.items()]`, with `all_mem` the readings of
   * `[repeater(), nodes(), remote_node()]` in that order: the exception of the first reading that
   * raises, or the item lines of the three dictionaries in order.
   */
  function ItemLines(peek: Peek, s: MemorySnapshot): Result<seq<string>>
  {
    match MultiAccess(peek, s.Repeater())
    case Err(e) => Err(e)
    case Ok(d1) =>
      match MultiAccess(peek, s.Nodes())
      case Err(e) => Err(e)
      case Ok(d2) =>
        match MultiAccess(peek, s.RemoteNode())
        case Err(e) => Err(e)
        case Ok(d3) => Ok(Items(d1) + Items(d2) + Items(d3))
  }

  /** What a call prints, one text per `print`, and how it ends. */
  datatype Printout<T> = Printout(printed: seq<string>, outcome: T)

  const EndPrefix := "If it is working correctly, the output should have "

  /**
   * `show_all_memory_positions(initial, end, width)`: prints the rule and the initial message
   * when that message is not empty, then reads every listed position and prints the item lines
   * joined by newlines, then prints the end message and the rule when that message is not empty;
   * it returns the three texts together whether or not they were printed. A read that raises ends
   * the call after the first print.
   */
  function ShowAllMemoryPositions(s: MemorySnapshot, peek: Peek, initial: string, end: string, width: int)
    : (p: Printout<Result<string>>)
    ensures p.outcome.Ok? <==> ItemLines(peek, s).Ok?
    ensures p.outcome.Err? ==> p.outcome.error == ItemLines(peek, s).error
    ensures |p.printed| == (if initial != "" then 1 else 0) + (if p.outcome.Ok? then 1 else 0)
                           + (if p.outcome.Ok? && end != "" then 1 else 0)
    ensures initial != "" ==> p.printed[0] == Repeat('-', width) + "\n" + initial
    ensures ItemLines(peek, s).Ok? ==>
              && p.outcome.value == (Repeat('-', width) + "\n" + initial) + Join(ItemLines(peek, s).value, "\n")
                                    + (EndPrefix + end + "\n" + Repeat('-', width))
              && p.printed[if initial != "" then 1 else 0] == Join(ItemLines(peek, s).value, "\n")
  {
    var line := Repeat('-', width);
    var startStr := line + "\n" + initial;
    var header := if initial != "" then [startStr] else [];
    match ItemLines(peek, s)
    case Err(e) => Printout(header, Err(e))
    case Ok(lines) =>
      var midStr := Join(lines, "\n");
      var endStr := EndPrefix + end + "\n" + line;
      Printout(header + [midStr] + (if end != "" then [endStr] else []), Ok(startStr + midStr + endStr))
  }

  /** With rules of width 0 the returned text is a newline, the messages and the lines alone. */
  lemma WidthZeroReport(s: MemorySnapshot, peek: Peek, initial: string, end: string)
    requires ItemLines(peek, s).Ok?
    ensures ShowAllMemoryPositions(s, peek, initial, end, 0).outcome
         == Ok(("\n" + initial) + Join(ItemLines(peek, s).value, "\n") + (EndPrefix + end + "\n"))
  {
    var line := Repeat('-', 0);
    assert line == [];
    assert line + "\n" + initial == "\n" + initial;
    assert EndPrefix + end + "\n" + line == EndPrefix + end + "\n";
  }

  /**
   * With both messages given and no read raising, the returned text is exactly what was printed,
   * in the order printed: the header, the item lines, and the footer naming the end message.
   */
  lemma ReturnsWhatItPrints(s: MemorySnapshot, peek: Peek, initial: string, end: string, width: int)
    requires initial != "" && end != ""
    requires ItemLines(peek, s).Ok?
    ensures var p := ShowAllMemoryPositions(s, peek, initial, end, width);
            && |p.printed| == 3
            && p.outcome == Ok(p.printed[0] + p.printed[1] + p.printed[2])
            && p.printed[1] == Join(ItemLines(peek, s).value, "\n")
            && p.printed[2] == EndPrefix + end + "\n" + Repeat('-', width)
  {
    var line := Repeat('-', width);
    var startStr, midStr := line + "\n" + initial, Join(ItemLines(peek, s).value, "\n");
    var endStr := EndPrefix + end + "\n" + line;
    assert ShowAllMemoryPositions(s, peek, initial, end, width)
        == Printout([startStr] + [midStr] + [endStr], Ok(startStr + midStr + endStr));
  }

  // ---------------------------------------------------------------------------
  // One line per memory position
  // ---------------------------------------------------------------------------

  /** The number of distinct keys read: the two node keys coincide when both nodes are the same. */
  function PositionCount(s: MemorySnapshot): nat
  {
    (if s.repeaterMemPositions < 0 then 0 else s.repeaterMemPositions)
    + (if s.nodeMemPositions <= 0 then 0 else if s.nodeMemPositions == 1 && s.node1 == s.node2 then 1 else 2)
    + (if s.remoteNodeMemPositions < 0 then 0 else s.remoteNodeMemPositions)
  }

  lemma IntToStringHasNoNewline(i: int)
    ensures '\n' !in IntToString(i)
  {
    var t := IntToString(i);
    if i >= 0 {
      assert t == NatToString(i);
    }
    assert forall k :: 0 <= k < |t| ==> t[k] != '\n' by {
      forall k | 0 <= k < |t| ensures t[k] != '\n' {
        if k == 0 && i < 0 {
          assert t[0] == '-';
        }
      }
    }
  }

  /** Keys and read texts without newlines give dictionary items without newlines. */
  lemma {:induction false} ComprehensionHasNoNewline(peek: Peek, rs: seq<Read>)
    requires forall i :: 0 <= i < |rs| ==> '\n' !in rs[i].key
    requires forall n, q :: peek(n, q).Ok? ==> '\n' !in peek(n, q).value
    requires Comprehension(peek, rs).Ok?
    ensures forall j :: 0 <= j < |Comprehension(peek, rs).value| ==>
              '\n' !in Comprehension(peek, rs).value[j].0 && '\n' !in Comprehension(peek, rs).value[j].1
  {
    if |rs| > 0 {
      ComprehensionHasNoNewline(peek, rs[..|rs| - 1]);
    }
  }

  /** Keys of names without newlines hold no newline. */
  lemma ReadsHaveNoNewline(names: seq<string>, positions: seq<int>)
    requires forall i :: 0 <= i < |names| ==> '\n' !in names[i]
    ensures forall i :: 0 <= i < |Reads(names, positions)| ==> '\n' !in Reads(names, positions)[i].key
  {
    forall i | 0 <= i < |Reads(names, positions)| ensures '\n' !in Reads(names, positions)[i].key {
      IntToStringHasNoNewline(positions[i]);
      assert '\n' !in "_m";
    }
  }

  /** The two node keys differ unless each node has one position and both nodes are the same. */
  lemma NodeKeysDiffer(s: MemorySnapshot)
    requires s.nodeMemPositions >= 2 || (s.nodeMemPositions == 1 && s.node1 != s.node2)
    ensures var rs := Reads(s.Nodes().names, s.Nodes().positions);
            |rs| == 2 && rs[0].key != rs[1].key
  {
    NodesReadPositions(s);
    var n1, n2 := "Node" + IntToString(s.node1), "Node" + IntToString(s.node2);
    if s.nodeMemPositions == 1 {
      var k1, k2 := Key(n1, 0), Key(n2, 0);
      if k1 == k2 {
        assert |n1| == |n2| && n1 == k1[..|n1|] && n2 == k2[..|n2|];
        assert IntToString(s.node1) == n1[4..] == n2[4..] == IntToString(s.node2);
        IntToStringInjective(s.node1, s.node2);
      }
    } else {
      var k1, k2 := Key(n1, 0), Key(n2, 1);
      assert IntToString(0) == "0" && IntToString(1) == "1";
      assert k1[|k1| - 1] == '0' && k2[|k2| - 1] == '1';
    }
  }

  /** The node keys: two distinct ones, unless each node has one position and both nodes are the same. */
  lemma NodesItemCount(s: MemorySnapshot, peek: Peek)
    requires MultiAccess(peek, s.Nodes()).Ok?
    ensures |MultiAccess(peek, s.Nodes()).value|
         == if s.nodeMemPositions <= 0 then 0 else if s.nodeMemPositions == 1 && s.node1 == s.node2 then 1 else 2
  {
    NodesReadPositions(s);
    var l := s.Nodes();
    var rs := Reads(l.names, l.positions);
    ComprehensionReadsAll(peek, rs);
    var n1, n2 := "Node" + IntToString(s.node1), "Node" + IntToString(s.node2);
    if s.nodeMemPositions == 1 && s.node1 == s.node2 {
      var k := Key(n1, 0);
      assert rs[..1] == [rs[0]] && rs[0].key == k && rs[1].key == k;
      var d := Put([], k, peek(n1, 0).value);
      assert d == [(k, peek(n1, 0).value)];
      assert Comprehension(peek, rs[..1]) == Ok(d);
      assert HasKey(d, k);
    } else if s.nodeMemPositions >= 1 {
      NodeKeysDiffer(s);
      ComprehensionItems(peek, rs);
    }
  }

  /** The item lines of a snapshot are those of the repeater, then the nodes, then the remote node. */
  lemma ItemLinesOfSnapshot(s: MemorySnapshot, peek: Peek)
    requires ItemLines(peek, s).Ok?
    ensures MultiAccess(peek, s.Repeater()).Ok? && MultiAccess(peek, s.Nodes()).Ok?
    ensures MultiAccess(peek, s.RemoteNode()).Ok?
    ensures ItemLines(peek, s).value
         == Items(MultiAccess(peek, s.Repeater()).value) + Items(MultiAccess(peek, s.Nodes()).value)
            + Items(MultiAccess(peek, s.RemoteNode()).value)
  {
  }

  /** A memory read at positions 0 to k - 1 without raising gives one item per position. */
  lemma AllPositionsCount(peek: Peek, name: string, k: int)
    requires MultiAccess(peek, Listing(Repeat(name, k), Range(k))).Ok?
    ensures |MultiAccess(peek, Listing(Repeat(name, k), Range(k))).value| == if k < 0 then 0 else k
  {
    var rs := Reads(Repeat(name, k), Range(k));
    ComprehensionReadsAll(peek, rs);
    forall i | 0 <= i < k ensures peek(name, i).Ok? {
      assert rs[i].name == name && rs[i].pos == i;
    }
    AllPositionsItems(peek, name, k);
  }

  /** When no read raises, there is one item line per distinct memory position read. */
  lemma ItemLineCount(s: MemorySnapshot, peek: Peek)
    requires ItemLines(peek, s).Ok?
    ensures |ItemLines(peek, s).value| == PositionCount(s)
  {
    ItemLinesOfSnapshot(s, peek);
    AllPositionsCount(peek, "Repeater", s.repeaterMemPositions);
    NodesItemCount(s, peek);
    AllPositionsCount(peek, "RemoteNode", s.remoteNodeMemPositions);
  }

  /** The item lines of one memory hold no newline when its names and the read texts hold none. */
  lemma ListingLinesHaveNoNewline(peek: Peek, l: Listing)
    requires forall i :: 0 <= i < |l.names| ==> '\n' !in l.names[i]
    requires forall n, q :: peek(n, q).Ok? ==> '\n' !in peek(n, q).value
    requires MultiAccess(peek, l).Ok?
    ensures forall i :: 0 <= i < |Items(MultiAccess(peek, l).value)| ==> '\n' !in Items(MultiAccess(peek, l).value)[i]
  {
    var d := MultiAccess(peek, l).value;
    ReadsHaveNoNewline(l.names, l.positions);
    ComprehensionHasNoNewline(peek, Reads(l.names, l.positions));
    forall i | 0 <= i < |d| ensures '\n' !in Items(d)[i] {
      assert Items(d)[i] == d[i].0 + ": " + d[i].1;
      assert '\n' !in ": ";
    }
  }

  lemma NodeNamesHaveNoNewline(s: MemorySnapshot)
    ensures forall i :: 0 <= i < |s.Nodes().names| ==> '\n' !in s.Nodes().names[i]
  {
    IntToStringHasNoNewline(s.node1);
    IntToStringHasNoNewline(s.node2);
    assert '\n' !in "Node";
  }

  lemma ConcatHasNoNewline(l1: seq<string>, l2: seq<string>, l3: seq<string>)
    requires forall i :: 0 <= i < |l1| ==> '\n' !in l1[i]
    requires forall i :: 0 <= i < |l2| ==> '\n' !in l2[i]
    requires forall i :: 0 <= i < |l3| ==> '\n' !in l3[i]
    ensures forall i :: 0 <= i < |l1 + l2 + l3| ==> '\n' !in (l1 + l2 + l3)[i]
  {
    var lines := l1 + l2 + l3;
    forall i | 0 <= i < |lines| ensures '\n' !in lines[i] {
      if i < |l1| {
        assert lines[i] == l1[i];
      } else if i < |l1| + |l2| {
        assert lines[i] == l2[i - |l1|];
      } else {
        assert lines[i] == l3[i - |l1| - |l2|];
      }
    }
  }

  lemma RepeatHasNoNewline(name: string, k: int)
    requires '\n' !in name
    ensures forall i :: 0 <= i < |Repeat(name, k)| ==> '\n' !in Repeat(name, k)[i]
  {
  }

  /** No item line holds a newline when no read text does. */
  lemma ItemLinesHaveNoNewline(s: MemorySnapshot, peek: Peek)
    requires ItemLines(peek, s).Ok?
    requires forall n, q :: peek(n, q).Ok? ==> '\n' !in peek(n, q).value
    ensures forall i :: 0 <= i < |ItemLines(peek, s).value| ==> '\n' !in ItemLines(peek, s).value[i]
  {
    ItemLinesOfSnapshot(s, peek);
    assert '\n' !in "Repeater" && '\n' !in "RemoteNode";
    RepeatHasNoNewline("Repeater", s.repeaterMemPositions);
    RepeatHasNoNewline("RemoteNode", s.remoteNodeMemPositions);
    NodeNamesHaveNoNewline(s);
    ListingLinesHaveNoNewline(peek, s.Repeater());
    ListingLinesHaveNoNewline(peek, s.Nodes());
    ListingLinesHaveNoNewline(peek, s.RemoteNode());
    ConcatHasNoNewline(Items(MultiAccess(peek, s.Repeater()).value), Items(MultiAccess(peek, s.Nodes()).value),
                       Items(MultiAccess(peek, s.RemoteNode()).value));
  }

  /**
   * When no read raises and no read text holds a newline, the item lines are one per distinct
   * memory position read, and the printed middle text splits back into exactly those lines.
   */
  lemma OneLinePerPosition(s: MemorySnapshot, peek: Peek)
    requires ItemLines(peek, s).Ok?
    requires forall n, q :: peek(n, q).Ok? ==> '\n' !in peek(n, q).value
    ensures |ItemLines(peek, s).value| == PositionCount(s)
    ensures |ItemLines(peek, s).value| > 0 ==>
              Split(Join(ItemLines(peek, s).value, "\n"), '\n') == ItemLines(peek, s).value
  {
    ItemLineCount(s, peek);
    var lines := ItemLines(peek, s).value;
    if |lines| > 0 {
      ItemLinesHaveNoNewline(s, peek);
      SplitJoin(lines, '\n');
    }
  }

  /** The reading of the unit test: every position is empty. */
  function EmptyPeek(name: string, pos: int): Result<string>
  {
    Ok("None")
  }

  /** The snapshot of the unit test: nodes 1 and 2, with 4, 1 and 2 positions read. */
  const UnitTestSnapshot := MemorySnapshot(1, 2, 4, 1, 2)

  lemma RepeaterKeys()
    ensures Key("Repeater", 0) == "Repeater_m0" && Key("Repeater", 1) == "Repeater_m1"
    ensures Key("Repeater", 2) == "Repeater_m2" && Key("Repeater", 3) == "Repeater_m3"
  {
    assert IntToString(0) == "0" && IntToString(1) == "1" && IntToString(2) == "2" && IntToString(3) == "3";
  }

  lemma UnitTestRepeaterByKey()
    ensures var r := MultiAccess(EmptyPeek, UnitTestSnapshot.Repeater());
            && r.Ok? && |r.value| == 4
            && r.value[0] == (Key("Repeater", 0), "None") && r.value[1] == (Key("Repeater", 1), "None")
            && r.value[2] == (Key("Repeater", 2), "None") && r.value[3] == (Key("Repeater", 3), "None")
  {
    assert UnitTestSnapshot.Repeater() == Listing(Repeat("Repeater", 4), Range(4));
    AllPositionsItems(EmptyPeek, "Repeater", 4);
  }

  lemma UnitTestRepeater()
    ensures MultiAccess(EmptyPeek, UnitTestSnapshot.Repeater()) == Ok(UnitTestRepeaterItems)
  {
    UnitTestRepeaterByKey();
    RepeaterKeys();
    var d := MultiAccess(EmptyPeek, UnitTestSnapshot.Repeater()).value;
    assert d == [d[0], d[1], d[2], d[3]];
  }

  lemma NodeKeys()
    ensures "Node" + IntToString(1) == "Node1" && "Node" + IntToString(2) == "Node2"
    ensures Key("Node1", 0) == "Node1_m0" && Key("Node2", 0) == "Node2_m0"
  {
    assert IntToString(0) == "0" && IntToString(1) == "1" && IntToString(2) == "2";
  }

  lemma UnitTestNodes()
    ensures MultiAccess(EmptyPeek, UnitTestSnapshot.Nodes()) == Ok(UnitTestNodesItems)
  {
    NodeKeys();
    NodesReadPositions(UnitTestSnapshot);
    var z := [Read("Node1_m0", "Node1", 0), Read("Node2_m0", "Node2", 0)];
    assert Reads(UnitTestSnapshot.Nodes().names, UnitTestSnapshot.Nodes().positions) == z;
    ComprehensionItems(EmptyPeek, z);
    var d := Comprehension(EmptyPeek, z).value;
    assert |d| == 2;
    assert d == [d[0], d[1]];
  }

  lemma RemoteNodeKeys()
    ensures Key("RemoteNode", 0) == "RemoteNode_m0" && Key("RemoteNode", 1) == "RemoteNode_m1"
  {
    assert IntToString(0) == "0" && IntToString(1) == "1";
  }

  lemma UnitTestRemoteNode()
    ensures MultiAccess(EmptyPeek, UnitTestSnapshot.RemoteNode()) == Ok(UnitTestRemoteNodeItems)
  {
    AllPositionsItems(EmptyPeek, "RemoteNode", 2);
    RemoteNodeKeys();
    var d := MultiAccess(EmptyPeek, UnitTestSnapshot.RemoteNode()).value;
    assert |d| == 2;
    assert d == [d[0], d[1]];
  }

  /** The dictionaries the unit test reads. */
  const UnitTestRepeaterItems := [("Repeater_m0", "None"), ("Repeater_m1", "None"), ("Repeater_m2", "None"),
                                  ("Repeater_m3", "None")]
  const UnitTestNodesItems := [("Node1_m0", "None"), ("Node2_m0", "None")]
  const UnitTestRemoteNodeItems := [("RemoteNode_m0", "None"), ("RemoteNode_m1", "None")]

  lemma UnitTestItems()
    ensures Items(UnitTestRepeaterItems) + Items(UnitTestNodesItems) + Items(UnitTestRemoteNodeItems)
         == ["Repeater_m0: None", "Repeater_m1: None", "Repeater_m2: None", "Repeater_m3: None",
             "Node1_m0: None", "Node2_m0: None", "RemoteNode_m0: None", "RemoteNode_m1: None"]
  {
    var l1, l2, l3 := Items(UnitTestRepeaterItems), Items(UnitTestNodesItems), Items(UnitTestRemoteNodeItems);
    assert l1[0] == "Repeater_m0" + ": " + "None" == "Repeater_m0: None";
    assert l1[1] == "Repeater_m1" + ": " + "None" == "Repeater_m1: None";
    assert l1[2] == "Repeater_m2" + ": " + "None" == "Repeater_m2: None";
    assert l1[3] == "Repeater_m3" + ": " + "None" == "Repeater_m3: None";
    assert l2[0] == "Node1_m0" + ": " + "None" == "Node1_m0: None";
    assert l2[1] == "Node2_m0" + ": " + "None" == "Node2_m0: None";
    assert l3[0] == "RemoteNode_m0" + ": " + "None" == "RemoteNode_m0: None";
    assert l3[1] == "RemoteNode_m1" + ": " + "None" == "RemoteNode_m1: None";
  }

  /** The eight item lines of the unit test, joined by newlines. */
  lemma UnitTestLines()
    ensures Join(["Repeater_m0: None", "Repeater_m1: None", "Repeater_m2: None", "Repeater_m3: None",
                  "Node1_m0: None", "Node2_m0: None", "RemoteNode_m0: None", "RemoteNode_m1: None"], "\n")
         == "Repeater_m0: None" + "\n" + ("Repeater_m1: None" + "\n" + ("Repeater_m2: None" + "\n"
            + ("Repeater_m3: None" + "\n" + ("Node1_m0: None" + "\n" + ("Node2_m0: None" + "\n"
            + ("RemoteNode_m0: None" + "\n" + "RemoteNode_m1: None"))))))
  {
    var lines := ["Repeater_m0: None", "Repeater_m1: None", "Repeater_m2: None", "Repeater_m3: None",
                  "Node1_m0: None", "Node2_m0: None", "RemoteNode_m0: None", "RemoteNode_m1: None"];
    assert Join(lines[7..], "\n") == lines[7];
    assert Join(lines[6..], "\n") == lines[6] + "\n" + Join(lines[7..], "\n");
    assert Join(lines[5..], "\n") == lines[5] + "\n" + Join(lines[6..], "\n");
    assert Join(lines[4..], "\n") == lines[4] + "\n" + Join(lines[5..], "\n");
    assert Join(lines[3..], "\n") == lines[3] + "\n" + Join(lines[4..], "\n");
    assert Join(lines[2..], "\n") == lines[2] + "\n" + Join(lines[3..], "\n");
    assert Join(lines[1..], "\n") == lines[1] + "\n" + Join(lines[2..], "\n");
  }

  /**
   * With every position empty, the snapshot of the unit test reports the eight positions in order,
   * between the messages " " and " " and with rules of width 0.
   */
  lemma UnitTestItemLines()
    ensures ItemLines(EmptyPeek, UnitTestSnapshot)
         == Ok(["Repeater_m0: None", "Repeater_m1: None", "Repeater_m2: None", "Repeater_m3: None",
                "Node1_m0: None", "Node2_m0: None", "RemoteNode_m0: None", "RemoteNode_m1: None"])
  {
    UnitTestRepeater();
    UnitTestNodes();
    UnitTestRemoteNode();
    UnitTestItems();
  }

  lemma UnitTestReport()
    ensures ShowAllMemoryPositions(UnitTestSnapshot, EmptyPeek, " ", " ", 0).outcome
         == Ok("\n" + " "
               + ("Repeater_m0: None" + "\n" + ("Repeater_m1: None" + "\n" + ("Repeater_m2: None" + "\n"
                  + ("Repeater_m3: None" + "\n" + ("Node1_m0: None" + "\n" + ("Node2_m0: None" + "\n"
                  + ("RemoteNode_m0: None" + "\n" + "RemoteNode_m1: None")))))))
               + (EndPrefix + " " + "\n"))
  {
    UnitTestItemLines();
    UnitTestLines();
    WidthZeroReport(UnitTestSnapshot, EmptyPeek, " ", " ");
  }
}
