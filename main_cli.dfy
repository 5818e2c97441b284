/**
 * The command-line helpers (src/helper/main/main.py): running the selected network method with
 * the given nodes, the `checker` guard, the help text, and the selection of models and method.
 *
 * `sys.exit(msg)` is the `Exited(msg)` outcome; printing is left out. The method run is a
 * function handed in by the caller, applied to the call it receives and the `debug` flag.
 */
module MainCli {
  import opened Common
  import opened Components

  /** How the method is called: with its default nodes, or with two or three positional nodes. */
  datatype Call = DefaultNodes | TwoNodes(n0: int, n1: int) | ThreeNodes(n0: int, n1: int, n2: int)
  {
    /** The positional node arguments of the call. */
    function Args(): seq<int>
    {
      match this
      case DefaultNodes => []
      case TwoNodes(a, b) => [a, b]
      case ThreeNodes(a, b, c) => [a, b, c]
    }
  }

  /** The call `run_method_with_nodes` makes for `nodes`: none unless there are 0, 2 or 3 of them. */
  function NodesCall(nodes: seq<int>): (r: Option<Call>)
    ensures r.Some? <==> |nodes| in {0, 2, 3}
    ensures r.Some? ==> r.value.Args() == nodes
  {
    if |nodes| == 0 then Some(DefaultNodes)
    else if |nodes| == 2 then Some(TwoNodes(nodes[0], nodes[1]))
    else if |nodes| == 3 then Some(ThreeNodes(nodes[0], nodes[1], nodes[2]))
    else None
  }

  /** What `run_method_with_nodes` returns: the method's result, or `checker`'s message. */
  datatype Outcome<R> = Value(result: R) | Message(text: string)

  const InvalidNodeCount := "Invalid number of nodes, please provide 0 or 2 or 3 nodes"

  /**
   * `checker(condition, msg, test)`: nothing when the condition is false; otherwise the message
   * when testing, and an exit with the message when not.
   */
  function Checker(condition: bool, msg: string, test: bool := false): (r: Exits<Option<string>>)
    ensures r.Exited? <==> condition && !test
    ensures r.Exited? ==> r.message == msg
    ensures r.Returned? ==> (r.value.Some? <==> condition) && (r.value.Some? ==> r.value.value == msg)
  {
    if condition then
      if test then Returned(Some(msg)) else Exited(msg)
    else Returned(None)
  }

  /**
   * `run_method_with_nodes(method, nodes, debug, test)`: the method called with the nodes as
   * positional arguments when there are 0, 2 or 3 of them, and its result returned unchanged;
   * for any other count the method is not called and `checker` decides.
   */
  function RunMethodWithNodes<R>(callee: (Call, bool) -> R, nodes: seq<int>, debug: bool, test: bool := false)
    : (r: Exits<Outcome<R>>)
    ensures |nodes| in {0, 2, 3} ==> r.Returned? && r.value.Value?
    ensures r.Returned? && r.value.Value? ==>
              exists call: Call :: call.Args() == nodes && r.value.result == callee(call, debug)
    ensures !(|nodes| in {0, 2, 3}) ==>
              if test then r == Returned(Message(InvalidNodeCount)) else r == Exited(InvalidNodeCount)
  {
    match NodesCall(nodes)
    case Some(call) => Returned(Value(callee(call, debug)))
    case None =>
      match Checker(true, InvalidNodeCount, test)
      case Exited(msg) => Exited(msg)
      case Returned(m) => Returned(Message(m.value))
  }

  /** Two different calls never pass the same nodes, so the call made for `nodes` is the only one. */
  lemma CallIsDeterminedByNodes(c1: Call, c2: Call)
    requires c1.Args() == c2.Args()
    ensures c1 == c2
  {
    assert |c1.Args()| == |c2.Args()|;
    match c1
    case DefaultNodes =>
    case TwoNodes(_, _) => assert c1.Args()[0] == c2.Args()[0] && c1.Args()[1] == c2.Args()[1];
    case ThreeNodes(_, _, _) =>
      assert c1.Args()[0] == c2.Args()[0] && c1.Args()[1] == c2.Args()[1] && c1.Args()[2] == c2.Args()[2];
  }

  /**
   * The unit test's method, `node1 + node2 + node3` with defaults 0: nodes [], [1, 1] and
   * [1, 1, 1] give 0, 2 and 3, and four nodes with `test` give the message.
   */
  function SumOfNodes(call: Call, debug: bool): int
  {
    match call
    case DefaultNodes => 0
    case TwoNodes(a, b) => a + b
    case ThreeNodes(a, b, c) => a + b + c
  }

  lemma RunMethodWithNodesExamples()
    ensures RunMethodWithNodes(SumOfNodes, [], false) == Returned(Value(0))
    ensures RunMethodWithNodes(SumOfNodes, [1, 1], false) == Returned(Value(2))
    ensures RunMethodWithNodes(SumOfNodes, [1, 1, 1], false) == Returned(Value(3))
    ensures RunMethodWithNodes(SumOfNodes, [1, 1, 1, 1], true, true) == Returned(Message(InvalidNodeCount))
  {
  }

  // ---------------------------------------------------------------------------
  // Help text
  // ---------------------------------------------------------------------------

  /**
   * The seven pieces `show_help()` appends, in order: the title, then one per argument (`nodes`
   * takes two). A piece is written as two literals where the test below cuts its own text inside it.
   */
  const HelpTitle := "Command line arguments:"
  const HelpModels := "- models_name: str, default='empty', choices=['combined', 'empty']"
  const HelpMethod := "- " + "method_name: str, default='protocol_a', choices=['protocol_a', 'entangle_nodes']"
  const HelpNodes := "- nodes: " + "str, default='1,2,4', choices of int=[1, 2, 3, 4], length=[0, 2, 3],"
  const HelpNodesUse := "use ',' to separate the " + "nodes (e.g. '1,2,4' or '1,4' or '1,3')"
  const HelpDebug := "- debug: bool, default=False, if True, print debug " + "information"
  const HelpExperiment :=
    "- experiment_num: int, default=0, if 0, run a single experiment, if >0, " + "run the experiment suite"

  /** `show_help()`: the text it prints and returns, the pieces appended one after another with no separator. */
  function ShowHelp(): (msg: string)
  {
    var msg := HelpTitle;
    var msg := msg + HelpModels;
    var msg := msg + HelpMethod;
    var msg := msg + HelpNodes;
    var msg := msg + HelpNodesUse;
    var msg := msg + HelpDebug;
    msg + HelpExperiment
  }

  /**
   * The text the test of `show_help` expects, as its six adjacent literals; a literal is written as
   * several where the code above cuts the text inside it.
   */
  const ExpectedHelp :=
    ("Command line arguments:" + "- models_name: str, default='empty', choices=['combined', 'empty']" + "- ")
    + ("method_name: str, default='protocol_a', choices=['protocol_a', 'entangle_nodes']" + "- nodes: ")
    + ("str, default='1,2,4', choices of int=[1, 2, 3, 4], length=[0, 2, 3]," + "use ',' to separate the ")
    + ("nodes (e.g. '1,2,4' or '1,4' or '1,3')" + "- debug: bool, default=False, if True, print debug ")
    + ("information" + "- experiment_num: int, default=0, if 0, run a single experiment, if >0, ")
    + "run the experiment suite"

  /** Text cut into seven pieces one way and into six another way is the same text when both cuts refine to the same twelve parts. */
  lemma Regroup(a0: string, a1: string, a2: string, a3: string, a4: string, a5: string,
                a6: string, a7: string, a8: string, a9: string, a10: string, a11: string)
    ensures a0 + a1 + (a2 + a3) + (a4 + a5) + (a6 + a7) + (a8 + a9) + (a10 + a11)
         == (a0 + a1 + a2) + (a3 + a4) + (a5 + a6) + (a7 + a8) + (a9 + a10) + a11
  {
  }

  /** The help text is the one the test of `show_help` expects. */
  lemma ShowHelpText()
    ensures ShowHelp() == ExpectedHelp
  {
    Regroup("Command line arguments:",
            "- models_name: str, default='empty', choices=['combined', 'empty']",
            "- ",
            "method_name: str, default='protocol_a', choices=['protocol_a', 'entangle_nodes']",
            "- nodes: ",
            "str, default='1,2,4', choices of int=[1, 2, 3, 4], length=[0, 2, 3],",
            "use ',' to separate the ",
            "nodes (e.g. '1,2,4' or '1,4' or '1,3')",
            "- debug: bool, default=False, if True, print debug ",
            "information",
            "- experiment_num: int, default=0, if 0, run a single experiment, if >0, ",
            "run the experiment suite");
  }

  // ---------------------------------------------------------------------------
  // Models and method selection
  // ---------------------------------------------------------------------------

  /** `Combined.models`: the loss, noise and delay models, by key. */
  const CombinedModels := Models(["quantum_loss_model", "quantum_noise_model", "quantum_delay_model"])

  /** `Empty.empty_models`. */
  const EmptyModels := Models([])

  /**
   * `select_models(name)`: the combined or the empty models; any other name reaches `return models`
   * with `models` never bound, which raises UnboundLocalError.
   */
  function SelectModels(name: string): (r: Result<Models>)
    ensures r.Ok? <==> name == "combined" || name == "empty"
    ensures name == "combined" ==> r == Ok(CombinedModels)
    ensures name == "empty" ==> r == Ok(EmptyModels)
    ensures r.Err? ==> r.error == UnboundLocalError("models")
  {
    if name == "combined" then Ok(CombinedModels)
    else if name == "empty" then Ok(EmptyModels)
    else Err(UnboundLocalError("models"))
  }

  /** The network methods the command line can select. */
  datatype MethodName = ProtocolA | EntangleNodes

  /**
   * `select_method_uncheck`: the method for the name and the node counts it accepts. No nodes
   * are always accepted; a known method adds its own count, three for `protocol_a` and two for
   * `entangle_nodes`.
   */
  function SelectMethodUnchecked(name: string): (r: (Option<MethodName>, seq<int>))
    ensures r.0 == Some(ProtocolA) <==> name == "protocol_a"
    ensures r.0 == Some(EntangleNodes) <==> name == "entangle_nodes"
    ensures 1 <= |r.1| <= 2 && r.1[0] == 0
    ensures |r.1| == 2 <==> r.0.Some?
    ensures r.0 == Some(ProtocolA) ==> r.1[1] == 3
    ensures r.0 == Some(EntangleNodes) ==> r.1[1] == 2
  {
    if name == "protocol_a" then (Some(ProtocolA), [0, 3])
    else if name == "entangle_nodes" then (Some(EntangleNodes), [0, 2])
    else (None, [0])
  }

  /**
   * `select_method(network, name, nodes_len)`: the method for the name, or an exit naming the
   * allowed counts when `nodes_len` is not one of them.
   */
  function SelectMethod(name: string, nodesLen: int): (r: Exits<Option<MethodName>>)
    ensures name == "protocol_a" ==> (r.Returned? <==> nodesLen in {0, 3})
    ensures name == "entangle_nodes" ==> (r.Returned? <==> nodesLen in {0, 2})
    ensures name != "protocol_a" && name != "entangle_nodes" ==> (r.Returned? <==> nodesLen == 0)
    ensures r.Returned? ==> (r.value == Some(ProtocolA) <==> name == "protocol_a")
    ensures r.Returned? ==> (r.value == Some(EntangleNodes) <==> name == "entangle_nodes")
    ensures r.Exited? ==> r.message == "Invalid number of nodes, please provide one of the following: "
                                       + IntListRepr(SelectMethodUnchecked(name).1)
  {
    var (chosen, allowed) := SelectMethodUnchecked(name);
    match Checker(nodesLen !in allowed, "Invalid number of nodes, please provide one of the following: "
                                        + IntListRepr(allowed))
    case Exited(msg) => Exited(msg)
    case Returned(_) => Returned(chosen)
  }

  lemma ListReprOfAllowed()
    ensures IntListRepr([0, 3]) == "[0, 3]" && IntListRepr([0, 2]) == "[0, 2]" && IntListRepr([0]) == "[0]"
  {
    assert IntToString(0) == "0" && IntToString(2) == "2" && IntToString(3) == "3";
    assert Join(["0", "3"], ", ") == "0, 3";
    assert Join(["0", "2"], ", ") == "0, 2";
    assert Join(["0"], ", ") == "0";
    assert seq(2, i requires 0 <= i < 2 => IntToString([0, 3][i])) == ["0", "3"];
    assert seq(2, i requires 0 <= i < 2 => IntToString([0, 2][i])) == ["0", "2"];
    assert seq(1, i requires 0 <= i < 1 => IntToString([0][i])) == ["0"];
  }

  /** The exit message lists the allowed counts as Python prints a list. */
  lemma SelectMethodMessages()
    ensures SelectMethod("protocol_a", 2) == Exited("Invalid number of nodes, please provide one of the following: [0, 3]")
    ensures SelectMethod("entangle_nodes", 3) == Exited("Invalid number of nodes, please provide one of the following: [0, 2]")
    ensures SelectMethod("other", 2) == Exited("Invalid number of nodes, please provide one of the following: [0]")
  {
    ListReprOfAllowed();
  }
}
