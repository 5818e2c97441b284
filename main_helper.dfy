/**
 * The older command-line helper (src/helper/main_helper.py): `error_exit` and the node-count
 * dispatch of the selected method. `sys.exit(msg)` is the `Exited(msg)` outcome.
 */
module MainHelper {
  import opened Common
  import MainCli

  /** `error_exit(msg)`: the program ends with `msg` as the exit argument; it never returns. */
  function ErrorExit<T>(msg: string): (r: Exits<T>)
    ensures !r.Returned? && r.message == msg
  {
    Exited(msg)
  }

  /**
   * `run_method_with_nodes(method, nodes, debug)`: the method called with the nodes as positional
   * arguments when there are 0, 2 or 3 of them, its result returned unchanged; any other count
   * exits without calling it.
   */
  function RunMethodWithNodes<R>(callee: (MainCli.Call, bool) -> R, nodes: seq<int>, debug: bool): (r: Exits<R>)
    ensures r.Returned? <==> |nodes| in {0, 2, 3}
    ensures r.Returned? ==> exists call: MainCli.Call :: call.Args() == nodes && r.value == callee(call, debug)
    ensures r.Exited? ==> r.message == MainCli.InvalidNodeCount
  {
    if |nodes| == 0 then Returned(callee(MainCli.DefaultNodes, debug))
    else if |nodes| == 2 then Returned(callee(MainCli.TwoNodes(nodes[0], nodes[1]), debug))
    else if |nodes| == 3 then Returned(callee(MainCli.ThreeNodes(nodes[0], nodes[1], nodes[2]), debug))
    else ErrorExit(MainCli.InvalidNodeCount)
  }

  /**
   * The older dispatcher and the command line's agree when the latter is not testing: the same
   * call for the same nodes, and the same exit message otherwise.
   */
  lemma AgreesWithMainDispatcher<R>(callee: (MainCli.Call, bool) -> R, nodes: seq<int>, debug: bool)
    ensures MainCli.RunMethodWithNodes(callee, nodes, debug, false)
         == match RunMethodWithNodes(callee, nodes, debug)
            case Returned(v) => Returned(MainCli.Value(v))
            case Exited(m) => Exited(m)
  {
  }
}
