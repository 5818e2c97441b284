/**
 * The two-field port pair of src/network/PortPair.py: only a source and a destination port
 * name, no connection name.
 */
module NetworkPortPair {
  import opened Common

  datatype PortPair = PortPair(source: string, destination: string)

  const MissingDestination := "PortPair.__init__() missing 1 required positional argument: 'destination'"
  const MissingBoth := "PortPair.__init__() missing 2 required positional arguments: 'source' and 'destination'"

  /**
   * Calling `PortPair(*args)` with positional arguments: exactly two are accepted (source,
   * then destination). Fewer raise TypeError naming the missing parameters, more raise
   * TypeError counting the arguments given with `self`; no field is set.
   */
  function Construct(args: seq<string>): (r: Result<PortPair>)
    ensures r.Ok? <==> |args| == 2
    ensures r.Ok? ==> r.value.source == args[0] && r.value.destination == args[1]
    ensures |args| == 0 ==> r == Err(TypeError(MissingBoth))
    ensures |args| == 1 ==> r == Err(TypeError(MissingDestination))
    ensures |args| > 2 ==> r.Err? && r.error.TypeError?
  {
    if |args| == 2 then Ok(PortPair(args[0], args[1]))
    else if |args| == 0 then Err(TypeError(MissingBoth))
    else if |args| == 1 then Err(TypeError(MissingDestination))
    else Err(TypeError("PortPair.__init__() takes 3 positional arguments but "
                       + NatToString(|args| + 1) + " were given"))
  }

  /** The three-argument call the star network makes always fails. */
  lemma ThreeArgumentCallFails(source: string, destination: string, name: string)
    ensures Construct([source, destination, name]).Err?
    ensures Construct([source, destination, name]).error
         == TypeError("PortPair.__init__() takes 3 positional arguments but 4 were given")
  {
    assert NatToString(4) == "4";
  }
}
