/**
 * The three-field port pair of src/helper/network/PortPair.py: the source and destination
 * port names of one quantum connection and the connection's name. Fields are set once, at
 * construction; the other members only read them.
 */
module HelperPortPair {
  import opened Common

  datatype PortPair = PortPair(source: string, destination: string, name: Option<string>)
  {
    /** `get_all()`: the three fields, in constructor order. */
    function GetAll(): (r: (string, string, Option<string>))
      ensures PortPair(r.0, r.1, r.2) == this
    {
      (source, destination, name)
    }

    /** `show()`: `"{source} -> {destination}, {name}"`. */
    function Show(): (r: string)
      ensures |r| == |source| + |destination| + 6 + |NameText(name)|
      ensures source <= r
      ensures r[|source|..|source| + 4] == " -> "
      ensures r[|source| + 4..|source| + 4 + |destination|] == destination
      ensures r[|source| + 4 + |destination|..|source| + 6 + |destination|] == ", "
      ensures r[|source| + 6 + |destination|..] == NameText(name)
    {
      source + " -> " + destination + ", " + NameText(name)
    }
  }

  /** How an f-string renders the optional name: `None` when absent. */
  function NameText(name: Option<string>): string
  {
    if name.Some? then name.value else "None"
  }

  /** `PortPair(source, destination, name=None)`. */
  function Create(source: string, destination: string, name: Option<string> := None): (p: PortPair)
    ensures p.GetAll() == (source, destination, name)
  {
    PortPair(source, destination, name)
  }

  /** The values the module's tests pin. */
  lemma PinnedExamples()
    ensures Create("source", "destination", Some("name")).GetAll() == ("source", "destination", Some("name"))
    ensures Create("source", "destination", Some("name")).Show() == "source -> destination, name"
    ensures Create("source", "destination").name == None
    ensures Create("source", "destination").Show() == "source -> destination, None"
  {
  }
}
