/** The parsed form of a path: an optional root component and its name elements. */
module Paths {
  import opened Wrappers

  /**
   * A path split into its root component (None for a path without one) and
   * its name elements, in order. Equality is structural: nothing is
   * normalised on construction.
   */
  datatype PathNames = PathNames(root: Option<string>, names: seq<string>)

  /**
   * The parent: same root, last name element dropped; None when there are no
   * name elements at all.
   */
  function Parent(p: PathNames): (r: Option<PathNames>)
    ensures r.None? <==> p.names == []
    ensures r.Some? ==> r.value.root == p.root && r.value.names + [p.names[|p.names| - 1]] == p.names
  {
    if p.names == [] then None else Some(PathNames(p.root, p.names[..|p.names| - 1]))
  }
}
