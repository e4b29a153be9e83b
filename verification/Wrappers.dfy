/** The usual option type and the search that returns one, shared by every component. */
module Wrappers {
  datatype Option<+T> = None | Some(value: T)

  function FindFirst<T>(xs: seq<T>, matches: T -> bool): (r: Option<T>)
    ensures r.Some? ==> r.value in xs && matches(r.value)
    ensures r.None? ==> forall i :: 0 <= i < |xs| ==> !matches(xs[i])
  {
    if xs == [] then None
    else if matches(xs[0]) then Some(xs[0]) else FindFirst(xs[1..], matches)
  }
}
