/** The six delivery routes of the routing fixture and the paths naming them. */
module Routes {
  import opened Wrappers

  datatype Route = A | B | C | D | E | F

  const PathA: string := "myevent.A"
  const PathB: string := "myevent.B"
  const PathC: string := "myevent.C"
  const PathD: string := "myevent.D"
  const PathE: string := "myevent.E"
  const PathF: string := "myevent.F"

  /** The path the broker names when it delivers an event on route `r`. */
  function PathOf(r: Route): string
  {
    match r
    case A => PathA
    case B => PathB
    case C => PathC
    case D => PathD
    case E => PathE
    case F => PathF
  }

  /**
   * The switch of `OnTopicEvent` on the path the broker asserts: the route
   * whose path it is, or nothing for any other path (the `default` arm).
   */
  function PathToRoute(path: string): (r: Option<Route>)
    ensures r.Some? ==> PathOf(r.value) == path
    ensures r.None? ==> forall q :: PathOf(q) != path
  {
    if path == PathA then Some(A)
    else if path == PathB then Some(B)
    else if path == PathC then Some(C)
    else if path == PathD then Some(D)
    else if path == PathE then Some(E)
    else if path == PathF then Some(F)
    else None
  }

  /** Every route is recognised under its own path, and only under it. */
  lemma PathRoundTrip(r: Route, path: string)
    ensures PathToRoute(PathOf(r)) == Some(r)
    ensures PathToRoute(path) == Some(r) <==> path == PathOf(r)
  {
  }
}
