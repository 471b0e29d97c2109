/**
 * The parts of client-side routing the pages depend on: a location with its history state,
 * a navigation request, and the location a navigation arrives at.
 */
module Router {

  /** The current location: path, query string (with its leading '?') and history state. */
  datatype Location = Location(pathname: string, search: string, state: HistoryState)

  /** The history state a navigation may carry; ProtectedRoute stores the attempted location. */
  datatype HistoryState = NoState | FromState(from: Location)

  /** A navigation the page asks for: target, whether it replaces the history entry, and the state it carries. */
  datatype Navigation = Navigation(to: string, replace: bool, state: HistoryState)

  /** The index of the first '?' in a link target, or its length when there is none. */
  function QueryStart(to: string): (k: nat)
    ensures k <= |to|
    ensures forall i :: 0 <= i < k ==> to[i] != '?'
    ensures k < |to| ==> to[k] == '?'
    decreases |to|
  {
    if to == "" || to[0] == '?' then 0 else 1 + QueryStart(to[1..])
  }

  /** Splits a link target at its first '?' into path and query string. */
  function SplitQuery(to: string): (r: (string, string))
    ensures r.0 + r.1 == to
    ensures '?' !in r.0
    ensures r.1 == "" || r.1[0] == '?'
  {
    var k := QueryStart(to);
    assert to[..k] + to[k..] == to;
    (to[..k], to[k..])
  }

  /** A path without '?' followed by a query string (empty, or starting with '?') splits back into the two. */
  lemma SplitJoin(path: string, query: string)
    requires '?' !in path
    requires query == "" || query[0] == '?'
    ensures SplitQuery(path + query) == (path, query)
  {
    var to := path + query;
    var k := QueryStart(to);
    assert forall i :: 0 <= i < |path| ==> to[i] == path[i];
    assert query != "" ==> to[|path|] == '?';
    assert k == |path|;
    assert to[..k] == path && to[k..] == query;
  }

  /** Where a client-side navigation lands. */
  function Arrive(nav: Navigation): (loc: Location)
    ensures loc.pathname + loc.search == nav.to
    ensures '?' !in loc.pathname
    ensures loc.state == nav.state
  {
    var parts := SplitQuery(nav.to);
    Location(parts.0, parts.1, nav.state)
  }

  /** Where a full-page load of `url` lands: no history state survives it. */
  function Load(url: string): (loc: Location)
    ensures loc.pathname + loc.search == url
    ensures loc.state == NoState
  {
    Arrive(Navigation(url, false, NoState))
  }
}
