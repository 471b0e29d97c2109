/** The route guard of src/components/ProtectedRoute.jsx. */
module ProtectedRoute {
  import opened Wrappers
  import opened Router
  import Session

  const LoginPath := "/login"

  /** What the guard renders: the checking spinner, a redirect, or the guarded children. */
  datatype Rendered<C> = Spinner | Redirect(nav: Navigation) | Render(children: C)

  /**
   * While the session is loading, the spinner, whatever the user; once loaded, a replacing redirect to
   * the login page carrying the attempted location, or the children unchanged when someone is logged in.
   */
  function Guard<C>(loading: bool, user: Option<Session.User>, location: Location, children: C): (r: Rendered<C>)
    ensures r.Spinner? <==> loading
    ensures r.Redirect? <==> !loading && user.None?
    ensures r.Redirect? ==> r.nav == Navigation(LoginPath, true, FromState(location))
    ensures r.Render? <==> !loading && user.Some?
    ensures r.Render? ==> r.children == children
  {
    if loading then Spinner
    else if user.None? then Redirect(Navigation(LoginPath, true, FromState(location)))
    else Render(children)
  }
}
