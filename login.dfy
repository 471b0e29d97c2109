/**
 * The sign-in page of src/pages/LoginPage.jsx: where to go after signing in, the field check,
 * and the handling of the session store's login result.
 */
module Login {
  import opened Wrappers
  import opened Router
  import Session
  import Text
  import ProtectedRoute

  const FillAllFields := "Please fill in all fields"
  const HomePath := "/"

  /** The post-login target: the path of the location stored in `state.from`, or the home page. */
  function ReturnPath(location: Location): (p: string)
    ensures p != ""
    ensures location.state.FromState? && location.state.from.pathname != "" ==>
              p == location.state.from.pathname
    ensures !(location.state.FromState? && location.state.from.pathname != "") ==> p == HomePath
  {
    if location.state.FromState? && location.state.from.pathname != "" then
      location.state.from.pathname
    else
      HomePath
  }

  predicate FieldsFilled(email: string, password: string) {
    email != "" && password != ""
  }

  /**
   * The guard's redirect and the login page agree: the path the guard stores is the path the login
   * page goes back to.
   */
  lemma RedirectRoundTrip<C>(location: Location, children: C)
    requires location.pathname != ""
    ensures ProtectedRoute.Guard(false, None, location, children).Redirect?
    ensures Arrive(ProtectedRoute.Guard(false, None, location, children).nav).pathname == ProtectedRoute.LoginPath
    ensures ReturnPath(Arrive(ProtectedRoute.Guard(false, None, location, children).nav)) == location.pathname
  {
    SplitJoin(ProtectedRoute.LoginPath, "");
    assert ProtectedRoute.LoginPath + "" == ProtectedRoute.LoginPath;
  }

  /**
   * Only the path comes back: after the round trip the query string and history state of the
   * attempted location are gone.
   */
  lemma RoundTripDropsQuery<C>(location: Location, children: C)
    requires location.pathname != "" && '?' !in location.pathname
    ensures var back := Navigation(ReturnPath(Arrive(ProtectedRoute.Guard(false, None, location, children).nav)), true, NoState);
            Arrive(back) == Location(location.pathname, "", NoState)
  {
    RedirectRoundTrip(location, children);
    SplitJoin(location.pathname, "");
    assert location.pathname + "" == location.pathname;
  }

  /** Which form field an input edits. */
  datatype Field = EmailField | PasswordField

  class LoginPage {
    var email: string
    var password: string
    var error: string
    var loading: bool
    const location: Location

    constructor (location: Location)
      ensures email == "" && password == "" && error == "" && !loading
      ensures this.location == location
    {
      email, password, error, loading := "", "", "", false;
      this.location := location;
    }

    /** An edit of one form field. */
    method Change(field: Field, value: string)
      modifies this`email, this`password
      ensures field == EmailField ==> email == value && password == old(password)
      ensures field == PasswordField ==> password == value && email == old(email)
    {
      match field
      case EmailField => email := value;
      case PasswordField => password := value;
    }

    /** The already-logged-in effect: someone signed in is sent straight on to the target. */
    method LoggedInEffect(user: Option<Session.User>) returns (nav: Option<Navigation>)
      ensures nav.Some? <==> user.Some?
      ensures nav.Some? ==> nav.value == Navigation(ReturnPath(location), true, NoState)
    {
      if user.Some? {
        nav := Some(Navigation(ReturnPath(location), true, NoState));
      } else {
        nav := None;
      }
    }

    /** The submit handler up to the login call; `proceed` says whether login is called. */
    method BeginAttempt() returns (proceed: bool)
      modifies this`error, this`loading
      ensures proceed == FieldsFilled(email, password)
      ensures !proceed ==> error == FillAllFields && loading == old(loading)
      ensures proceed ==> loading && error == ""
    {
      if email == "" || password == "" {
        error := FillAllFields;
        proceed := false;
        return;
      }
      loading := true;
      error := "";
      proceed := true;
    }

    /** The submit handler after login resolves. */
    method FinishAttempt(result: Session.AuthResult) returns (nav: Option<Navigation>)
      modifies this`error, this`loading
      ensures !loading
      ensures result.Failed? ==> nav.None? && error == Text.OrElse(result.message, Session.LoginFailed)
      ensures result.Succeeded? ==>
                nav == Some(Navigation(ReturnPath(location), true, NoState)) && error == old(error)
    {
      if result.Failed? {
        error := Text.OrElse(result.message, Session.LoginFailed);
        nav := None;
      } else {
        nav := Some(Navigation(ReturnPath(location), true, NoState));
      }
      loading := false;
    }

    /**
     * The whole submit handler against the session store, given the reply of the login request.
     * The submit button is disabled while loading, so a submit starts with `loading` false.
     */
    method HandleSubmit(session: Session.SessionStore, reply: Session.Reply) returns (nav: Option<Navigation>)
      requires !loading && session.Valid()
      modifies this`error, this`loading, session
      ensures session.Valid() && !loading
      ensures !FieldsFilled(old(email), old(password)) ==>
                error == FillAllFields && nav.None? && session.Snapshot() == old(session.Snapshot())
      ensures FieldsFilled(old(email), old(password)) ==>
                var after := Session.AfterAuthenticate(old(session.Snapshot()), reply, Session.LoginFailed);
                && session.Snapshot() == after.0
                && (after.1.Failed? ==> nav.None? && error == Text.OrElse(after.1.message, Session.LoginFailed))
                && (after.1.Succeeded? ==> nav == Some(Navigation(ReturnPath(location), true, NoState)) && error == "")
    {
      var proceed := BeginAttempt();
      if !proceed {
        nav := None;
        return;
      }
      var result := session.Login(reply);
      nav := FinishAttempt(result);
    }
  }
}
