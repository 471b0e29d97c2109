/**
 * The session store of src/context/AuthContext.jsx: who is logged in, whether the stored session is
 * still being checked, the durable storage that keeps the token and the cached user, and the
 * HTTP client's default Authorization header.
 *
 * Each network call is replaced by its reply, passed in as a parameter, so every asynchronous
 * handler becomes a plain method. The pure functions below say what each handler does to the
 * whole state; the class SessionStore performs the same steps one assignment at a time.
 */
module Session {
  import opened Wrappers
  import opened Api
  import Text

  /** The user record the auth service returns. A field the service leaves out reads as 0 or "". */
  datatype User = User(id: int, name: string, email: string, isAdmin: bool)

  /**
   * What an auth endpoint call produced: a reply body, or a thrown error that may carry the
   * server's message (`error.response.data.message`).
   */
  datatype Reply =
    | Reply(success: bool, user: User, token: string, message: Option<string>)
    | Thrown(serverMessage: Option<string>)

  /** The tagged result login and register resolve to; they never throw. */
  datatype AuthResult = Succeeded(user: User) | Failed(message: Option<string>)

  const LoginFailed := "Login failed"
  const RegistrationFailed := "Registration failed"

  /** Logout ends with a full-page navigation here. */
  const LogoutDestination := "/"

  /** The serialised user kept under `userInfo`. Its exact text is not relied on, only its shape. */
  function UserInfoJson(u: User): (s: string)
    ensures |s| >= 2 && s[0] == '{' && s[|s| - 1] == '}'
  {
    "{\"id\":" + Text.IntToDecimal(u.id)
    + ",\"name\":\"" + u.name
    + "\",\"email\":\"" + u.email
    + "\",\"isAdmin\":" + (if u.isAdmin then "true" else "false")
    + "}"
  }

  /** Restore consults the server only when both a token and a cached user are stored and non-empty. */
  predicate HasStoredSession(storage: Storage) {
    StoredToken(storage).Some? && UserInfoKey in storage && storage[UserInfoKey] != ""
  }

  /** The whole state of the session store. */
  datatype State = State(user: Option<User>, loading: bool, storage: Storage, headers: Headers)

  /** A logged-in user always comes with a stored token and cached user, and the default header carries that token. */
  predicate Invariant(s: State) {
    s.user.Some? ==>
      && TokenKey in s.storage
      && UserInfoKey in s.storage
      && AuthorizationHeader in s.headers
      && s.headers[AuthorizationHeader] == Bearer(s.storage[TokenKey])
  }

  /** What the store exposes as `isAuthenticated`; under the invariant a token is then stored. */
  predicate IsAuthenticated(s: State)
    ensures IsAuthenticated(s) <==> s.user.Some?
    ensures IsAuthenticated(s) && Invariant(s) ==> TokenKey in s.storage && UserInfoKey in s.storage
  {
    s.user.Some?
  }

  /** The state the store starts in, over whatever storage survived the last visit. */
  function Initial(persisted: Storage): (s: State)
    ensures s.user.None? && s.loading && s.storage == persisted
    ensures AuthorizationHeader !in s.headers
    ensures Invariant(s)
  {
    State(None, true, persisted, map[])
  }

  /** Removes the stored credential and the default header. */
  function Forget(s: State): State {
    s.(storage := s.storage - {TokenKey, UserInfoKey}, headers := s.headers - {AuthorizationHeader})
  }

  /**
   * Restoring the session at start-up, given the reply of the profile request (consulted only when
   * that request is made).
   */
  function AfterRestore(s: State, profile: Reply): (r: State)
    ensures !r.loading
    ensures !HasStoredSession(s.storage) ==> r == s.(loading := false)
    ensures HasStoredSession(s.storage) && profile.Reply? && profile.success ==>
              r.user == Some(profile.user) && r.storage == s.storage
              && r.headers == s.headers[AuthorizationHeader := Bearer(s.storage[TokenKey])]
    ensures HasStoredSession(s.storage) && !(profile.Reply? && profile.success) ==>
              && r.user == s.user
              && r.storage == s.storage - {TokenKey, UserInfoKey}
              && r.headers == s.headers - {AuthorizationHeader}
              && StoredToken(r.storage).None?
    ensures Invariant(s) && s.user.None? ==> Invariant(r)
  {
    if !HasStoredSession(s.storage) then
      s.(loading := false)
    else
      var attached := s.(headers := s.headers[AuthorizationHeader := Bearer(s.storage[TokenKey])]);
      if profile.Reply? && profile.success then
        attached.(user := Some(profile.user), loading := false)
      else
        Forget(attached).(loading := false)
  }

  /**
   * Login and register share this handler; `fallback` is the message used when the call throws
   * without a usable server message.
   */
  function AfterAuthenticate(s: State, reply: Reply, fallback: string): (r: (State, AuthResult))
    ensures r.1.Succeeded? <==> reply.Reply? && reply.success
    ensures r.1.Succeeded? ==>
              && r.1.user == reply.user
              && r.0.user == Some(reply.user)
              && r.0.loading == s.loading
              && r.0.storage == s.storage[TokenKey := reply.token][UserInfoKey := UserInfoJson(reply.user)]
              && r.0.headers == s.headers[AuthorizationHeader := Bearer(reply.token)]
    ensures r.1.Failed? ==> r.0 == s
    ensures reply.Reply? && !reply.success ==> r.1 == Failed(reply.message)
    ensures reply.Thrown? ==> r.1 == Failed(Some(Text.OrElse(reply.serverMessage, fallback)))
    ensures Invariant(s) ==> Invariant(r.0)
  {
    match reply
    case Reply(ok, u, token, message) =>
      if ok then
        (s.(user := Some(u),
            storage := s.storage[TokenKey := token][UserInfoKey := UserInfoJson(u)],
            headers := s.headers[AuthorizationHeader := Bearer(token)]),
         Succeeded(u))
      else
        (s, Failed(message))
    case Thrown(serverMessage) =>
      (s, Failed(Some(Text.OrElse(serverMessage, fallback))))
  }

  /** Logging out, from any state. */
  function AfterLogout(s: State): (r: State)
    ensures r.user.None? && r.loading == s.loading
    ensures r.storage == s.storage - {TokenKey, UserInfoKey}
    ensures r.headers == s.headers - {AuthorizationHeader}
    ensures !IsAuthenticated(r)
    ensures StoredToken(r.storage).None? && !HasStoredSession(r.storage)
    ensures Invariant(r)
  {
    Forget(s).(user := None)
  }

  /** The operations the pages may invoke once the session is restored. */
  datatype Op = LoginOp(reply: Reply) | RegisterOp(reply: Reply) | LogoutOp

  function Step(s: State, op: Op): State {
    match op
    case LoginOp(reply) => AfterAuthenticate(s, reply, LoginFailed).0
    case RegisterOp(reply) => AfterAuthenticate(s, reply, RegistrationFailed).0
    case LogoutOp => AfterLogout(s)
  }

  function Run(s: State, ops: seq<Op>): State
    decreases |ops|
  {
    if ops == [] then s else Run(Step(s, ops[0]), ops[1..])
  }

  /** Every sequence of logins, registrations and logouts keeps the invariant and leaves `loading` alone. */
  lemma {:induction false} RunKeepsInvariant(s: State, ops: seq<Op>)
    requires Invariant(s)
    ensures Invariant(Run(s, ops))
    ensures Run(s, ops).loading == s.loading
    decreases |ops|
  {
    if ops != [] {
      RunKeepsInvariant(Step(s, ops[0]), ops[1..]);
    }
  }

  /**
   * A whole visit: start over the persisted storage, restore, then any operations. The invariant
   * holds throughout and `loading` is false once restore has run.
   */
  lemma SessionLifetime(persisted: Storage, profile: Reply, ops: seq<Op>)
    ensures Invariant(Run(AfterRestore(Initial(persisted), profile), ops))
    ensures !Run(AfterRestore(Initial(persisted), profile), ops).loading
  {
    RunKeepsInvariant(AfterRestore(Initial(persisted), profile), ops);
  }

  /**
   * A successful login with a non-empty token survives a reload: the restore on the next visit
   * makes the profile request and ends authenticated as the server's user, or, if the server
   * rejects the token, anonymous with the credential wiped.
   */
  lemma ReloadAfterLogin(s: State, reply: Reply, profile: Reply)
    requires reply.Reply? && reply.success && reply.token != ""
    ensures HasStoredSession(AfterAuthenticate(s, reply, LoginFailed).0.storage)
    ensures profile.Reply? && profile.success ==>
              AfterRestore(Initial(AfterAuthenticate(s, reply, LoginFailed).0.storage), profile).user == Some(profile.user)
    ensures !(profile.Reply? && profile.success) ==>
              var r := AfterRestore(Initial(AfterAuthenticate(s, reply, LoginFailed).0.storage), profile);
              r.user.None? && StoredToken(r.storage).None?
  {
    var after := AfterAuthenticate(s, reply, LoginFailed).0;
    assert TokenKey != UserInfoKey;
    assert after.storage[TokenKey] == reply.token;
    assert after.storage[UserInfoKey] == UserInfoJson(reply.user);
  }

  /** While logged in, the interceptor puts on every request the same header the client carries by default. */
  lemma LoggedInRequestsCarryToken(s: State, headers: Headers)
    requires Invariant(s) && s.user.Some? && s.storage[TokenKey] != ""
    ensures AuthorizeHeaders(s.storage, headers)[AuthorizationHeader] == s.headers[AuthorizationHeader]
  {
  }

  /** After logout the interceptor finds no token and leaves every request's headers as they were. */
  lemma LogoutStopsAuthorization(s: State, headers: Headers)
    ensures AuthorizeHeaders(AfterLogout(s).storage, headers) == headers
  {
  }

  /** The session store, updated in place as the source does. */
  class SessionStore {
    var user: Option<User>
    var loading: bool
    var storage: Storage
    var headers: Headers

    function Snapshot(): State
      reads this
    {
      State(user, loading, storage, headers)
    }

    predicate Valid()
      reads this
    {
      Invariant(Snapshot())
    }

    constructor (persisted: Storage)
      ensures Snapshot() == Initial(persisted)
      ensures Valid()
    {
      user := None;
      loading := true;
      storage := persisted;
      headers := map[];
    }

    /** Removes the token and the cached user from storage and deletes the default header. */
    method ForgetCredential()
      modifies this`storage, this`headers
      ensures storage == old(storage) - {TokenKey, UserInfoKey}
      ensures headers == old(headers) - {AuthorizationHeader}
    {
      storage := storage - {TokenKey};
      storage := storage - {UserInfoKey};
      headers := headers - {AuthorizationHeader};
    }

    /** Stores the token and the serialised user, sets the default header, then the user. */
    method Establish(u: User, token: string)
      modifies this`storage, this`headers, this`user
      ensures storage == old(storage)[TokenKey := token][UserInfoKey := UserInfoJson(u)]
      ensures headers == old(headers)[AuthorizationHeader := Bearer(token)]
      ensures user == Some(u)
    {
      storage := storage[TokenKey := token];
      storage := storage[UserInfoKey := UserInfoJson(u)];
      headers := headers[AuthorizationHeader := Bearer(token)];
      user := Some(u);
    }

    /**
     * The start-up check, run once when the store is mounted. `requested` tells whether the
     * profile request was made (and so whether `profile` was consulted).
     */
    method Restore(profile: Reply) returns (requested: bool)
      requires Valid() && user.None?
      modifies this
      ensures requested == HasStoredSession(old(storage))
      ensures Snapshot() == AfterRestore(old(Snapshot()), profile)
      ensures Valid() && !loading
    {
      var token := StoredToken(storage);
      var userInfo := if UserInfoKey in storage then Some(storage[UserInfoKey]) else None;
      requested := token.Some? && Text.Truthy(userInfo);
      if requested {
        headers := headers[AuthorizationHeader := Bearer(token.value)];
        if profile.Reply? && profile.success {
          user := Some(profile.user);
        } else {
          ForgetCredential();
        }
      }
      loading := false;
    }

    method Authenticate(reply: Reply, fallback: string) returns (result: AuthResult)
      requires Valid()
      modifies this
      ensures (Snapshot(), result) == AfterAuthenticate(old(Snapshot()), reply, fallback)
      ensures Valid()
    {
      match reply
      case Reply(ok, u, token, message) =>
        if ok {
          Establish(u, token);
          result := Succeeded(u);
        } else {
          result := Failed(message);
        }
      case Thrown(serverMessage) =>
        result := Failed(Some(Text.OrElse(serverMessage, fallback)));
    }

    /** Login, given the reply of the login request; the credentials only travel in that request. */
    method Login(reply: Reply) returns (result: AuthResult)
      requires Valid()
      modifies this
      ensures (Snapshot(), result) == AfterAuthenticate(old(Snapshot()), reply, LoginFailed)
      ensures Valid()
    {
      result := Authenticate(reply, LoginFailed);
    }

    /** Register, given the reply of the registration request. */
    method Register(reply: Reply) returns (result: AuthResult)
      requires Valid()
      modifies this
      ensures (Snapshot(), result) == AfterAuthenticate(old(Snapshot()), reply, RegistrationFailed)
      ensures Valid()
    {
      result := Authenticate(reply, RegistrationFailed);
    }

    /** Logout; `destination` is where the full-page navigation goes. */
    method Logout() returns (destination: string)
      modifies this
      ensures Snapshot() == AfterLogout(old(Snapshot()))
      ensures destination == LogoutDestination
      ensures Valid()
    {
      ForgetCredential();
      user := None;
      destination := LogoutDestination;
    }
  }
}
