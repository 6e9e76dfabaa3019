/** The client's authentication state: the reducer over `AuthState`, its initial
    value, the start-up restoration from stored values, and how the outcome of a
    login or registration request becomes an action. */
module AuthContext {
  import opened Util
  import opened Types

  datatype AuthAction =
    | LoginSuccess(user: User, token: string)
    | Logout
    | RegisterSuccess(user: User, token: string)
    | AuthError(message: string)
    | ClearError

  /** Nobody is signed in and nothing has gone wrong yet. */
  const Initial: AuthState := AuthState(false, None, None, None)

  /** The transition function of the authentication state. */
  function Reduce(s: AuthState, a: AuthAction): AuthState
  {
    match a
    case LoginSuccess(u, t) => s.(isAuthenticated := true, user := Some(u), token := Some(t), error := None)
    case RegisterSuccess(u, t) => s.(isAuthenticated := true, user := Some(u), token := Some(t), error := None)
    case Logout => s.(isAuthenticated := false, user := None, token := None)
    case AuthError(m) => s.(error := Some(m))
    case ClearError => s.(error := None)
  }

  /** The state after a run of actions, applied left to right. */
  function Run(s: AuthState, actions: seq<AuthAction>): AuthState
    decreases |actions|
  {
    if actions == [] then s else Run(Reduce(s, actions[0]), actions[1..])
  }

  /** Signed in exactly when a user and a token are held. */
  predicate SessionConsistent(s: AuthState)
  {
    s.isAuthenticated <==> (s.user.Some? && s.token.Some?)
  }

  /** A successful login and a successful registration lead to the same state:
      signed in as that user with that token, and no error. */
  lemma LoginIsRegister(s: AuthState, u: User, t: string)
    ensures Reduce(s, LoginSuccess(u, t)) == Reduce(s, RegisterSuccess(u, t))
    ensures var r := Reduce(s, LoginSuccess(u, t));
      r.isAuthenticated && r.user == Some(u) && r.token == Some(t) && r.error == None
  {
  }

  /** Logging out signs out, drops user and token, keeps the error, and is idempotent. */
  lemma LogoutKeepsError(s: AuthState)
    ensures var r := Reduce(s, Logout);
      !r.isAuthenticated && r.user == None && r.token == None && r.error == s.error
    ensures Reduce(Reduce(s, Logout), Logout) == Reduce(s, Logout)
  {
  }

  /** An authentication error records the message and changes nothing else. */
  lemma AuthErrorOnlyError(s: AuthState, m: string)
    ensures Reduce(s, AuthError(m)) == s.(error := Some(m))
    ensures Reduce(s, AuthError(m)).isAuthenticated == s.isAuthenticated
  {
  }

  /** Clearing the error empties it, changes nothing else, and doing it twice is doing it once. */
  lemma ClearErrorIdempotent(s: AuthState)
    ensures Reduce(s, ClearError) == s.(error := None)
    ensures Reduce(Reduce(s, ClearError), ClearError) == Reduce(s, ClearError)
  {
  }

  /** The initial state is signed out with nothing held, and it is consistent. */
  lemma InitialSignedOut()
    ensures !Initial.isAuthenticated && Initial.user.None? && Initial.error.None? && Initial.token.None?
    ensures SessionConsistent(Initial)
  {
  }

  /** Every action keeps "signed in iff user and token are held". */
  lemma ReducePreserves(s: AuthState, a: AuthAction)
    requires SessionConsistent(s)
    ensures SessionConsistent(Reduce(s, a))
  {
  }

  /** Every run of actions from a consistent state ends in a consistent state. */
  lemma {:induction false} RunPreserves(s: AuthState, actions: seq<AuthAction>)
    requires SessionConsistent(s)
    ensures SessionConsistent(Run(s, actions))
    decreases |actions|
  {
    if actions != [] {
      ReducePreserves(s, actions[0]);
      RunPreserves(Reduce(s, actions[0]), actions[1..]);
    }
  }

  /** Start-up: a session is restored when both a stored token and a stored user are
      present and non-empty; the stored user is read back with `parseUser`. */
  function CheckAuth(storedToken: Option<string>, storedUser: Option<string>, parseUser: string -> User): (a: Option<AuthAction>)
    ensures a.Some? <==> Truthy(storedToken) && Truthy(storedUser)
    ensures a.Some? ==> a.value == LoginSuccess(parseUser(storedUser.value), storedToken.value)
  {
    if Truthy(storedToken) && Truthy(storedUser) then
      Some(LoginSuccess(parseUser(storedUser.value), storedToken.value))
    else None
  }

  /** The state after start-up. */
  function Startup(storedToken: Option<string>, storedUser: Option<string>, parseUser: string -> User): AuthState
  {
    match CheckAuth(storedToken, storedUser, parseUser)
    case None => Initial
    case Some(a) => Reduce(Initial, a)
  }

  /** Start-up signs in exactly when both stored values are there, and then as the stored user. */
  lemma StartupRestores(storedToken: Option<string>, storedUser: Option<string>, parseUser: string -> User)
    ensures var r := Startup(storedToken, storedUser, parseUser);
      r.isAuthenticated <==> Truthy(storedToken) && Truthy(storedUser)
    ensures var r := Startup(storedToken, storedUser, parseUser);
      r.isAuthenticated ==> r.user == Some(parseUser(storedUser.value)) && r.token == storedToken && r.error == None
    ensures SessionConsistent(Startup(storedToken, storedUser, parseUser))
  {
  }

  /** What the login and signup endpoints answer, as the client sees it. */
  datatype Reply =
    | Unreachable                                                    // the request threw
    | Answer(ok: bool, message: Option<string>, user: User, token: string)

  /** The action a login request dispatches, and whether it succeeded. */
  function LoginOutcome(reply: Reply): (r: (bool, AuthAction))
    ensures r.0 <==> reply.Answer? && reply.ok
    ensures r.0 ==> r.1 == LoginSuccess(reply.user, reply.token)
    ensures reply.Unreachable? ==> r.1 == AuthError("Login failed. Please check your connection.")
    ensures reply.Answer? && !reply.ok ==> r.1 == AuthError(OrDefault(reply.message, "Login failed"))
  {
    match reply
    case Unreachable => (false, AuthError("Login failed. Please check your connection."))
    case Answer(ok, m, u, t) =>
      if !ok then (false, AuthError(OrDefault(m, "Login failed"))) else (true, LoginSuccess(u, t))
  }

  /** The action a registration request dispatches, and whether it succeeded. */
  function RegisterOutcome(reply: Reply): (r: (bool, AuthAction))
    ensures r.0 <==> reply.Answer? && reply.ok
    ensures r.0 ==> r.1 == RegisterSuccess(reply.user, reply.token)
    ensures reply.Unreachable? ==> r.1 == AuthError("Registration failed. Please check your connection.")
    ensures reply.Answer? && !reply.ok ==> r.1 == AuthError(OrDefault(reply.message, "Registration failed"))
  {
    match reply
    case Unreachable => (false, AuthError("Registration failed. Please check your connection."))
    case Answer(ok, m, u, t) =>
      if !ok then (false, AuthError(OrDefault(m, "Registration failed"))) else (true, RegisterSuccess(u, t))
  }

  /** A failed login leaves the sign-in status as it was and always records some message. */
  lemma FailedLoginKeepsSession(s: AuthState, reply: Reply)
    requires !LoginOutcome(reply).0
    ensures var r := Reduce(s, LoginOutcome(reply).1);
      r.isAuthenticated == s.isAuthenticated && r.user == s.user && r.token == s.token && r.error.Some? && r.error.value != ""
  {
  }

  /** A successful login stores the user's text form and the token; with a reader that undoes
      the writer, a later start-up restores the very same state the login produced. */
  lemma LoginThenRestart(u: User, t: string, showUser: User -> string, parseUser: string -> User)
    requires t != "" && showUser(u) != "" && parseUser(showUser(u)) == u
    ensures Startup(Some(t), Some(showUser(u)), parseUser) == Reduce(Initial, LoginSuccess(u, t))
  {
  }
}
