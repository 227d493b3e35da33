/** The client's authentication state: the reducer that every login,
    registration, session restore and logout goes through, its initial
    state, and the provider that keeps the token in local storage next to
    the reducer state. */
module AuthContext {
  import opened Common
  import opened ClientCommon
  import AuthMiddleware

  /** The user record a login or registration returns, with its token. */
  datatype Account = Account(id: UserId, name: string, email: string, role: string, token: Option<string>)

  datatype AuthState = AuthState(
    user: Option<Account>,
    token: Option<string>,
    isAuthenticated: bool,
    loading: bool,
    error: Option<string>)

  datatype Action =
    | LoginStart
    | LoginSuccess(payload: Account)
    | LoginFailure(message: string)
    | Logout
    | ClearError
    | Unknown(kind: string)

  /** `authReducer`. */
  function Reduce(s: AuthState, a: Action): (t: AuthState)
    ensures a.LoginStart? ==>
      t.loading && t.error.None?
      && t.user == s.user && t.token == s.token && t.isAuthenticated == s.isAuthenticated
    ensures a.LoginSuccess? ==>
      t.isAuthenticated && t.user == Some(a.payload) && t.token == a.payload.token
      && !t.loading && t.error.None?
    ensures a.LoginFailure? ==>
      !t.isAuthenticated && t.user.None? && t.token.None?
      && !t.loading && t.error == Some(a.message)
    ensures a.Logout? ==>
      !t.isAuthenticated && t.user.None? && t.token.None? && t.error.None?
      && t.loading == s.loading
    ensures a.ClearError? ==> t == s.(error := None)
    ensures a.Unknown? ==> t == s
  {
    match a
    case LoginStart => s.(loading := true, error := None)
    case LoginSuccess(p) => s.(loading := false, user := Some(p), token := p.token, isAuthenticated := true, error := None)
    case LoginFailure(m) => s.(loading := false, user := None, token := None, isAuthenticated := false, error := Some(m))
    case Logout => s.(user := None, token := None, isAuthenticated := false, error := None)
    case ClearError => s.(error := None)
    case Unknown(_) => s
  }

  /** `initialState`: a stored token is picked up, but nobody is logged in
      until the session has been restored. */
  function InitialState(storedToken: Option<string>): (s: AuthState)
    ensures !s.isAuthenticated && s.user.None? && s.token == storedToken
    ensures !s.loading && s.error.None?
  {
    AuthState(None, storedToken, false, false, None)
  }

  /** The state's invariant: an authenticated state has a user. */
  predicate Coherent(s: AuthState) {
    s.isAuthenticated ==> s.user.Some?
  }

  /** Dispatches the actions in order. */
  function Run(s: AuthState, actions: seq<Action>): AuthState
    decreases |actions|
  {
    if actions == [] then s else Run(Reduce(s, actions[0]), actions[1..])
  }

  /** Every action keeps the invariant, so every reachable state has it. */
  lemma {:induction false} RunKeepsCoherent(s: AuthState, actions: seq<Action>)
    requires Coherent(s)
    ensures Coherent(Run(s, actions))
    decreases |actions|
  {
    if actions != [] {
      RunKeepsCoherent(Reduce(s, actions[0]), actions[1..]);
    }
  }

  /** Only LOGIN_SUCCESS authenticates: from an unauthenticated state, a run
      that ends authenticated contains one. */
  lemma {:induction false} OnlyLoginSuccessAuthenticates(s: AuthState, actions: seq<Action>)
    requires !s.isAuthenticated
    requires Run(s, actions).isAuthenticated
    ensures exists i :: 0 <= i < |actions| && actions[i].LoginSuccess?
    decreases |actions|
  {
    if actions != [] {
      var t := Reduce(s, actions[0]);
      if !actions[0].LoginSuccess? {
        assert !t.isAuthenticated;
        OnlyLoginSuccessAuthenticates(t, actions[1..]);
        var i :| 0 <= i < |actions[1..]| && actions[1..][i].LoginSuccess?;
        assert actions[i + 1] == actions[1..][i];
      }
    }
  }

  /** Logging out always ends the session, whatever state it comes from, and
      does it twice as well as once. */
  lemma LogoutEndsSession(s: AuthState)
    ensures var t := Reduce(s, Logout);
      !t.isAuthenticated && t.user.None? && t.token.None? && Coherent(t)
      && Reduce(t, Logout) == t && t.loading == s.loading
  {
  }

  /** The Authorization header the client attaches while it holds a token. */
  function AuthorizationHeader(token: Option<string>): (h: Option<string>)
    ensures h.Some? <==> token.Some? && token.value != ""
  {
    if token.Some? && token.value != "" then Some("Bearer " + token.value) else None
  }

  /** The header the client builds is the one the server's `protect` reads:
      the token it carries comes back out of it. */
  lemma HeaderRoundTrip(token: string)
    requires token != "" && ' ' !in token
    ensures AuthorizationHeader(Some(token)).Some?
    ensures AuthMiddleware.BearerToken(AuthorizationHeader(Some(token)).value) == Some(token)
  {
    AuthMiddleware.BearerTokenOfHeader(token);
  }

  /** After a successful login or registration the client sends the token
      the server returned, and `protect` reads that same token back; after
      a failed one no header is sent. */
  lemma SignInSendsReturnedToken(s: AuthState, a: Account, m: string)
    requires a.token.Some? && a.token.value != "" && ' ' !in a.token.value
    ensures var t := Reduce(Reduce(s, LoginStart), LoginSuccess(a));
      && t.token == a.token
      && AuthorizationHeader(t.token).Some?
      && AuthMiddleware.BearerToken(AuthorizationHeader(t.token).value) == a.token
    ensures AuthorizationHeader(Reduce(Reduce(s, LoginStart), LoginFailure(m)).token).None?
  {
    HeaderRoundTrip(a.token.value);
  }

  /** The provider: the reducer state next to the token kept in local
      storage. The server calls are parameters holding their outcome. */
  class AuthProvider {
    var state: AuthState
    var storedToken: Option<string>

    /** On start the stored token is read into the initial state. */
    constructor (stored: Option<string>)
      ensures state == InitialState(stored) && storedToken == stored
    {
      state := InitialState(stored);
      storedToken := stored;
    }

    /** `login` and `register`: LOGIN_START, then on success the returned
        token is stored and LOGIN_SUCCESS dispatched; on failure
        LOGIN_FAILURE with the server's message or `fallback`. */
    method SignIn(response: Response<Account>, fallback: string) returns (success: bool, error: Option<string>)
      modifies this
      ensures success <==> response.Success?
      ensures response.Success? ==>
        && storedToken == response.data.token
        && state == Reduce(Reduce(old(state), LoginStart), LoginSuccess(response.data))
        && error.None?
      ensures response.Failure? ==>
        var m := ErrorText(response.message, fallback);
        && storedToken == old(storedToken)
        && state == Reduce(Reduce(old(state), LoginStart), LoginFailure(m))
        && error == Some(m)
    {
      state := Reduce(state, LoginStart);
      match response {
        case Success(account) =>
          storedToken := account.token;
          state := Reduce(state, LoginSuccess(account));
          success, error := true, None;
        case Failure(message) =>
          var m := ErrorText(message, fallback);
          state := Reduce(state, LoginFailure(m));
          success, error := false, Some(m);
      }
    }

    method Login(response: Response<Account>) returns (success: bool, error: Option<string>)
      modifies this
      ensures success <==> response.Success?
      ensures response.Success? ==>
        && state == Reduce(Reduce(old(state), LoginStart), LoginSuccess(response.data))
        && state.isAuthenticated && state.user == Some(response.data)
        && storedToken == response.data.token && error.None?
      ensures response.Failure? ==>
        && state == Reduce(Reduce(old(state), LoginStart), LoginFailure(ErrorText(response.message, "Login failed")))
        && !state.isAuthenticated && error == Some(ErrorText(response.message, "Login failed"))
        && storedToken == old(storedToken)
    {
      success, error := SignIn(response, "Login failed");
    }

    method Register(response: Response<Account>) returns (success: bool, error: Option<string>)
      modifies this
      ensures success <==> response.Success?
      ensures response.Success? ==>
        && state == Reduce(Reduce(old(state), LoginStart), LoginSuccess(response.data))
        && state.isAuthenticated && state.user == Some(response.data)
        && storedToken == response.data.token && error.None?
      ensures response.Failure? ==>
        && state == Reduce(Reduce(old(state), LoginStart), LoginFailure(ErrorText(response.message, "Registration failed")))
        && !state.isAuthenticated && error == Some(ErrorText(response.message, "Registration failed"))
        && storedToken == old(storedToken)
    {
      success, error := SignIn(response, "Registration failed");
    }

    /** `loadUser`, run on start when a token is stored: the user the server
        returns for it is logged in with the stored token; on failure the
        session is cleared and the stored token removed. */
    method LoadUser(response: Response<Account>)
      modifies this
      ensures response.Success? ==>
        && storedToken == old(storedToken)
        && state == Reduce(old(state), LoginSuccess(response.data.(token := old(storedToken))))
      ensures response.Failure? ==>
        && storedToken.None?
        && state == Reduce(old(state), LoginFailure(ErrorText(response.message, "Failed to load user")))
    {
      match response {
        case Success(account) =>
          state := Reduce(state, LoginSuccess(account.(token := storedToken)));
        case Failure(message) =>
          state := Reduce(state, LoginFailure(ErrorText(message, "Failed to load user")));
          storedToken := None;
      }
    }

    /** `logout`: the stored token is removed and LOGOUT dispatched. */
    method LogoutUser()
      modifies this
      ensures storedToken.None?
      ensures state == Reduce(old(state), Logout)
      ensures !state.isAuthenticated && AuthorizationHeader(state.token).None?
    {
      storedToken := None;
      state := Reduce(state, Logout);
    }
  }
}
