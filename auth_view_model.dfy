/** The authentication view-model: signing in, registering and signing out,
    with the session kept in the token manager. */
module AuthViewModel {
  import opened Common
  import opened Text
  import opened Http
  import opened AuthModel
  import TokenStore

  datatype AuthState = Idle | Loading | Success(user: User) | Error(message: string)

  /** The authentication endpoints, which return their body directly. */
  datatype AuthApi = AuthApi(
    login: LoginRequest -> Direct<AuthResponse>,
    register: RegisterRequest -> Direct<AuthResponse>)

  const LoginFailed: string := "Login failed. Check your credentials."
  const RegistrationFailed: string := "Registration failed. Email might be already in use."

  /** The state a finished login or registration settles in: the user on
      success, otherwise the exception's message or `fallback`. */
  function Settled(outcome: Direct<AuthResponse>, fallback: string): (s: AuthState)
    ensures s.Success? <==> outcome.Returned?
    ensures s.Success? ==> s.user == outcome.value.user
    ensures s.Error? ==> s.message == outcome.exception.message.GetOr(fallback)
    ensures !s.Idle? && !s.Loading?
  {
    match outcome
    case Returned(response) => Success(response.user)
    case Raised(e) => Error(e.message.GetOr(fallback))
  }

  /** The request `logout` sends: only with a non-empty stored refresh
      token. */
  function LogoutRequestFor(prefs: TokenStore.Prefs): (r: Option<LogoutRequest>)
    ensures r.None? <==> IsNullOrEmpty(TokenStore.RefreshToken(prefs))
    ensures r.Some? ==> r.value.refreshToken == TokenStore.RefreshToken(prefs).value && r.value.refreshToken != ""
  {
    if IsNullOrEmpty(TokenStore.RefreshToken(prefs)) then None else Some(LogoutRequest(TokenStore.RefreshToken(prefs).value))
  }

  /** Signing out right after signing in sends the refresh token the server
      issued at sign-in, when it is non-empty. */
  lemma LogoutAfterLoginSendsIssuedToken(prefs: TokenStore.Prefs, auth: AuthResponse)
    requires auth.tokens.refresh.token != ""
    ensures LogoutRequestFor(TokenStore.SavedAuthData(prefs, auth)) == Some(LogoutRequest(auth.tokens.refresh.token))
  {
    TokenStore.SaveThenRead(prefs, auth);
  }

  /** The sign-in screen's state holder, over the token manager it was
      given. */
  class AuthViewModel {
    const tokenManager: TokenStore.TokenManager
    var authState: AuthState
    var isLoggedIn: bool
    var currentUser: Option<User>
    /** Every state the screen can observe, in order. */
    ghost var authHistory: seq<AuthState>

    /** Reads the initial session from the store: logged in when it holds an
        unexpired token, and its user. */
    constructor(tokenManager: TokenStore.TokenManager, parseInstant: TokenStore.InstantParser, now: int)
      ensures this.tokenManager == tokenManager
      ensures authState == Idle && authHistory == [Idle]
      ensures isLoggedIn == TokenStore.LoggedIn(tokenManager.prefs, parseInstant, now)
      ensures currentUser == TokenStore.UserOf(tokenManager.prefs)
    {
      this.tokenManager := tokenManager;
      authState := Idle;
      authHistory := [Idle];
      isLoggedIn := TokenStore.LoggedIn(tokenManager.prefs, parseInstant, now);
      currentUser := TokenStore.UserOf(tokenManager.prefs);
    }

    /** The success or failure tail shared by login and register. */
    method Finish(outcome: Direct<AuthResponse>, fallback: string)
      modifies this, tokenManager
      ensures outcome.Returned? ==>
                && tokenManager.prefs == TokenStore.SavedAuthData(old(tokenManager.prefs), outcome.value)
                && currentUser == Some(outcome.value.user) && isLoggedIn
      ensures outcome.Raised? ==>
                && tokenManager.prefs == old(tokenManager.prefs)
                && currentUser == old(currentUser) && isLoggedIn == old(isLoggedIn)
      ensures authState == Settled(outcome, fallback)
      ensures authHistory == old(authHistory) + [authState]
    {
      match outcome {
        case Returned(response) =>
          tokenManager.SaveAuthData(response);
          currentUser := Some(response.user);
          isLoggedIn := true;
          authState := Success(response.user);
        case Raised(e) =>
          authState := Error(e.message.GetOr(fallback));
      }
      authHistory := authHistory + [authState];
    }

    /** `login`: shows `Loading` at once, then either stores the session
        and shows the user, or shows why it failed. */
    method Login(email: string, password: string, api: AuthApi)
      modifies this, tokenManager
      ensures var outcome := api.login(LoginRequest(email, password));
              && authState == Settled(outcome, LoginFailed)
              && authHistory == old(authHistory) + [Loading, authState]
              && (outcome.Returned? ==>
                    && tokenManager.prefs == TokenStore.SavedAuthData(old(tokenManager.prefs), outcome.value)
                    && currentUser == Some(outcome.value.user) && isLoggedIn)
              && (outcome.Raised? ==>
                    && tokenManager.prefs == old(tokenManager.prefs)
                    && currentUser == old(currentUser) && isLoggedIn == old(isLoggedIn))
    {
      authState := Loading;
      authHistory := authHistory + [Loading];
      Finish(api.login(LoginRequest(email, password)), LoginFailed);
    }

    /** `register`: the same as login, with the registration request and
        its own fallback message. */
    method Register(name: string, email: string, password: string, api: AuthApi)
      modifies this, tokenManager
      ensures var outcome := api.register(RegisterRequest(name, email, password));
              && authState == Settled(outcome, RegistrationFailed)
              && authHistory == old(authHistory) + [Loading, authState]
              && (outcome.Returned? ==>
                    && tokenManager.prefs == TokenStore.SavedAuthData(old(tokenManager.prefs), outcome.value)
                    && currentUser == Some(outcome.value.user) && isLoggedIn)
              && (outcome.Raised? ==>
                    && tokenManager.prefs == old(tokenManager.prefs)
                    && currentUser == old(currentUser) && isLoggedIn == old(isLoggedIn))
    {
      authState := Loading;
      authHistory := authHistory + [Loading];
      Finish(api.register(RegisterRequest(name, email, password)), RegistrationFailed);
    }

    /** `logout`: tells the server with the stored refresh token if there is
        one (its answer, and any failure, is ignored), then always clears the
        store and the session. Returns the request sent, if any. */
    method Logout() returns (sent: Option<LogoutRequest>)
      modifies this, tokenManager
      ensures sent == LogoutRequestFor(old(tokenManager.prefs))
      ensures tokenManager.prefs == map[]
      ensures !isLoggedIn && currentUser.None? && authState == Idle
      ensures authHistory == old(authHistory) + [Idle]
    {
      sent := LogoutRequestFor(tokenManager.prefs);
      tokenManager.ClearAuthData();
      isLoggedIn := false;
      currentUser := None;
      authState := Idle;
      authHistory := authHistory + [Idle];
    }
  }
}
