/** The OkHttp interceptor that attaches the access token to every request
    except the three that obtain one. */
module AuthInterceptor {
  import opened Common
  import opened Text
  import TokenStore

  /** The parts of an outgoing request the interceptor looks at or changes. */
  datatype Request = Request(encodedPath: string, headers: map<string, string>)

  /** The requests that are sent without a token. */
  predicate IsAuthExempt(path: string): (exempt: bool)
    ensures exempt ==> Contains(path, "auth/")
  {
    assert Contains(path, "auth/login") ==> Contains(path, "auth/") by {
      if Contains(path, "auth/login") {
        assert "auth/" + "login" == "auth/login";
        ContainsPrefix(path, "auth/", "login");
      }
    }
    assert Contains(path, "auth/register") ==> Contains(path, "auth/") by {
      if Contains(path, "auth/register") {
        assert "auth/" + "register" == "auth/register";
        ContainsPrefix(path, "auth/", "register");
      }
    }
    assert Contains(path, "auth/refresh-tokens") ==> Contains(path, "auth/") by {
      if Contains(path, "auth/refresh-tokens") {
        assert "auth/" + "refresh-tokens" == "auth/refresh-tokens";
        ContainsPrefix(path, "auth/", "refresh-tokens");
      }
    }
    Contains(path, "auth/login") || Contains(path, "auth/register") || Contains(path, "auth/refresh-tokens")
  }

  /** `intercept`: the request that is sent on. An exempt path goes unchanged;
      otherwise a non-empty token becomes (or replaces) the `Authorization`
      header as `Bearer <token>`, and a missing or empty one leaves the
      request as it was. The path is never changed. */
  function Intercept(request: Request, accessToken: Option<string>): (sent: Request)
    ensures sent.encodedPath == request.encodedPath
    ensures IsAuthExempt(request.encodedPath) ==> sent == request
    ensures !IsAuthExempt(request.encodedPath) && !IsNullOrEmpty(accessToken) ==>
              sent.headers == request.headers["Authorization" := "Bearer " + accessToken.value]
    ensures IsNullOrEmpty(accessToken) ==> sent == request
  {
    if IsAuthExempt(request.encodedPath) then request
    else if IsNullOrEmpty(accessToken) then request
    else request.(headers := request.headers["Authorization" := "Bearer " + accessToken.value])
  }

  /** The interceptor as installed: it reads the stored access token. */
  function InterceptWith(request: Request, prefs: TokenStore.Prefs): (sent: Request)
    ensures sent == Intercept(request, TokenStore.AccessToken(prefs))
  {
    Intercept(request, TokenStore.AccessToken(prefs))
  }

  /** Running the interceptor twice sends the same request as running it
      once (a retried request does not pile up headers). */
  lemma InterceptIdempotent(request: Request, accessToken: Option<string>)
    ensures Intercept(Intercept(request, accessToken), accessToken) == Intercept(request, accessToken)
  {
  }

  /** Any non-exempt request that leaves with a token carries exactly
      `Bearer <token>`. */
  lemma AuthorizationHeaderShape(request: Request, token: string)
    requires !IsAuthExempt(request.encodedPath) && token != ""
    ensures "Authorization" in Intercept(request, Some(token)).headers
    ensures IsPrefix("Bearer ", Intercept(request, Some(token)).headers["Authorization"])
    ensures Intercept(request, Some(token)).headers["Authorization"][7..] == token
  {
  }

  /** The login call never carries a token, even when one is stored. */
  lemma LoginIsExempt(headers: map<string, string>, accessToken: Option<string>)
    ensures Intercept(Request("/v1/auth/login", headers), accessToken) == Request("/v1/auth/login", headers)
  {
    assert OccursAt("/v1/auth/login", "auth/login", 4);
  }

  /** Registration and token refresh are exempt too: like login, they go
      out unchanged whatever token is stored. */
  lemma RegisterAndRefreshAreExempt(headers: map<string, string>, accessToken: Option<string>)
    ensures Intercept(Request("/v1/auth/register", headers), accessToken) == Request("/v1/auth/register", headers)
    ensures Intercept(Request("/v1/auth/refresh-tokens", headers), accessToken) == Request("/v1/auth/refresh-tokens", headers)
  {
    assert OccursAt("/v1/auth/register", "auth/register", 4);
    assert OccursAt("/v1/auth/refresh-tokens", "auth/refresh-tokens", 4);
  }

  /** Logout is not exempt: it is sent with the stored token. */
  lemma LogoutCarriesToken(headers: map<string, string>, token: string)
    requires token != ""
    ensures "Authorization" in Intercept(Request("/v1/auth/logout", headers), Some(token)).headers
    ensures Intercept(Request("/v1/auth/logout", headers), Some(token)).headers["Authorization"] == "Bearer " + token
  {
    var path := "/v1/auth/logout";
    forall i: nat | i <= |path|
      ensures !OccursAt(path, "auth/login", i) && !OccursAt(path, "auth/register", i)
              && !OccursAt(path, "auth/refresh-tokens", i)
    {
      if i + 10 <= |path| {
        assert path[i..i + 10][9] == path[i + 9] != 'n';
      }
      if i + 13 <= |path| {
        assert path[i..i + 13][12] == path[i + 12] != 'r';
      }
    }
  }

  /** The interceptor does not look at the expiry: a stored token that has
      already expired is still attached. */
  lemma ExpiredTokenStillSent(request: Request, prefs: TokenStore.Prefs, parseInstant: TokenStore.InstantParser, now: int)
    requires !IsAuthExempt(request.encodedPath)
    requires !IsNullOrEmpty(TokenStore.AccessToken(prefs))
    requires TokenStore.AccessTokenExpired(prefs, parseInstant, now)
    ensures InterceptWith(request, prefs).headers["Authorization"] == "Bearer " + TokenStore.AccessToken(prefs).value
  {
  }
}
