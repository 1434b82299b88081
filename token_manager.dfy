/** The on-device store of the session: tokens, their expiry and the user's
    profile, kept in the `auth_prefs` shared preferences. */
module TokenStore {
  import opened Common
  import opened Text
  import opened AuthModel

  /** A stored preference: a string or a boolean. */
  datatype PrefValue = Text(s: string) | Flag(b: bool)

  /** The preference file, key by key. */
  type Prefs = map<string, PrefValue>

  const KeyAccessToken: string := "access_token"
  const KeyRefreshToken: string := "refresh_token"
  const KeyAccessTokenExpiry: string := "access_token_expiry"
  const KeyUserId: string := "user_id"
  const KeyUserEmail: string := "user_email"
  const KeyUserName: string := "user_name"
  const KeyIsEmailVerified: string := "is_email_verified"

  const AuthKeys: set<string> :=
    {KeyAccessToken, KeyRefreshToken, KeyAccessTokenExpiry, KeyUserId, KeyUserEmail, KeyUserName, KeyIsEmailVerified}

  /** Parses the stored expiry with the pattern `yyyy-MM-dd'T'HH:mm:ss.SSS'Z'`
      into an instant (milliseconds); `None` when parsing fails. */
  type InstantParser = string -> Option<int>

  /** `getString(key, null)`. */
  function GetString(p: Prefs, key: string): (r: Option<string>)
    ensures r.Some? <==> key in p && p[key].Text?
    ensures r.Some? ==> p[key] == Text(r.value)
  {
    if key in p && p[key].Text? then Some(p[key].s) else None
  }

  /** `getBoolean(key, default)`. */
  function GetBoolean(p: Prefs, key: string, default: bool): (r: bool)
    ensures key in p && p[key].Flag? ==> r == p[key].b
    ensures !(key in p && p[key].Flag?) ==> r == default
  {
    if key in p && p[key].Flag? then p[key].b else default
  }

  /** `saveAuthData`: the preferences after the seven writes of one edit. */
  function SavedAuthData(p: Prefs, auth: AuthResponse): (q: Prefs)
    ensures GetString(q, KeyAccessToken) == Some(auth.tokens.access.token)
    ensures GetString(q, KeyRefreshToken) == Some(auth.tokens.refresh.token)
    ensures GetString(q, KeyAccessTokenExpiry) == Some(auth.tokens.access.expires)
    ensures GetString(q, KeyUserId) == Some(auth.user.id)
    ensures GetString(q, KeyUserEmail) == Some(auth.user.email)
    ensures GetString(q, KeyUserName) == Some(auth.user.name)
    ensures GetBoolean(q, KeyIsEmailVerified, false) == auth.user.isEmailVerified
    ensures q.Keys == p.Keys + AuthKeys
    ensures forall k :: k in p && k !in AuthKeys ==> q[k] == p[k]
  {
    p[KeyAccessToken := Text(auth.tokens.access.token)]
     [KeyRefreshToken := Text(auth.tokens.refresh.token)]
     [KeyAccessTokenExpiry := Text(auth.tokens.access.expires)]
     [KeyUserId := Text(auth.user.id)]
     [KeyUserEmail := Text(auth.user.email)]
     [KeyUserName := Text(auth.user.name)]
     [KeyIsEmailVerified := Flag(auth.user.isEmailVerified)]
  }

  /** `getAccessToken()`: the string stored under `access_token`, or null. */
  function AccessToken(p: Prefs): (t: Option<string>)
    ensures t.Some? <==> KeyAccessToken in p && p[KeyAccessToken].Text?
    ensures t.Some? ==> p[KeyAccessToken] == Text(t.value)
  {
    GetString(p, KeyAccessToken)
  }

  /** `getRefreshToken()`: the string stored under `refresh_token`, or null. */
  function RefreshToken(p: Prefs): (t: Option<string>)
    ensures t.Some? <==> KeyRefreshToken in p && p[KeyRefreshToken].Text?
    ensures t.Some? ==> p[KeyRefreshToken] == Text(t.value)
  {
    GetString(p, KeyRefreshToken)
  }

  /** `isAccessTokenExpired()`: fails closed. A missing or unparseable expiry
      counts as expired; otherwise the token is expired when its expiry lies
      strictly before `now`. */
  function AccessTokenExpired(p: Prefs, parseInstant: InstantParser, now: int): (expired: bool)
    ensures GetString(p, KeyAccessTokenExpiry).None? ==> expired
    ensures GetString(p, KeyAccessTokenExpiry).Some? ==>
              (expired <==> (parseInstant(GetString(p, KeyAccessTokenExpiry).value).None?
                             || parseInstant(GetString(p, KeyAccessTokenExpiry).value).value < now))
  {
    match GetString(p, KeyAccessTokenExpiry)
    case None => true
    case Some(expiry) =>
      match parseInstant(expiry)
      case None => true
      case Some(instant) => instant < now
  }

  /** `getUser()`: null without a stored id; otherwise the stored profile,
      with `""` for a missing name or email, `false` for a missing
      verification flag, and no avatar (it is never stored). */
  function UserOf(p: Prefs): (u: Option<User>)
    ensures u.None? <==> GetString(p, KeyUserId).None?
    ensures u.Some? ==>
              && u.value.id == GetString(p, KeyUserId).value
              && u.value.name == GetString(p, KeyUserName).GetOr("")
              && u.value.email == GetString(p, KeyUserEmail).GetOr("")
              && u.value.isEmailVerified == GetBoolean(p, KeyIsEmailVerified, false)
              && u.value.avatar.None?
  {
    match GetString(p, KeyUserId)
    case None => None
    case Some(id) =>
      Some(User(id, GetString(p, KeyUserName).GetOr(""), GetString(p, KeyUserEmail).GetOr(""),
                GetBoolean(p, KeyIsEmailVerified, false), None))
  }

  /** `isLoggedIn()`: a non-empty access token that has not expired. */
  function LoggedIn(p: Prefs, parseInstant: InstantParser, now: int): (b: bool)
    ensures b ==> AccessToken(p).Some? && AccessToken(p).value != ""
    ensures b <==> !IsNullOrEmpty(AccessToken(p)) && !AccessTokenExpired(p, parseInstant, now)
  {
    !IsNullOrEmpty(AccessToken(p)) && !AccessTokenExpired(p, parseInstant, now)
  }

  /** What was saved reads back: the user of the response, except its avatar,
      and both of its tokens. */
  lemma SaveThenRead(p: Prefs, auth: AuthResponse)
    ensures UserOf(SavedAuthData(p, auth)) ==
              Some(User(auth.user.id, auth.user.name, auth.user.email, auth.user.isEmailVerified, None))
    ensures AccessToken(SavedAuthData(p, auth)) == Some(auth.tokens.access.token)
    ensures RefreshToken(SavedAuthData(p, auth)) == Some(auth.tokens.refresh.token)
  {
  }

  /** Right after a save, the session counts as logged in exactly when the new
      access token is non-empty and its expiry parses to an instant no
      earlier than `now`. */
  lemma SaveThenLoggedIn(p: Prefs, auth: AuthResponse, parseInstant: InstantParser, now: int)
    ensures LoggedIn(SavedAuthData(p, auth), parseInstant, now) <==>
              && auth.tokens.access.token != ""
              && parseInstant(auth.tokens.access.expires).Some?
              && now <= parseInstant(auth.tokens.access.expires).value
  {
    var q := SavedAuthData(p, auth);
    assert GetString(q, KeyAccessTokenExpiry) == Some(auth.tokens.access.expires);
  }

  /** An expiry that cannot be parsed never lets the session count as logged
      in, whatever the token. */
  lemma UnparseableExpiryIsLoggedOut(p: Prefs, parseInstant: InstantParser, now: int)
    requires GetString(p, KeyAccessTokenExpiry).Some?
    requires parseInstant(GetString(p, KeyAccessTokenExpiry).value).None?
    ensures !LoggedIn(p, parseInstant, now)
  {
  }

  /** Expiry is monotone in time: once expired, a token stays expired. */
  lemma ExpiryIsMonotone(p: Prefs, parseInstant: InstantParser, now: int, later: int)
    requires now <= later
    requires AccessTokenExpired(p, parseInstant, now)
    ensures AccessTokenExpired(p, parseInstant, later)
  {
  }

  /** After `clearAuthData` nothing of the session is left. */
  lemma ClearedIsLoggedOut(parseInstant: InstantParser, now: int)
    ensures !LoggedIn(map[], parseInstant, now)
    ensures UserOf(map[]).None?
    ensures AccessToken(map[]).None? && RefreshToken(map[]).None?
  {
  }

  /** The token manager: the preference file it reads and writes. Its
      getters are the functions above applied to `prefs`. */
  class TokenManager {
    var prefs: Prefs

    /** Opens the preference file as it was left on the device. */
    constructor(stored: Prefs)
      ensures prefs == stored
    {
      prefs := stored;
    }

    /** `saveAuthData`. */
    method SaveAuthData(auth: AuthResponse)
      modifies this
      ensures prefs == SavedAuthData(old(prefs), auth)
    {
      prefs := SavedAuthData(prefs, auth);
    }

    /** `clearAuthData`: removes every key of the file. */
    method ClearAuthData()
      modifies this
      ensures prefs == map[]
    {
      prefs := map[];
    }
  }
}
