/**
 * `AuthRepository`: the encrypted token store, a separate plain preference store for values
 * such as the OAuth `state`, the `getMe` guard, and the exchange of a social-login code for
 * tokens. Both stores are SharedPreferences files, modelled as maps.
 */
module AuthRepository {
  import opened Wrappers

  const AccessTokenKey := "access_token"
  const RefreshTokenKey := "refresh_token"
  const AutoLoginKey := "is_auto_login"

  /** One SharedPreferences file: its string entries and its boolean entries. */
  datatype Prefs = Prefs(strings: map<string, string>, flags: map<string, bool>)

  const EmptyPrefs := Prefs(map[], map[])

  /** `getString(key, null)` */
  function GetString(p: Prefs, key: string): (r: Option<string>)
    ensures r.Some? <==> key in p.strings
    ensures r.Some? ==> r.value == p.strings[key]
  {
    if key in p.strings then Some(p.strings[key]) else None
  }

  /** `getBoolean(key, default)` */
  function GetBoolean(p: Prefs, key: string, default: bool): (r: bool)
    ensures key in p.flags ==> r == p.flags[key]
    ensures key !in p.flags ==> r == default
  {
    if key in p.flags then p.flags[key] else default
  }

  /** The encrypted store `secure_auth_prefs` and the plain store `app_settings`. */
  datatype Repo = Repo(secure: Prefs, app: Prefs)

  /** The server's token pair. */
  datatype TokenResponse = TokenResponse(accessToken: string, refreshToken: string)

  /** `saveTokens`: both tokens and the auto-login flag, in one edit of the secure store. */
  function SaveTokens(r: Repo, t: TokenResponse, isAutoLogin: bool): (r': Repo)
    ensures r'.app == r.app
    ensures GetBoolean(r'.secure, AutoLoginKey, false) == isAutoLogin
    ensures forall k | k != AccessTokenKey && k != RefreshTokenKey ::
      GetString(r'.secure, k) == GetString(r.secure, k)
  {
    r.(secure := Prefs(
      r.secure.strings[AccessTokenKey := t.accessToken][RefreshTokenKey := t.refreshToken],
      r.secure.flags[AutoLoginKey := isAutoLogin]))
  }

  /** `getAccessToken` */
  function GetAccessToken(r: Repo): (t: Option<string>)
    ensures t.Some? <==> AccessTokenKey in r.secure.strings
    ensures t.Some? ==> t.value == r.secure.strings[AccessTokenKey]
  {
    GetString(r.secure, AccessTokenKey)
  }

  /** `getRefreshToken` */
  function GetRefreshToken(r: Repo): (t: Option<string>)
    ensures t.Some? <==> RefreshTokenKey in r.secure.strings
    ensures t.Some? ==> t.value == r.secure.strings[RefreshTokenKey]
  {
    GetString(r.secure, RefreshTokenKey)
  }

  /** Saved tokens are read back as they were saved. */
  lemma SaveThenGet(r: Repo, t: TokenResponse, isAutoLogin: bool)
    ensures GetAccessToken(SaveTokens(r, t, isAutoLogin)) == Some(t.accessToken)
    ensures GetRefreshToken(SaveTokens(r, t, isAutoLogin)) == Some(t.refreshToken)
  {
    assert AccessTokenKey != RefreshTokenKey by { assert AccessTokenKey[0] != RefreshTokenKey[0]; }
  }

  /** `isAuthenticated`: a stored access token and a stored auto-login flag that is true. */
  function IsAuthenticated(r: Repo): (b: bool)
    ensures b <==> GetAccessToken(r).Some? && AutoLoginKey in r.secure.flags && r.secure.flags[AutoLoginKey]
  {
    GetAccessToken(r).Some? && GetBoolean(r.secure, AutoLoginKey, false)
  }

  /** Saving tokens authenticates exactly when auto-login is asked for. */
  lemma SaveTokensAuthenticates(r: Repo, t: TokenResponse, isAutoLogin: bool)
    ensures IsAuthenticated(SaveTokens(r, t, isAutoLogin)) <==> isAutoLogin
  {
    SaveThenGet(r, t, isAutoLogin);
  }

  /** `clearTokens`: the whole secure store is emptied. */
  function ClearTokens(r: Repo): (r': Repo)
    ensures r'.app == r.app
    ensures forall k :: GetString(r'.secure, k).None? && !GetBoolean(r'.secure, k, false)
  {
    r.(secure := EmptyPrefs)
  }

  /** After `clearTokens` there is no token and the user is not authenticated. */
  lemma ClearForgetsTokens(r: Repo)
    ensures GetAccessToken(ClearTokens(r)).None? && GetRefreshToken(ClearTokens(r)).None?
    ensures !IsAuthenticated(ClearTokens(r))
  {
  }

  /** `saveValue` on the plain store. */
  function SaveValue(r: Repo, key: string, value: string): (r': Repo)
    ensures r'.secure == r.secure
    ensures r'.app.flags == r.app.flags
  {
    r.(app := r.app.(strings := r.app.strings[key := value]))
  }

  /** `getValue` on the plain store. */
  function GetValue(r: Repo, key: string): (v: Option<string>)
    ensures v.Some? <==> key in r.app.strings
    ensures v.Some? ==> v.value == r.app.strings[key]
  {
    GetString(r.app, key)
  }

  /** `clearValue`: the one key is removed from the plain store. */
  function ClearValue(r: Repo, key: string): (r': Repo)
    ensures r'.secure == r.secure
    ensures r'.app.flags == r.app.flags
  {
    r.(app := r.app.(strings := r.app.strings - {key}))
  }

  /** A saved value is read back; every other key keeps its value. */
  lemma SaveThenGetValue(r: Repo, key: string, value: string, other: string)
    ensures GetValue(SaveValue(r, key, value), key) == Some(value)
    ensures other != key ==> GetValue(SaveValue(r, key, value), other) == GetValue(r, other)
  {
  }

  /** `clearValue` removes only its own key. */
  lemma ClearValueOnlyKey(r: Repo, key: string, other: string)
    ensures GetValue(ClearValue(r, key), key).None?
    ensures other != key ==> GetValue(ClearValue(r, key), other) == GetValue(r, other)
  {
  }

  /** The plain store and the token store never touch each other. */
  lemma StoresIndependent(r: Repo, t: TokenResponse, a: bool, key: string, value: string)
    ensures GetValue(SaveTokens(r, t, a), key) == GetValue(r, key)
    ensures GetValue(ClearTokens(r), key) == GetValue(r, key)
    ensures IsAuthenticated(SaveValue(r, key, value)) == IsAuthenticated(r)
    ensures IsAuthenticated(ClearValue(r, key)) == IsAuthenticated(r)
  {
  }

  /** A Retrofit `Response`: its status, its parsed body if any, and its error body if any. */
  datatype Response<T> = Response(successful: bool, code: int, body: Option<T>, errorBody: Option<string>)

  const BearerPrefix := "Bearer "

  /**
   * What `getMe` does: the Authorization header it sends, if any, and either what it returns or
   * that the call threw to its caller.
   */
  datatype MeCall<U> = MeCall(header: Option<string>, user: Option<U>, threw: bool)

  /**
   * `getMe`: nothing is sent without a token; otherwise a bearer request whose body, if
   * successful, is returned. `response` is the server's answer, or `None` when the call fails in
   * transport: Retrofit's suspend call then throws, and `getMe` does not catch it.
   */
  function GetMe<U>(r: Repo, response: Option<Response<U>>): (c: MeCall<U>)
    ensures GetAccessToken(r).None? ==> c.header.None? && c.user.None? && !c.threw
    ensures GetAccessToken(r).Some? ==> c.header == Some(BearerPrefix + GetAccessToken(r).value)
    ensures c.threw <==> GetAccessToken(r).Some? && response.None?
    ensures GetAccessToken(r).Some? && response.Some? && response.value.successful ==> c.user == response.value.body
    ensures c.user.Some? ==> response.Some? && response.value.successful && c.user == response.value.body
  {
    match GetAccessToken(r)
    case None => MeCall(None, None, false)
    case Some(token) =>
      match response
      case None => MeCall(Some(BearerPrefix + token), None, true)
      case Some(answer) => MeCall(Some(BearerPrefix + token), if answer.successful then answer.body else None, false)
  }

  /** The request an exchange sends. */
  datatype ExchangeRequest = KakaoExchange(code: string) | NaverExchange(code: string, state: string)

  /** The exceptions `exchangeCodeForToken` throws. */
  datatype ExchangeError =
    | NaverStateMissing
    | UnsupportedProvider(provider: string)
    | EmptyBody
    | ExchangeFailed(provider: string, status: int, errorBody: string)

  const UnknownServerError := "Unknown server error"

  /** What an exchange did: the request it sent, if any, the stores after it, and its outcome. */
  datatype Exchange = Exchange(request: Option<ExchangeRequest>, repo: Repo, result: Result<TokenResponse, ExchangeError>)

  /**
   * `exchangeCodeForToken`. `response` is what the server answers if a request is sent. The
   * tokens of a successful exchange are saved with auto-login on, whatever `isAutoLogin` says.
   */
  function ExchangeCodeForToken(r: Repo, provider: string, code: string, state: Option<string>,
                                isAutoLogin: bool, response: Response<TokenResponse>): (x: Exchange)
    ensures provider == "kakao" ==> x.request == Some(KakaoExchange(code))
    ensures provider == "naver" && state.Some? ==> x.request == Some(NaverExchange(code, state.value))
    ensures provider == "naver" && state.None? ==> x.request.None? && x.result == Failure(NaverStateMissing)
    ensures provider != "kakao" && provider != "naver" ==>
      x.request.None? && x.result == Failure(UnsupportedProvider(provider))
    ensures x.result.Success? <==> x.request.Some? && response.successful && response.body.Some?
    ensures x.result.Success? ==> x.result.value == response.body.value && x.repo == SaveTokens(r, response.body.value, true)
    ensures x.result.Failure? ==> x.repo == r
    ensures x.request.Some? && response.successful && response.body.None? ==> x.result == Failure(EmptyBody)
    ensures x.request.Some? && !response.successful ==>
      x.result == Failure(ExchangeFailed(provider, response.code, response.errorBody.GetOr(UnknownServerError)))
  {
    var request :=
      if provider == "kakao" then Success(KakaoExchange(code))
      else if provider == "naver" then
        (if state.None? then Failure(NaverStateMissing) else Success(NaverExchange(code, state.value)))
      else Failure(UnsupportedProvider(provider));
    match request
    case Failure(e) => Exchange(None, r, Failure(e))
    case Success(req) =>
      if response.successful then
        match response.body
        case Some(tokens) => Exchange(Some(req), SaveTokens(r, tokens, true), Success(tokens))
        case None => Exchange(Some(req), r, Failure(EmptyBody))
      else
        Exchange(Some(req), r, Failure(ExchangeFailed(provider, response.code, response.errorBody.GetOr(UnknownServerError))))
  }

  /** A successful exchange leaves the user authenticated, even when auto-login was declined. */
  lemma ExchangeAuthenticates(r: Repo, provider: string, code: string, state: Option<string>,
                              isAutoLogin: bool, response: Response<TokenResponse>)
    requires ExchangeCodeForToken(r, provider, code, state, isAutoLogin, response).result.Success?
    ensures IsAuthenticated(ExchangeCodeForToken(r, provider, code, state, isAutoLogin, response).repo)
  {
    SaveTokensAuthenticates(r, response.body.value, true);
  }
}
