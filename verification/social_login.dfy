/**
 * `SocialLoginViewModel`: the Kakao and Naver authorization URLs, the Naver `state`
 * bookkeeping (the CSRF defence of section 10.12 of RFC 6749), and the handling of the
 * redirect URI that carries the authorization code back into the app.
 */
module SocialLogin {
  import opened Wrappers
  import opened Text
  import opened AuthRepository

  const NaverStateKey := "naver_oauth_state"
  const KakaoScheme := "kakao"
  const NaverScheme := "antiphishingapp"

  /** The `AppConfig` values the URLs are built from. */
  datatype AppConfig = AppConfig(
    kakaoAuthUrl: string, kakaoClientId: string, kakaoRedirectUri: string,
    naverAuthUrl: string, naverClientId: string, naverRedirectUri: string)

  /** An ordered query string: `name=value` pairs joined by `&`, without any encoding. */
  function Query(ps: seq<(string, string)>): string
  {
    if |ps| == 0 then ""
    else if |ps| == 1 then ps[0].0 + "=" + ps[0].1
    else ps[0].0 + "=" + ps[0].1 + "&" + Query(ps[1..])
  }

  /** The value of the first parameter with the given name. */
  function Lookup(ps: seq<(string, string)>, name: string): (r: Option<string>)
    ensures r.Some? <==> exists i :: 0 <= i < |ps| && ps[i].0 == name
  {
    if |ps| == 0 then None
    else if ps[0].0 == name then Some(ps[0].1)
    else
      var r := Lookup(ps[1..], name);
      assert forall i :: 0 < i < |ps| ==> ps[i] == ps[1..][i - 1];
      r
  }

  /** The parameters of the Kakao authorization request, in order. */
  function KakaoParams(cfg: AppConfig): seq<(string, string)> {
    [("client_id", cfg.kakaoClientId), ("redirect_uri", cfg.kakaoRedirectUri),
     ("response_type", "code"), ("scope", "account_email")]
  }

  /** The parameters of the Naver authorization request, in order; the redirect URI is already encoded. */
  function NaverParams(cfg: AppConfig, encodedRedirect: string, state: string): seq<(string, string)> {
    [("response_type", "code"), ("client_id", cfg.naverClientId),
     ("redirect_uri", encodedRedirect), ("state", state)]
  }

  /** `getKakaoAuthUrl`, as the source concatenates it. */
  function KakaoAuthUrl(cfg: AppConfig): (url: string)
    ensures StartsWith(url, cfg.kakaoAuthUrl + "?")
  {
    var head := cfg.kakaoAuthUrl + "?";
    var url := head + "client_id=" + cfg.kakaoClientId + "&" +
      "redirect_uri=" + cfg.kakaoRedirectUri + "&" +
      "response_type=code&" +
      "scope=account_email";
    assert url == head + (url[|head|..]);
    url
  }

  /** One `name=value&` step of a query. */
  lemma QueryCons(n: string, v: string, rest: seq<(string, string)>)
    requires |rest| > 0
    ensures Query([(n, v)] + rest) == n + "=" + v + "&" + Query(rest)
  {
    assert ([(n, v)] + rest)[1..] == rest;
  }

  /** The query of the last three Kakao parameters. */
  lemma KakaoQueryTail(uri: string)
    ensures Query([("redirect_uri", uri), ("response_type", "code"), ("scope", "account_email")]) ==
      "redirect_uri=" + uri + "&" + ("response_type=code&" + "scope=account_email")
  {
    var last := [("scope", "account_email")];
    assert Query(last) == "scope=account_email";
    var rest := [("response_type", "code")] + last;
    QueryCons("response_type", "code", last);
    assert Query(rest) == "response_type=code&" + "scope=account_email";
    QueryCons("redirect_uri", uri, rest);
    assert [("redirect_uri", uri)] + rest == [("redirect_uri", uri), ("response_type", "code"), ("scope", "account_email")];
  }

  /** The query of the four Kakao parameters. */
  lemma KakaoQuery(cfg: AppConfig)
    ensures Query(KakaoParams(cfg)) == "client_id=" + cfg.kakaoClientId + "&" +
      ("redirect_uri=" + cfg.kakaoRedirectUri + "&" + ("response_type=code&" + "scope=account_email"))
  {
    var rest := [("redirect_uri", cfg.kakaoRedirectUri), ("response_type", "code"), ("scope", "account_email")];
    KakaoQueryTail(cfg.kakaoRedirectUri);
    QueryCons("client_id", cfg.kakaoClientId, rest);
    assert [("client_id", cfg.kakaoClientId)] + rest == KakaoParams(cfg);
  }

  /** The Kakao URL is the authorization endpoint with the four Kakao parameters as its query. */
  lemma KakaoAuthUrlQuery(cfg: AppConfig)
    ensures KakaoAuthUrl(cfg) == cfg.kakaoAuthUrl + "?" + Query(KakaoParams(cfg))
  {
    KakaoQuery(cfg);
  }

  /** The Kakao request asks for an authorization code, the code flow of section 4.1 of RFC 6749. */
  lemma KakaoAsksForCode(cfg: AppConfig)
    ensures Lookup(KakaoParams(cfg), "response_type") == Some("code")
  {
    var ps := KakaoParams(cfg);
    assert ps[0].0 != "response_type" by { assert |ps[0].0| != |"response_type"|; }
    assert ps[1].0 != "response_type" by { assert |ps[1].0| != |"response_type"|; }
    assert Lookup(ps, "response_type") == Lookup(ps[1..], "response_type") == Lookup(ps[2..], "response_type");
  }

  /** What `getNaverAuthUrl` did: the plain store after saving the state, and the URL. */
  datatype AuthRequest = AuthRequest(repo: Repo, url: string)

  /** The URL `getNaverAuthUrl` builds, as the source concatenates it. */
  function NaverUrl(cfg: AppConfig, state: string, encodedRedirect: string): (url: string)
    ensures EndsWith(url, "&state=" + state)
  {
    var prefix := cfg.naverAuthUrl + "?" +
      "response_type=code&" +
      "client_id=" + cfg.naverClientId + "&" +
      "redirect_uri=" + encodedRedirect;
    var url := prefix + "&" + "state=" + state;
    assert url == prefix + ("&state=" + state);
    assert url[|url| - |"&state=" + state|..] == "&state=" + state;
    url
  }

  /**
   * `getNaverAuthUrl`. `state` is the value `generateNaverState` drew and `encodedRedirect`
   * is `URLEncoder.encode` of the redirect URI; both are computed outside the model.
   */
  function NaverAuthUrl(r: Repo, cfg: AppConfig, state: string, encodedRedirect: string): (a: AuthRequest)
    ensures GetValue(a.repo, NaverStateKey) == Some(state)
    ensures a.repo.secure == r.secure
    ensures EndsWith(a.url, "&state=" + state)
  {
    AuthRequest(SaveValue(r, NaverStateKey, state), NaverUrl(cfg, state, encodedRedirect))
  }

  /** The query of the last three Naver parameters. */
  lemma NaverQueryTail(id: string, encodedRedirect: string, state: string)
    ensures Query([("client_id", id), ("redirect_uri", encodedRedirect), ("state", state)]) ==
      "client_id=" + id + "&" + ("redirect_uri=" + encodedRedirect + "&" + ("state=" + state))
  {
    var last := [("state", state)];
    assert Query(last) == "state=" + state;
    var rest := [("redirect_uri", encodedRedirect)] + last;
    QueryCons("redirect_uri", encodedRedirect, last);
    QueryCons("client_id", id, rest);
    assert [("client_id", id)] + rest == [("client_id", id), ("redirect_uri", encodedRedirect), ("state", state)];
  }

  /** The query of the four Naver parameters. */
  lemma NaverQuery(cfg: AppConfig, encodedRedirect: string, state: string)
    ensures Query(NaverParams(cfg, encodedRedirect, state)) == "response_type=code&" +
      ("client_id=" + cfg.naverClientId + "&" + ("redirect_uri=" + encodedRedirect + "&" + ("state=" + state)))
  {
    var rest := [("client_id", cfg.naverClientId), ("redirect_uri", encodedRedirect), ("state", state)];
    NaverQueryTail(cfg.naverClientId, encodedRedirect, state);
    QueryCons("response_type", "code", rest);
    assert [("response_type", "code")] + rest == NaverParams(cfg, encodedRedirect, state);
  }

  /** The Naver URL is the endpoint with the four Naver parameters as its query. */
  lemma NaverAuthUrlQuery(cfg: AppConfig, state: string, encodedRedirect: string)
    ensures NaverUrl(cfg, state, encodedRedirect) ==
      cfg.naverAuthUrl + "?" + Query(NaverParams(cfg, encodedRedirect, state))
  {
    NaverQuery(cfg, encodedRedirect, state);
  }

  /** The `state` parameter the Naver URL carries is the value just saved for the callback. */
  lemma NaverStateSaved(r: Repo, cfg: AppConfig, state: string, encodedRedirect: string)
    ensures Lookup(NaverParams(cfg, encodedRedirect, state), "state") ==
      GetValue(NaverAuthUrl(r, cfg, state, encodedRedirect).repo, NaverStateKey)
  {
    var ps := NaverParams(cfg, encodedRedirect, state);
    assert ps[0].0 != "state" by { assert |ps[0].0| != 5; }
    assert ps[1].0 != "state" by { assert |ps[1].0| != 5; }
    assert ps[2].0 != "state" by { assert |ps[2].0| != 5; }
    assert Lookup(ps, "state") == Lookup(ps[1..], "state") == Lookup(ps[2..], "state") == Lookup(ps[3..], "state");
  }

  /** The parts of the redirect URI the handler reads: its scheme and three query parameters. */
  datatype CallbackUri = CallbackUri(scheme: Option<string>, code: Option<string>, state: Option<string>, error: Option<string>)

  /** What `handleCallbackUri` did: the stores after it, the exchange it asked for, and the one value it emitted. */
  datatype Callback = Callback(repo: Repo, request: Option<ExchangeRequest>, result: bool)

  /**
   * `handleCallbackUri`. `response` is the server's answer to an exchange, if one is sent.
   * A thrown exchange is caught and emits `false`; the `isAutoLogin` argument the call
   * site omits is ignored by the exchange (see `AutoLoginArgumentIgnored`).
   */
  function HandleCallback(r: Repo, uri: CallbackUri, response: Response<TokenResponse>): (c: Callback)
    ensures uri.error.Some? || uri.code.None? ==> c == Callback(r, None, false)
    ensures c.request.Some? ==> uri.error.None? && uri.code.Some?
    ensures uri.scheme != Some(KakaoScheme) && uri.scheme != Some(NaverScheme) ==> c == Callback(r, None, false)
    ensures c.result ==> c.request.Some? && response.successful && response.body.Some?
    ensures c.request.Some? && response.successful && response.body.Some? ==> c.result
    ensures uri.error.None? && uri.code.Some? && uri.scheme == Some(KakaoScheme) ==>
      c.request == Some(KakaoExchange(uri.code.value)) && (c.result <==> response.successful && response.body.Some?)
  {
    if uri.error.Some? || uri.code.None? then Callback(r, None, false)
    else if uri.scheme == Some(KakaoScheme) then
      var x := ExchangeCodeForToken(r, "kakao", uri.code.value, None, true, response);
      Callback(x.repo, x.request, x.result.Success?)
    else if uri.scheme == Some(NaverScheme) then
      var saved := GetValue(r, NaverStateKey);
      var cleared := ClearValue(r, NaverStateKey);
      if uri.state.Some? && uri.state == saved then
        var x := ExchangeCodeForToken(cleared, "naver", uri.code.value, uri.state, true, response);
        Callback(x.repo, x.request, x.result.Success?)
      else Callback(cleared, None, false)
    else Callback(r, None, false)
  }

  /** The omitted `isAutoLogin` argument cannot matter: the exchange never reads it. */
  lemma AutoLoginArgumentIgnored(r: Repo, provider: string, code: string, state: Option<string>,
                                 response: Response<TokenResponse>)
    ensures ExchangeCodeForToken(r, provider, code, state, true, response) ==
      ExchangeCodeForToken(r, provider, code, state, false, response)
  {
  }

  /** A Naver code is exchanged exactly when the returned `state` is present and equals the saved one. */
  lemma NaverExchangeIffStateMatches(r: Repo, uri: CallbackUri, response: Response<TokenResponse>)
    requires uri.scheme == Some(NaverScheme)
    ensures HandleCallback(r, uri, response).request.Some? <==>
      uri.error.None? && uri.code.Some? && uri.state.Some? && uri.state == GetValue(r, NaverStateKey)
    ensures HandleCallback(r, uri, response).request.Some? ==>
      HandleCallback(r, uri, response).request == Some(NaverExchange(uri.code.value, uri.state.value))
  {
  }

  /** Once a Naver redirect with a code is handled, the saved state is gone, whatever the outcome. */
  lemma NaverStateConsumed(r: Repo, uri: CallbackUri, response: Response<TokenResponse>)
    requires uri.scheme == Some(NaverScheme) && uri.error.None? && uri.code.Some?
    ensures GetValue(HandleCallback(r, uri, response).repo, NaverStateKey).None?
  {
    var cleared := ClearValue(r, NaverStateKey);
    ClearValueOnlyKey(r, NaverStateKey, NaverStateKey);
    if uri.state.Some? && uri.state == GetValue(r, NaverStateKey) {
      var x := ExchangeCodeForToken(cleared, "naver", uri.code.value, uri.state, true, response);
      if x.result.Success? {
        StoresIndependent(cleared, response.body.value, true, NaverStateKey, "");
      }
    }
  }

  /** Replaying a Naver redirect is refused: the first use consumed the state. */
  lemma ReplayRejected(r: Repo, uri: CallbackUri, first: Response<TokenResponse>, second: Response<TokenResponse>)
    requires uri.scheme == Some(NaverScheme)
    ensures HandleCallback(HandleCallback(r, uri, first).repo, uri, second).request.None?
    ensures !HandleCallback(HandleCallback(r, uri, first).repo, uri, second).result
  {
    if uri.error.None? && uri.code.Some? {
      NaverStateConsumed(r, uri, first);
    }
  }

  /** Emitting `true` means the tokens were saved: the user is then authenticated. */
  lemma SuccessAuthenticates(r: Repo, uri: CallbackUri, response: Response<TokenResponse>)
    requires HandleCallback(r, uri, response).result
    ensures IsAuthenticated(HandleCallback(r, uri, response).repo)
  {
    if uri.scheme == Some(KakaoScheme) {
      ExchangeAuthenticates(r, "kakao", uri.code.value, None, true, response);
    } else {
      ExchangeAuthenticates(ClearValue(r, NaverStateKey), "naver", uri.code.value, uri.state, true, response);
    }
  }

  /** Emitting `false` leaves the token store as it was. */
  lemma FailureKeepsTokens(r: Repo, uri: CallbackUri, response: Response<TokenResponse>)
    requires !HandleCallback(r, uri, response).result
    ensures HandleCallback(r, uri, response).repo.secure == r.secure
  {
  }

  /** The whole Naver flow: the URL's state, sent back unchanged with a code the server accepts, logs the user in. */
  lemma NaverLoginCompletes(r: Repo, cfg: AppConfig, state: string, encodedRedirect: string,
                            code: string, response: Response<TokenResponse>)
    requires response.successful && response.body.Some?
    ensures var a := NaverAuthUrl(r, cfg, state, encodedRedirect);
      var c := HandleCallback(a.repo, CallbackUri(Some(NaverScheme), Some(code), Some(state), None), response);
      c.result && c.request == Some(NaverExchange(code, state)) && IsAuthenticated(c.repo)
  {
    var a := NaverAuthUrl(r, cfg, state, encodedRedirect);
    var uri := CallbackUri(Some(NaverScheme), Some(code), Some(state), None);
    NaverExchangeIffStateMatches(a.repo, uri, response);
    SuccessAuthenticates(a.repo, uri, response);
  }

  /** A forged or stale state is refused before any request is sent. */
  lemma ForgedStateRejected(r: Repo, uri: CallbackUri, response: Response<TokenResponse>)
    requires uri.scheme == Some(NaverScheme) && uri.state != GetValue(r, NaverStateKey)
    ensures HandleCallback(r, uri, response).request.None? && !HandleCallback(r, uri, response).result
  {
  }

  /**
   * The Kakao flow: a redirect with a code and no error is exchanged as a Kakao code, with no
   * state check, and a server that accepts it logs the user in.
   */
  lemma KakaoLoginCompletes(r: Repo, code: string, state: Option<string>, response: Response<TokenResponse>)
    requires response.successful && response.body.Some?
    ensures var c := HandleCallback(r, CallbackUri(Some(KakaoScheme), Some(code), state, None), response);
      c.result && c.request == Some(KakaoExchange(code)) && IsAuthenticated(c.repo)
  {
    SuccessAuthenticates(r, CallbackUri(Some(KakaoScheme), Some(code), state, None), response);
  }
}
