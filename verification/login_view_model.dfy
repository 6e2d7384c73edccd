/**
 * `LoginViewModel`: the e-mail login form's state, the blank-field check, and how each
 * outcome of the login request lands in the observable state. The request runs in a
 * coroutine; the model splits a click into its synchronous part (`Clicked`) and the
 * coroutine's completion (`Finish`).
 */
module LoginViewModel {
  import opened Wrappers
  import opened Text
  import opened AuthRepository

  const BlankFieldsError := "이메일과 비밀번호를 모두 입력해주세요."
  const EmptyBodyError := "로그인 성공, 그러나 서버 응답 바디 없음."
  const LoginFailedPrefix := "로그인 실패: "
  const BadCredentials := "이메일 또는 비밀번호를 확인해주세요."
  const NetworkErrorPrefix := "네트워크 오류: "

  /** The body of the login request. */
  datatype LoginRequest = LoginRequest(email: string, password: string)

  /**
   * The view model's LiveData values, plus the request the last click sent and the tokens
   * handed to `saveTokens` (whose one-argument call does not match the repository's
   * two-argument declaration, so the save is recorded rather than applied).
   */
  datatype Login = Login(
    email: string, password: string, loading: bool, error: Option<string>,
    loginSuccess: bool, autoLogin: bool,
    request: Option<LoginRequest>, saved: Option<TokenResponse>)

  /** The initial LiveData values. */
  const Initial := Login("", "", false, None, false, false, None, None)

  function OnEmailChange(s: Login, e: string): (r: Login)
    ensures r.email == e
  {
    s.(email := e)
  }

  function OnPasswordChange(s: Login, p: string): (r: Login)
    ensures r.password == p
  {
    s.(password := p)
  }

  function OnAutoLoginCheckedChange(s: Login, checked: bool): (r: Login)
    ensures r.autoLogin == checked
  {
    s.(autoLogin := checked)
  }

  /** `onErrorShown`: the error is consumed. */
  function OnErrorShown(s: Login): (r: Login)
    ensures r.error.None?
  {
    s.(error := None)
  }

  /** Each form handler changes its own field and nothing else. */
  lemma HandlersAreLocal(s: Login, e: string, p: string, checked: bool)
    ensures OnEmailChange(s, e).(email := s.email) == s
    ensures OnPasswordChange(s, p).(password := s.password) == s
    ensures OnAutoLoginCheckedChange(s, checked).(autoLogin := s.autoLogin) == s
    ensures OnErrorShown(s).(error := s.error) == s
  {
  }

  /** How the login call ended: with a response, or with an exception and its message. */
  datatype Outcome = Answered(response: Response<TokenResponse>) | Thrown(message: Option<string>)

  /** Kotlin's string template renders a null message as "null". */
  function Render(message: Option<string>): string {
    message.GetOr("null")
  }

  /** The synchronous part of `onLoginClicked`: refuse blank fields, or start loading and send. */
  function Clicked(s: Login): (r: Login)
    ensures IsBlank(s.email) || IsBlank(s.password) ==> r == s.(error := Some(BlankFieldsError))
    ensures !IsBlank(s.email) && !IsBlank(s.password) ==>
      r.loading && r.error.None? && r.request == Some(LoginRequest(s.email, s.password))
    ensures r.email == s.email && r.password == s.password && r.loginSuccess == s.loginSuccess
  {
    if IsBlank(s.email) || IsBlank(s.password) then s.(error := Some(BlankFieldsError))
    else s.(loading := true, error := None, request := Some(LoginRequest(s.email, s.password)))
  }

  /** The coroutine's completion: the outcome's effect, then `finally` clears the loading flag. */
  function Finish(s: Login, outcome: Outcome): (r: Login)
    ensures !r.loading
    ensures r.loginSuccess <==> s.loginSuccess || (outcome.Answered? && outcome.response.successful && outcome.response.body.Some?)
  {
    var done :=
      match outcome
      case Thrown(m) => s.(error := Some(NetworkErrorPrefix + Render(m)))
      case Answered(resp) =>
        if resp.successful then
          match resp.body
          case Some(tokens) => s.(saved := Some(tokens), loginSuccess := true)
          case None => s.(error := Some(EmptyBodyError))
        else s.(error := Some(LoginFailedPrefix + resp.errorBody.GetOr(BadCredentials)));
    done.(loading := false)
  }

  /**
   * The whole of `onLoginClicked`, once its coroutine has finished. A blank field sends nothing
   * and only shows the fixed error. Otherwise the typed credentials are sent, loading ends, and
   * exactly one of two things holds: the returned tokens were saved and no error is shown, or
   * nothing was saved and an error message is shown.
   */
  function OnLoginClicked(s: Login, outcome: Outcome): (r: Login)
    ensures IsBlank(s.email) || IsBlank(s.password) ==>
      r.(error := s.error) == s && r.error == Some(BlankFieldsError)
    ensures !IsBlank(s.email) && !IsBlank(s.password) ==>
      && !r.loading
      && r.request == Some(LoginRequest(s.email, s.password))
      && (r.error.None? <==> outcome.Answered? && outcome.response.successful && outcome.response.body.Some?)
      && (r.error.None? ==> r.loginSuccess && r.saved == outcome.response.body)
      && (r.error.Some? ==> r.saved == s.saved)
  {
    if IsBlank(s.email) || IsBlank(s.password) then Clicked(s) else Finish(Clicked(s), outcome)
  }

  /** The message shown for each failed outcome. */
  lemma FailureMessages(s: Login, outcome: Outcome)
    requires !IsBlank(s.email) && !IsBlank(s.password)
    ensures outcome.Thrown? ==>
      OnLoginClicked(s, outcome).error == Some(NetworkErrorPrefix + Render(outcome.message))
    ensures outcome.Answered? && outcome.response.successful && outcome.response.body.None? ==>
      OnLoginClicked(s, outcome).error == Some(EmptyBodyError)
    ensures outcome.Answered? && !outcome.response.successful && outcome.response.errorBody.None? ==>
      OnLoginClicked(s, outcome).error == Some(LoginFailedPrefix + BadCredentials)
    ensures outcome.Answered? && !outcome.response.successful && outcome.response.errorBody.Some? ==>
      OnLoginClicked(s, outcome).error == Some(LoginFailedPrefix + outcome.response.errorBody.value)
  {
  }

  /** The request carries what was last typed into the two fields. */
  lemma RequestCarriesTypedCredentials(s: Login, e: string, p: string, outcome: Outcome)
    requires !IsBlank(e) && !IsBlank(p)
    ensures OnLoginClicked(OnPasswordChange(OnEmailChange(s, e), p), outcome).request == Some(LoginRequest(e, p))
  {
  }

  /** From the initial form nothing can be sent: both fields start empty, hence blank. */
  lemma InitialFormRefused(outcome: Outcome)
    ensures OnLoginClicked(Initial, outcome).request.None?
    ensures OnLoginClicked(Initial, outcome).error == Some(BlankFieldsError)
  {
    assert IsBlank(Initial.email);
  }
}
