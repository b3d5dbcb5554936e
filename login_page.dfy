/** The login page's submit handler. */
module LoginPage {
  import opened Base
  import opened Text
  import opened AuthRoutes
  import opened ClientSession

  const LoginFailed: string := "An error occurred during login"

  /** The form's controlled inputs; `role` starts as `student`. */
  datatype LoginForm = LoginForm(email: string, password: string, role: string)

  /** `data.message || 'An error occurred during login'`. */
  function FailureText(message: Option<string>): (t: string)
    ensures t != ""
    ensures Truthy(message) ==> t == message.value
    ensures !Truthy(message) ==> t == LoginFailed
  {
    if Truthy(message) then message.value else LoginFailed
  }

  /** `handleSubmit`: the request sent and the browser effects. The shown
      error is cleared first, whatever follows. `send` is the `fetch` of
      `/api/auth/login` with its JSON decoding. */
  function SubmitLogin(f: LoginForm, send: LoginRequest -> ServerReply): (r: (LoginRequest, seq<Effect>))
    ensures r.0 == LoginRequest(f.email, f.password, f.role)
    ensures |r.1| >= 2 && r.1[0] == ShowError("")
    ensures send(r.0).Reply? && send(r.0).ok ==> r.1 == [ShowError("")] + SignedIn(send(r.0))
    ensures send(r.0).Reply? && !send(r.0).ok ==> r.1 == [ShowError(""), ShowError(FailureText(send(r.0).message))]
    ensures send(r.0).NetworkFailure? ==> r.1 == [ShowError(""), ShowError(LoginFailed)]
    ensures StoresNothing(r.1) <==> !(send(r.0).Reply? && send(r.0).ok)
  {
    var body := LoginRequest(f.email, f.password, f.role);
    var outcome := match send(body)
      case NetworkFailure => [ShowError(LoginFailed)]
      case Reply(ok, _, _, message) => if ok then SignedIn(send(body)) else [ShowError(FailureText(message))];
    var effects := [ShowError("")] + outcome;
    assert send(body).Reply? && send(body).ok ==> effects[1].StoreItem?;
    (body, effects)
  }
}
