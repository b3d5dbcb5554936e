/** The signup page's submit handler. */
module SignupPage {
  import opened Base
  import opened AuthRoutes
  import opened ClientSession

  const PasswordsDiffer: string := "Passwords don't match"
  const SignupFailed: string := "An error occurred during signup"

  /** The form's controlled inputs; `role` starts as `student`. */
  datatype SignupForm = SignupForm(
    name: string,
    email: string,
    password: string,
    confirmPassword: string,
    role: string,
    companyName: string,
    businessRegistration: string,
    adminCode: string)

  /** The JSON body: the owner fields only for `owner`, the admin code only
      for `admin` (`undefined` fields are dropped by `JSON.stringify`). */
  function SignupBody(f: SignupForm): (r: SignupRequest)
    ensures r.name == Some(f.name) && r.email == f.email && r.password == Some(f.password) && r.role == Some(f.role)
    ensures r.companyName.Some? <==> f.role == "owner"
    ensures r.businessRegistration.Some? <==> f.role == "owner"
    ensures r.adminCode.Some? <==> f.role == "admin"
    ensures r.companyName.Some? ==> r.companyName.value == f.companyName
    ensures r.businessRegistration.Some? ==> r.businessRegistration.value == f.businessRegistration
    ensures r.adminCode.Some? ==> r.adminCode.value == f.adminCode
  {
    var owner := f.role == "owner";
    SignupRequest(Some(f.name), f.email, Some(f.password), Some(f.role),
                  if owner then Some(f.companyName) else None,
                  if owner then Some(f.businessRegistration) else None,
                  if f.role == "admin" then Some(f.adminCode) else None)
  }

  /** `handleSubmit`: the request sent (if any) and the browser effects.
      `send` is the `fetch` of `/api/auth/signup` with its JSON decoding. */
  function SubmitSignup(f: SignupForm, send: SignupRequest -> ServerReply): (r: (Option<SignupRequest>, seq<Effect>))
    ensures f.password != f.confirmPassword ==> r == (None, [Alert(PasswordsDiffer)])
    ensures f.password == f.confirmPassword ==> r.0 == Some(SignupBody(f))
    ensures f.password == f.confirmPassword && send(SignupBody(f)).NetworkFailure? ==> r.1 == [Alert(SignupFailed)]
    ensures f.password == f.confirmPassword && send(SignupBody(f)).Reply? && send(SignupBody(f)).ok ==>
              r.1 == SignedIn(send(SignupBody(f)))
    ensures f.password == f.confirmPassword && send(SignupBody(f)).Reply? && !send(SignupBody(f)).ok ==>
              r.1 == [Alert(JsText(send(SignupBody(f)).message))]
    ensures StoresNothing(r.1) <==> !(r.0.Some? && send(r.0.value).Reply? && send(r.0.value).ok)
  {
    if f.password != f.confirmPassword then (None, [Alert(PasswordsDiffer)])
    else
      var body := SignupBody(f);
      match send(body)
      case NetworkFailure => (Some(body), [Alert(SignupFailed)])
      case Reply(ok, _, _, message) =>
        if ok then (Some(body), SignedIn(send(body)))
        else (Some(body), [Alert(JsText(message))])
  }
}
