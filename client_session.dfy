/** What the signup and login pages do with the server's answer: store the
    token and the role, then go to the role's dashboard. Browser effects are
    values; `fetch` is a parameter of each page's submit handler. */
module ClientSession {
  import opened Base
  import opened Users

  /** `alert(text)`, `setError(text)`, `localStorage.setItem(key, value)`,
      `navigate(path)`. */
  datatype Effect = Alert(text: string) | ShowError(text: string) | StoreItem(key: string, value: string)
                  | Navigate(path: string)

  /** The outcome of `fetch` and `response.json()`: a thrown error, or the
      response's `ok` flag with the JSON fields the pages read. */
  datatype ServerReply = NetworkFailure | Reply(ok: bool, token: Option<string>, role: Option<string>, message: Option<string>)

  /** A possibly `undefined` string where a string is expected
      (`setItem`, `alert`). */
  function JsText(v: Option<string>): (t: string)
    ensures v.Some? ==> t == v.value
    ensures v.None? ==> t == "undefined"
  {
    match v
    case None => "undefined"
    case Some(s) => s
  }

  /** The `switch (data.role)` both pages run after a successful reply. */
  function DashboardFor(role: Option<string>): (path: string)
    ensures role == Some("student") ==> path == "/user-dashboard"
    ensures role == Some("owner") ==> path == "/owner-dashboard"
    ensures role == Some("admin") ==> path == "/admin-dashboard"
    ensures path == "/" <==> role.None? || ParseRole(role.value).None?
  {
    if role == Some("student") then "/user-dashboard"
    else if role == Some("owner") then "/owner-dashboard"
    else if role == Some("admin") then "/admin-dashboard"
    else "/"
  }

  /** Every role the server can send back has its own dashboard. */
  lemma DashboardsDistinct(r: Role, s: Role)
    ensures DashboardFor(Some(RoleName(r))) != "/"
    ensures DashboardFor(Some(RoleName(r))) == DashboardFor(Some(RoleName(s))) <==> r == s
  {
  }

  /** The effects of an `ok` reply: the token, then the role, are stored
      before the navigation. */
  function SignedIn(reply: ServerReply): (effects: seq<Effect>)
    requires reply.Reply?
    ensures |effects| == 3
    ensures effects[0] == StoreItem("token", JsText(reply.token))
    ensures effects[1] == StoreItem("userRole", JsText(reply.role))
    ensures effects[2] == Navigate(DashboardFor(reply.role))
  {
    [StoreItem("token", JsText(reply.token)), StoreItem("userRole", JsText(reply.role)),
     Navigate(DashboardFor(reply.role))]
  }

  /** Nothing is written to `localStorage`. */
  predicate StoresNothing(effects: seq<Effect>) {
    forall i :: 0 <= i < |effects| ==> !effects[i].StoreItem?
  }
}
