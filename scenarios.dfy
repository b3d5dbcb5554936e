/** Properties that span several routes: what a user can do right after
    signing up, the approval an owner waits for, and what the session
    middleware makes of a store that no route ever gives a token. */
module Scenarios {
  import opened Base
  import opened Users
  import opened Middleware
  import opened Database
  import opened AuthRoutes
  import opened AdminRoutes

  /** After a successful signup, the new user is the one `findOne` returns
      for its email and role. */
  lemma SignedUpUserIsFound(users: seq<User>, cfg: Config, req: SignupRequest, newId: Id)
    requires Signup(users, cfg, req, newId).0.Done?
    ensures var after := Signup(users, cfg, req, newId).1;
      LoginUser(after, req.email, RoleName(after[|users|].role)) == Some(after[|users|])
  {
  }

  /** A student or admin who has just signed up can log in with the same
      email, password and role, and gets a session for the same user. */
  lemma SignupThenLogin(users: seq<User>, cfg: Config, req: SignupRequest, newId: Id)
    requires Signup(users, cfg, req, newId).0.Done?
    requires Signup(users, cfg, req, newId).1[|users|].role != Owner
    ensures var r := Signup(users, cfg, req, newId);
      Login(r.1, cfg, LoginRequest(req.email, req.password.value, RoleName(r.1[|users|].role))) == r.0.(status := 200)
  {
  }

  /** An owner who has just signed up is refused with 403 until an admin
      approves the account, and admitted afterwards. */
  lemma OwnerWaitsForApproval(users: seq<User>, cfg: Config, req: SignupRequest, newId: Id)
    requires UsersValid(users, newId)
    requires Signup(users, cfg, req, newId).0.Done?
    requires Signup(users, cfg, req, newId).1[|users|].role == Owner
    ensures var r := Signup(users, cfg, req, newId);
      var login := LoginRequest(req.email, req.password.value, "owner");
      && Login(r.1, cfg, login) == Fail(403, PendingApproval)
      && ApproveOwner(r.1, newId).0 == Done(200, OwnerApproved)
      && Login(ApproveOwner(r.1, newId).1, cfg, login) == r.0.(status := 200)
  {
    var after := Signup(users, cfg, req, newId).1;
    var u := after[|users|];
    SignedUpUserIsFound(users, cfg, req, newId);
    assert after == users + [u];
    assert IndexOfId(after, newId) == Some(|users|);
    var approved := ApproveOwner(after, newId).1;
    assert approved == users + [u.(isApproved := true)];
    assert LoginUser(approved, req.email, "owner") == Some(u.(isApproved := true));
  }

  /** No stored user has a token: the state every route leaves behind. */
  predicate NoTokens(users: seq<User>) {
    forall i :: 0 <= i < |users| ==> users[i].tokens == []
  }

  /** Against such a store the session middleware admits no request,
      whatever token it carries and whatever `jwt.verify` makes of it. */
  lemma NoTokensNoAdmission(src: TokenSources, verify: string -> VerifyResult, nowMs: int,
                            users: seq<User>, storeFault: bool)
    requires NoTokens(users)
    ensures AuthOutcome(src, verify, nowMs, users, storeFault).Rejected?
  {
  }

  /** The routes that write the user collection. Login only reads it. */
  datatype Step = SignupStep(cfg: Config, req: SignupRequest) | ApproveStep(id: Id)

  /** The id counter after a signup: the route builds the document, and so
      takes an id, only once the three guards pass. */
  function NextIdAfter(users: seq<User>, cfg: Config, req: SignupRequest, nextId: Id): Id {
    if !EmailTaken(users, req.email) && !OwnerFieldsMissing(req) && !AdminCodeRejected(cfg, req)
    then nextId + 1 else nextId
  }

  /** The user collection after a series of writes, each signup past the
      guards taking the next id, as `SignupRoute` does. */
  function RunSteps(users: seq<User>, nextId: Id, steps: seq<Step>): seq<User>
    decreases |steps|
  {
    if steps == [] then users
    else match steps[0]
      case SignupStep(cfg, req) =>
        RunSteps(Signup(users, cfg, req, nextId).1, NextIdAfter(users, cfg, req, nextId), steps[1..])
      case ApproveStep(id) => RunSteps(ApproveOwner(users, id).1, nextId, steps[1..])
  }

  /** No sequence of signups and approvals gives any user a token, so, with
      the token filter applied by the store, every route behind `auth`
      answers every request with an error. */
  lemma {:induction false} NoRouteIssuesStoredTokens(users: seq<User>, nextId: Id, steps: seq<Step>)
    requires NoTokens(users)
    ensures NoTokens(RunSteps(users, nextId, steps))
    decreases |steps|
  {
    if steps != [] {
      match steps[0]
      case SignupStep(cfg, req) =>
        var after := Signup(users, cfg, req, nextId).1;
        assert NoTokens(after) by {
          if after != users {
            assert after == users + [after[|users|]];
          }
        }
        NoRouteIssuesStoredTokens(after, NextIdAfter(users, cfg, req, nextId), steps[1..]);
      case ApproveStep(id) =>
        NoRouteIssuesStoredTokens(ApproveOwner(users, id).1, nextId, steps[1..]);
    }
  }

  lemma EveryGateCloses(steps: seq<Step>, src: TokenSources, verify: string -> VerifyResult, nowMs: int,
                        storeFault: bool, roles: seq<Role>)
    ensures Gatekeep(src, verify, nowMs, RunSteps([], 0, steps), storeFault, roles) != Pass
  {
    NoRouteIssuesStoredTokens([], 0, steps);
    NoTokensNoAdmission(src, verify, nowMs, RunSteps([], 0, steps), storeFault);
  }
}
