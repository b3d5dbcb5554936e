/** `POST /api/auth/signup` and `POST /api/auth/login`. The environment's
    `JWT_SECRET` and `ADMIN_SIGNUP_CODE` are a `Config`; `jwt.sign` is
    modelled by the claims it signs, which carry no expiry. */
module AuthRoutes {
  import opened Base
  import opened Text
  import opened Users
  import opened Database

  datatype Config = Config(jwtSecret: Option<string>, adminSignupCode: Option<string>)

  /** The payload of a token signed by `jwt.sign({ userId, role }, secret)`. */
  datatype Claims = Claims(userId: Id, role: Role)

  /** The JSON `{ token, role }` both routes answer with on success. */
  datatype Session = Session(token: Claims, role: Role)

  /** The fields `signup` destructures from the body; `email` is the key of
      the existence check. */
  datatype SignupRequest = SignupRequest(
    name: Option<string>,
    email: string,
    password: Option<string>,
    role: Option<string>,
    companyName: Option<string>,
    businessRegistration: Option<string>,
    adminCode: Option<string>)

  datatype LoginRequest = LoginRequest(email: string, password: string, role: string)

  const EmailInUse: string := "Email already in use"
  const OwnerFieldsRequired: string := "Company name and business registration are required for owners"
  const InvalidAdminCode: string := "Invalid admin code"
  const ErrorCreatingUser: string := "Error creating user"
  const InvalidCredentials: string := "Invalid credentials"
  const PendingApproval: string := "Your account is pending approval"
  const ErrorLoggingIn: string := "Error logging in"

  /** `jwt.sign` throws when the secret is missing or empty. */
  predicate CanSign(cfg: Config) {
    Truthy(cfg.jwtSecret)
  }

  /** `User.findOne({ email })` finds a document. */
  predicate EmailTaken(users: seq<User>, email: string) {
    exists i :: 0 <= i < |users| && users[i].email == email
  }

  /** `role === 'owner' && (!companyName || !businessRegistration)`. */
  predicate OwnerFieldsMissing(req: SignupRequest) {
    req.role == Some("owner") && (!Truthy(req.companyName) || !Truthy(req.businessRegistration))
  }

  /** `role === 'admin'` and `adminCode !== process.env.ADMIN_SIGNUP_CODE`;
      two absent values are strictly equal. */
  predicate AdminCodeRejected(cfg: Config, req: SignupRequest) {
    req.role == Some("admin") && req.adminCode != cfg.adminSignupCode
  }

  /** The document `signup` builds: the owner-only fields are passed only
      when the requested role is `owner`. */
  function Draft(req: SignupRequest): (d: UserDraft)
    ensures d.name == req.name && d.email == Some(req.email) && d.password == req.password && d.role == req.role
    ensures req.role == Some("owner") ==>
              d.companyName == req.companyName && d.businessRegistration == req.businessRegistration
    ensures req.role != Some("owner") ==> d.companyName.None? && d.businessRegistration.None?
  {
    var owner := req.role == Some("owner");
    UserDraft(req.name, Some(req.email), req.password, req.role,
              if owner then req.companyName else None,
              if owner then req.businessRegistration else None)
  }

  /** What a successful signup stores: a fresh, schema-valid user under an
      unused email, with the hash of the submitted password, the requested
      (or default) role, owner fields only for owners, `isApproved` false
      exactly for owners, and no tokens. */
  predicate SignedUp(users: seq<User>, req: SignupRequest, newId: Id, u: User) {
    && u.id == newId
    && Some(u.name) == req.name
    && u.email == req.email
    && !EmailTaken(users, req.email)
    && SchemaHolds(u)
    && req.password.Some? && Compare(req.password.value, u.password) && u.password != req.password.value
    && Some(u.role) == RoleOrDefault(req.role)
    && (u.role == Owner ==> u.companyName == req.companyName && u.businessRegistration == req.businessRegistration)
    && (u.role != Owner ==> u.companyName.None? && u.businessRegistration.None?)
    && u.isApproved == (u.role != Owner)
    && u.tokens == []
  }

  /** `POST /signup` over the user collection: the response and the
      collection afterwards. */
  function Signup(users: seq<User>, cfg: Config, req: SignupRequest, newId: Id): (r: (Response<Session>, seq<User>))
    ensures EmailTaken(users, req.email) ==> r == (Fail(400, EmailInUse), users)
    ensures !EmailTaken(users, req.email) && OwnerFieldsMissing(req) ==> r == (Fail(400, OwnerFieldsRequired), users)
    ensures !EmailTaken(users, req.email) && !OwnerFieldsMissing(req) && req.role == Some("admin") ==>
              (r.0 == Fail(403, InvalidAdminCode) <==> req.adminCode != cfg.adminSignupCode)
    ensures r.0 == Fail(403, InvalidAdminCode) ==> r.1 == users
    ensures (!EmailTaken(users, req.email) && !OwnerFieldsMissing(req) && !AdminCodeRejected(cfg, req)
             && CreateUser(newId, Draft(req)).None?) ==> r == (Fail(500, ErrorCreatingUser), users)
    ensures !EmailTaken(users, req.email) && !OwnerFieldsMissing(req) && !AdminCodeRejected(cfg, req)
            && CreateUser(newId, Draft(req)).Some? ==>
              && r.1 == users + [CreateUser(newId, Draft(req)).value]
              && r.0 == if CanSign(cfg) then Done(201, Session(Claims(newId, r.1[|users|].role), r.1[|users|].role))
                        else Fail(500, ErrorCreatingUser)
    ensures r.1 == users || (|r.1| == |users| + 1 && r.1[..|users|] == users && SignedUp(users, req, newId, r.1[|users|]))
    ensures r.1 != users ==> (r.0.Done? <==> CanSign(cfg))
    ensures r.0.Done? ==> r.1 != users && r.0 == Done(201, Session(Claims(newId, r.1[|users|].role), r.1[|users|].role))
  {
    if EmailTaken(users, req.email) then (Fail(400, EmailInUse), users)
    else if OwnerFieldsMissing(req) then (Fail(400, OwnerFieldsRequired), users)
    else if AdminCodeRejected(cfg, req) then (Fail(403, InvalidAdminCode), users)
    else match CreateUser(newId, Draft(req))
      case None => (Fail(500, ErrorCreatingUser), users)
      case Some(u) =>
        if CanSign(cfg) then (Done(201, Session(Claims(u.id, u.role), u.role)), users + [u])
        else (Fail(500, ErrorCreatingUser), users + [u])
  }

  /** The handler as it runs against the store: the guards in order, then
      `new User` (which takes an id), `save()`, and `jwt.sign`. */
  method SignupRoute(db: Store, cfg: Config, req: SignupRequest) returns (resp: Response<Session>)
    requires db.Valid()
    modifies db
    ensures db.Valid()
    ensures (resp, db.users) == Signup(old(db.users), cfg, req, old(db.nextId))
    ensures db.nextId == if !EmailTaken(old(db.users), req.email) && !OwnerFieldsMissing(req)
                            && !AdminCodeRejected(cfg, req)
                         then old(db.nextId) + 1 else old(db.nextId)
    ensures db.accommodations == old(db.accommodations) && db.bookings == old(db.bookings)
  {
    if EmailTaken(db.users, req.email) {
      return Fail(400, EmailInUse);
    }
    if OwnerFieldsMissing(req) {
      return Fail(400, OwnerFieldsRequired);
    }
    if AdminCodeRejected(cfg, req) {
      return Fail(403, InvalidAdminCode);
    }
    var user := CreateUser(db.nextId, Draft(req));
    db.nextId := db.nextId + 1;
    if user.None? {
      return Fail(500, ErrorCreatingUser);
    }
    var u := user.value;
    db.users := db.users + [u];
    if !CanSign(cfg) {
      return Fail(500, ErrorCreatingUser);
    }
    resp := Done(201, Session(Claims(u.id, u.role), u.role));
  }

  /** `User.findOne({ email, role })`. */
  function LoginUser(users: seq<User>, email: string, role: string): (r: Option<User>)
    ensures r.Some? ==> r.value in users && r.value.email == email && RoleName(r.value.role) == role
    ensures r.None? <==> forall i :: 0 <= i < |users| ==> !(users[i].email == email && RoleName(users[i].role) == role)
  {
    FindFirst(users, (u: User) => u.email == email && RoleName(u.role) == role)
  }

  /** `POST /login`: read-only over the user collection. An unknown
      (email, role) pair and a wrong password give the same answer; the
      approval check comes only after the password matched. */
  function Login(users: seq<User>, cfg: Config, req: LoginRequest): (r: Response<Session>)
    ensures LoginUser(users, req.email, req.role).None? ==> r == Fail(401, InvalidCredentials)
    ensures LoginUser(users, req.email, req.role).Some? &&
            !Compare(req.password, LoginUser(users, req.email, req.role).value.password) ==>
              r == Fail(401, InvalidCredentials)
    ensures r == Fail(403, PendingApproval) <==>
              && LoginUser(users, req.email, req.role).Some?
              && Compare(req.password, LoginUser(users, req.email, req.role).value.password)
              && LoginUser(users, req.email, req.role).value.role == Owner
              && !LoginUser(users, req.email, req.role).value.isApproved
    ensures (&& LoginUser(users, req.email, req.role).Some?
             && Compare(req.password, LoginUser(users, req.email, req.role).value.password)
             && !(LoginUser(users, req.email, req.role).value.role == Owner &&
                  !LoginUser(users, req.email, req.role).value.isApproved)
             && !CanSign(cfg)) ==> r == Fail(500, ErrorLoggingIn)
    ensures r.Done? <==>
              && LoginUser(users, req.email, req.role).Some?
              && Compare(req.password, LoginUser(users, req.email, req.role).value.password)
              && (LoginUser(users, req.email, req.role).value.role == Owner ==>
                    LoginUser(users, req.email, req.role).value.isApproved)
              && CanSign(cfg)
    ensures r.Done? ==>
              var u := LoginUser(users, req.email, req.role).value;
              r == Done(200, Session(Claims(u.id, u.role), u.role))
  {
    match LoginUser(users, req.email, req.role)
    case None => Fail(401, InvalidCredentials)
    case Some(u) =>
      if !Compare(req.password, u.password) then Fail(401, InvalidCredentials)
      else if u.role == Owner && !u.isApproved then Fail(403, PendingApproval)
      else if !CanSign(cfg) then Fail(500, ErrorLoggingIn)
      else Done(200, Session(Claims(u.id, u.role), u.role))
  }
}
