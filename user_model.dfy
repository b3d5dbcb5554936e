/** The mongoose `User` schema: the role enumeration and its default, the
    fields required only of owners, the `isApproved` default, and the
    pre-save hook that hashes the password only when it was modified. */
module Users {
  import opened Base
  import opened Text

  datatype Role = Student | Owner | Admin

  /** Casting a request's role string against the schema's enumeration. */
  function ParseRole(s: string): (r: Option<Role>)
    ensures r.Some? <==> s == "student" || s == "owner" || s == "admin"
  {
    if s == "student" then Some(Student)
    else if s == "owner" then Some(Owner)
    else if s == "admin" then Some(Admin)
    else None
  }

  /** The string under which a role is stored and sent to clients. */
  function RoleName(r: Role): (n: string)
    ensures ParseRole(n) == Some(r)
  {
    match r
    case Student => "student"
    case Owner => "owner"
    case Admin => "admin"
  }

  /** A stored user document. `password` holds the hash. `tokens` is the
      list the session middleware looks the presented token up in; the schema
      declares no such field and no route writes it. */
  datatype User = User(
    id: Id,
    name: string,
    email: string,
    password: string,
    role: Role,
    companyName: Option<string>,
    businessRegistration: Option<string>,
    isApproved: bool,
    tokens: seq<string>)

  /** A user document selected with `-password`. */
  datatype PublicUser = PublicUser(
    id: Id,
    name: string,
    email: string,
    role: Role,
    companyName: Option<string>,
    businessRegistration: Option<string>,
    isApproved: bool,
    tokens: seq<string>)

  function Public(u: User): PublicUser {
    PublicUser(u.id, u.name, u.email, u.role, u.companyName, u.businessRegistration, u.isApproved, u.tokens)
  }

  /** The projection forgets the password and nothing else. */
  lemma PublicDropsOnlyPassword(u: User, v: User)
    ensures Public(u) == Public(v) <==> u == v.(password := u.password)
  {
  }

  /** Stand-in for `bcrypt.hash(password, 8)`: a tagged, injective image of
      the plaintext. No property below depends on its shape beyond what
      `Compare` and `CompareOnlyOwnHash` state. */
  const BcryptTag: string := "$2a$08$"

  function Hash(plain: string): (h: string)
    ensures h != plain && h != ""
  {
    BcryptTag + plain
  }

  /** Stand-in for `bcrypt.compare(plain, hash)`. */
  predicate Compare(plain: string, hash: string) {
    Hash(plain) == hash
  }

  /** `bcrypt.compare` accepts a password against its own hash and no other
      password against it. */
  lemma CompareOnlyOwnHash(p: string, q: string)
    ensures Compare(p, Hash(q)) <==> p == q
  {
    if Compare(p, Hash(q)) {
      assert (BcryptTag + p)[|BcryptTag|..] == p;
      assert (BcryptTag + q)[|BcryptTag|..] == q;
    }
  }

  /** The schema's validators as they hold of every stored user: `name`,
      `email` and `password` are required (a String path rejects `''`), and
      `companyName` and `businessRegistration` are required of owners. */
  predicate SchemaHolds(u: User) {
    && u.name != ""
    && u.email != ""
    && u.password != ""
    && (u.role == Owner ==> Truthy(u.companyName) && Truthy(u.businessRegistration))
  }

  /** The fields handed to `new User({...})`; absent ones are `undefined`. */
  datatype UserDraft = UserDraft(
    name: Option<string>,
    email: Option<string>,
    password: Option<string>,
    role: Option<string>,
    companyName: Option<string>,
    businessRegistration: Option<string>)

  /** The role after the schema default: `student` when none is given, and
      nothing when the given string is outside the enumeration. */
  function RoleOrDefault(role: Option<string>): (r: Option<Role>)
    ensures role.None? ==> r == Some(Student)
    ensures role.Some? ==> r == ParseRole(role.value)
  {
    match role
    case None => Some(Student)
    case Some(s) => ParseRole(s)
  }

  /** The pre-save hook: the password is replaced by its hash exactly when
      the password path was modified; a save that does not touch it keeps the
      stored hash. */
  function PreSave(u: User, passwordModified: bool): (r: User)
    ensures !passwordModified ==> r == u
    ensures passwordModified ==> r == u.(password := r.password) && Compare(u.password, r.password)
  {
    if passwordModified then u.(password := Hash(u.password)) else u
  }

  /** `new User(draft)` followed by `save()`: defaults are applied, the
      validators run, and on success the pre-save hook hashes the (new,
      hence modified) password. `None` is a validation error. */
  function CreateUser(id: Id, d: UserDraft): (r: Option<User>)
    ensures r.Some? <==>
      && Truthy(d.name) && Truthy(d.email) && Truthy(d.password)
      && RoleOrDefault(d.role).Some?
      && (RoleOrDefault(d.role) == Some(Owner) ==> Truthy(d.companyName) && Truthy(d.businessRegistration))
    ensures r.Some? ==>
      && r.value.id == id
      && Some(r.value.name) == d.name
      && Some(r.value.email) == d.email
      && Some(r.value.role) == RoleOrDefault(d.role)
      && r.value.companyName == d.companyName
      && r.value.businessRegistration == d.businessRegistration
      && r.value.isApproved == (r.value.role != Owner)
      && Compare(d.password.value, r.value.password)
      && r.value.password != d.password.value
      && r.value.tokens == []
      && SchemaHolds(r.value)
  {
    var role := RoleOrDefault(d.role);
    if !(Truthy(d.name) && Truthy(d.email) && Truthy(d.password) && role.Some?) then None
    else if role.value == Owner && !(Truthy(d.companyName) && Truthy(d.businessRegistration)) then None
    else
      var doc := User(id, d.name.value, d.email.value, d.password.value, role.value,
                      d.companyName, d.businessRegistration, role.value != Owner, []);
      Some(PreSave(doc, true))
  }
}
