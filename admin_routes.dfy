/** `GET /api/admin/users` and `POST /api/admin/approve-owner/:id`, both
    behind `auth` and `requireRole(['admin'])`. */
module AdminRoutes {
  import opened Base
  import opened Users
  import opened Middleware
  import opened Database

  const OwnerNotFound: string := "User not found or not an owner"
  const OwnerApproved: string := "Owner approved successfully"

  /** `User.find({}, '-password')`: every user, in store order, without
      the password. */
  function ListUsers(users: seq<User>): (r: seq<PublicUser>)
    ensures |r| == |users|
    ensures forall i :: 0 <= i < |users| ==> r[i] == Public(users[i])
  {
    seq(|users|, i requires 0 <= i < |users| => Public(users[i]))
  }

  /** `User.findById(id)`. */
  function IndexOfId(users: seq<User>, id: Id): (r: Option<nat>)
    ensures r.Some? ==> r.value < |users| && users[r.value].id == id
    ensures r.Some? ==> forall j :: 0 <= j < r.value ==> users[j].id != id
    ensures r.None? <==> forall j :: 0 <= j < |users| ==> users[j].id != id
  {
    FindIndex(users, (u: User) => u.id == id)
  }

  /** The handler of `approve-owner/:id` over the user collection: 404 and
      no change unless the id names an owner; otherwise that owner's
      `isApproved` becomes true and nothing else changes (the save does not
      modify the password, so the hook does not rehash it). */
  function ApproveOwner(users: seq<User>, id: Id): (r: (Response<string>, seq<User>))
    ensures IndexOfId(users, id).None? ==> r == (Fail(404, OwnerNotFound), users)
    ensures IndexOfId(users, id).Some? && users[IndexOfId(users, id).value].role != Owner ==>
              r == (Fail(404, OwnerNotFound), users)
    ensures r.0.Done? ==> r.0 == Done(200, OwnerApproved)
    ensures r.0.Done? <==> IndexOfId(users, id).Some? && users[IndexOfId(users, id).value].role == Owner
    ensures |r.1| == |users|
    ensures forall i :: 0 <= i < |users| ==>
              r.1[i] == if r.0.Done? && IndexOfId(users, id) == Some(i)
                        then users[i].(isApproved := true) else users[i]
  {
    match IndexOfId(users, id)
    case None => (Fail(404, OwnerNotFound), users)
    case Some(k) =>
      if users[k].role != Owner then (Fail(404, OwnerNotFound), users)
      else (Done(200, OwnerApproved), users[k := PreSave(users[k].(isApproved := true), false)])
  }

  /** Approving twice is approving once: the second call answers the same
      and changes nothing. */
  lemma ApproveOwnerIdempotent(users: seq<User>, id: Id)
    ensures ApproveOwner(ApproveOwner(users, id).1, id) == ApproveOwner(users, id)
  {
    var (resp, after) := ApproveOwner(users, id);
    if resp.Done? {
      var k := IndexOfId(users, id).value;
      assert forall j :: 0 <= j < |users| ==> after[j].id == users[j].id;
      assert IndexOfId(after, id) == Some(k);
      var (resp2, after2) := ApproveOwner(after, id);
      assert resp2 == resp;
      assert after2 == after;
    }
  }

  /** Approval keeps every invariant of the user collection: it changes
      neither ids, emails nor any field the schema validates. */
  lemma ApproveOwnerKeepsUsersValid(users: seq<User>, id: Id, nextId: Id)
    requires UsersValid(users, nextId)
    ensures UsersValid(ApproveOwner(users, id).1, nextId)
  {
  }

  /** The route: the gate first, then the listing. */
  method ListUsersRoute(db: Store, req: Request, verify: string -> VerifyResult, nowMs: int, storeFault: bool)
    returns (resp: Response<seq<PublicUser>>)
    modifies req
    ensures var g := Gatekeep(req.Sources(), verify, nowMs, db.users, storeFault, [Admin]);
      && (g.Deny? ==> resp == Fail(g.status, g.message))
      && (g == Pass ==> resp == Done(200, ListUsers(db.users)))
  {
    var g := Guard(req, [Admin], verify, nowMs, db.users, storeFault);
    if g.Deny? {
      return Fail(g.status, g.message);
    }
    resp := Done(200, ListUsers(db.users));
  }

  /** The route: the gate first, so a denied request leaves the store as it
      was; then `findById`, the role check, and the in-place update. */
  method ApproveOwnerRoute(db: Store, req: Request, id: Id, verify: string -> VerifyResult, nowMs: int,
                           storeFault: bool)
    returns (resp: Response<string>)
    requires db.Valid()
    modifies db, req
    ensures db.Valid()
    ensures var g := Gatekeep(req.Sources(), verify, nowMs, old(db.users), storeFault, [Admin]);
      && (g.Deny? ==> resp == Fail(g.status, g.message) && db.users == old(db.users))
      && (g == Pass ==> (resp, db.users) == ApproveOwner(old(db.users), id))
    ensures db.accommodations == old(db.accommodations) && db.bookings == old(db.bookings)
    ensures db.nextId == old(db.nextId)
  {
    var g := Guard(req, [Admin], verify, nowMs, db.users, storeFault);
    if g.Deny? {
      return Fail(g.status, g.message);
    }
    var k := IndexOfId(db.users, id);
    if k.None? || db.users[k.value].role != Owner {
      return Fail(404, OwnerNotFound);
    }
    ApproveOwnerKeepsUsersValid(db.users, id, db.nextId);
    var user := db.users[k.value].(isApproved := true);
    db.users := db.users[k.value := PreSave(user, false)];
    resp := Done(200, OwnerApproved);
  }
}
