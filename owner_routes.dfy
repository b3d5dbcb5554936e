/** `POST /api/owner/accommodations` and `GET /api/owner/accommodations`,
    both behind `auth` and `requireRole(['owner'])`. */
module OwnerRoutes {
  import opened Base
  import opened Text
  import opened Users
  import opened Accommodations
  import opened Middleware
  import opened Database

  const ErrorCreatingAccommodation: string := "Error creating accommodation"

  /** `Accommodation.find({ owner })`: the caller's accommodations, in store
      order, each as often as it is stored. */
  function OwnedBy(accs: seq<Accommodation>, owner: Id): (r: seq<Accommodation>)
    ensures forall i :: 0 <= i < |r| ==> r[i] in accs && r[i].owner == owner
    ensures forall i :: 0 <= i < |accs| && accs[i].owner == owner ==> accs[i] in r
    ensures IsSubsequence(r, accs)
    ensures forall a :: multiset(r)[a] == if a.owner == owner then multiset(accs)[a] else 0
  {
    WhereIsSubsequence(accs, (a: Accommodation) => a.owner == owner);
    WhereCounts(accs, (a: Accommodation) => a.owner == owner);
    Where(accs, (a: Accommodation) => a.owner == owner)
  }

  /** The create handler over the accommodation collection: the body spread
      into the document with `owner` overwritten by the caller's id, then
      `save()`. A validation error stores nothing and answers 400. */
  function CreateAccommodationFor(accs: seq<Accommodation>, owner: Id, b: AccommodationBody, newId: Id)
    : (r: (Response<Accommodation>, seq<Accommodation>))
    ensures r.0.Done? <==> Truthy(b.name) && Truthy(b.description) && Truthy(b.address) && b.price.Given?
    ensures r.0.Fail? ==> r == (Fail(400, ErrorCreatingAccommodation), accs)
    ensures r.0.Done? ==>
      && r.0.status == 201
      && r.1 == accs + [r.0.value]
      && r.0.value.id == newId
      && r.0.value.owner == owner
      && Some(r.0.value.name) == b.name
      && Some(r.0.value.description) == b.description
      && Some(r.0.value.address) == b.address
      && r.0.value.price == b.price.value
      && r.0.value.amenities == (if b.amenities.Some? then b.amenities.value else [])
  {
    match CreateAccommodation(newId, b.(owner := Given(owner)))
    case None => (Fail(400, ErrorCreatingAccommodation), accs)
    case Some(a) => (Done(201, a), accs + [a])
  }

  /** A created accommodation joins its creator's listing, at the end, and
      no other owner's listing changes. */
  lemma {:induction false} CreateThenList(accs: seq<Accommodation>, owner: Id, b: AccommodationBody, newId: Id, other: Id)
    ensures var (resp, after) := CreateAccommodationFor(accs, owner, b, newId);
      && (resp.Done? ==> OwnedBy(after, owner) == OwnedBy(accs, owner) + [resp.value])
      && (other != owner ==> OwnedBy(after, other) == OwnedBy(accs, other))
  {
    var (resp, after) := CreateAccommodationFor(accs, owner, b, newId);
    if resp.Done? {
      WhereSnoc(accs, resp.value, (x: Accommodation) => x.owner == owner);
      WhereSnoc(accs, resp.value, (x: Accommodation) => x.owner == other);
    }
  }

  /** The create route: the gate, then the handler against the store. The
      document takes an id when it is built, before validation. */
  method CreateAccommodationRoute(db: Store, req: Request, body: AccommodationBody,
                                  verify: string -> VerifyResult, nowMs: int, storeFault: bool)
    returns (resp: Response<Accommodation>)
    requires db.Valid()
    modifies db, req
    ensures db.Valid()
    ensures var g := Gatekeep(req.Sources(), verify, nowMs, old(db.users), storeFault, [Owner]);
      && (g.Deny? ==> resp == Fail(g.status, g.message) && db.accommodations == old(db.accommodations)
                      && db.nextId == old(db.nextId))
      && (g == Pass ==>
            var caller := AuthOutcome(req.Sources(), verify, nowMs, old(db.users), storeFault).user;
            && (resp, db.accommodations) == CreateAccommodationFor(old(db.accommodations), caller.id, body, old(db.nextId))
            && db.nextId == old(db.nextId) + 1)
    ensures db.users == old(db.users) && db.bookings == old(db.bookings)
  {
    var g := Guard(req, [Owner], verify, nowMs, db.users, storeFault);
    if g.Deny? {
      return Fail(g.status, g.message);
    }
    var accommodation := CreateAccommodation(db.nextId, body.(owner := Given(req.user.value.id)));
    db.nextId := db.nextId + 1;
    if accommodation.None? {
      return Fail(400, ErrorCreatingAccommodation);
    }
    db.accommodations := db.accommodations + [accommodation.value];
    resp := Done(201, accommodation.value);
  }

  /** The listing route: the gate, then the caller's accommodations. */
  method ListAccommodationsRoute(db: Store, req: Request, verify: string -> VerifyResult, nowMs: int,
                                 storeFault: bool)
    returns (resp: Response<seq<Accommodation>>)
    modifies req
    ensures var g := Gatekeep(req.Sources(), verify, nowMs, db.users, storeFault, [Owner]);
      && (g.Deny? ==> resp == Fail(g.status, g.message))
      && (g == Pass ==>
            resp == Done(200, OwnedBy(db.accommodations,
                                      AuthOutcome(req.Sources(), verify, nowMs, db.users, storeFault).user.id)))
  {
    var g := Guard(req, [Owner], verify, nowMs, db.users, storeFault);
    if g.Deny? {
      return Fail(g.status, g.message);
    }
    resp := Done(200, OwnedBy(db.accommodations, req.user.value.id));
  }
}
