/** `GET /api/student/bookings` and `POST /api/student/book`, both behind
    `auth` and `requireRole(['student'])`. */
module StudentRoutes {
  import opened Base
  import opened Users
  import opened Accommodations
  import opened Bookings
  import opened Middleware
  import opened Database

  const ErrorCreatingBooking: string := "Error creating booking"

  /** `Booking.find({ student })`: the caller's bookings, in store order. */
  function BookingsOf(bookings: seq<Booking>, student: Id): (r: seq<Booking>)
    ensures forall i :: 0 <= i < |r| ==> r[i] in bookings && r[i].student == student
    ensures forall i :: 0 <= i < |bookings| && bookings[i].student == student ==> bookings[i] in r
    ensures IsSubsequence(r, bookings)
    ensures forall b :: multiset(r)[b] == if b.student == student then multiset(bookings)[b] else 0
  {
    WhereIsSubsequence(bookings, (b: Booking) => b.student == student);
    WhereCounts(bookings, (b: Booking) => b.student == student);
    Where(bookings, (b: Booking) => b.student == student)
  }

  /** A booking with its `accommodation` reference populated: the referenced
      document, or `null` when none is stored under that id. */
  datatype BookingView = BookingView(booking: Booking, accommodation: Option<Accommodation>)

  /** `.populate('accommodation')` on one booking. */
  function Populate(accs: seq<Accommodation>, b: Booking): (r: BookingView)
    ensures r.booking == b
    ensures r.accommodation.Some? ==> r.accommodation.value in accs && r.accommodation.value.id == b.accommodation
    ensures r.accommodation.None? <==> forall i :: 0 <= i < |accs| ==> accs[i].id != b.accommodation
  {
    BookingView(b, FindFirst(accs, (a: Accommodation) => a.id == b.accommodation))
  }

  /** The listing handler: the caller's bookings, each populated. */
  function ListBookings(accs: seq<Accommodation>, bookings: seq<Booking>, student: Id): (r: seq<BookingView>)
    ensures |r| == |BookingsOf(bookings, student)|
    ensures forall i :: 0 <= i < |r| ==>
      r[i].booking == BookingsOf(bookings, student)[i] && r[i].booking.student == student
      && (r[i].accommodation.Some? ==> r[i].accommodation.value in accs
                                       && r[i].accommodation.value.id == r[i].booking.accommodation)
    ensures forall i :: 0 <= i < |r| ==>
      (r[i].accommodation.None? <==> forall j :: 0 <= j < |accs| ==> accs[j].id != r[i].booking.accommodation)
  {
    var mine := BookingsOf(bookings, student);
    seq(|mine|, i requires 0 <= i < |mine| => Populate(accs, mine[i]))
  }

  /** The create handler over the booking collection: the body spread into
      the document with `student` overwritten by the caller's id, then
      `save()`. A validation error stores nothing and answers 400. */
  function CreateBookingFor(bookings: seq<Booking>, student: Id, b: BookingBody, newId: Id)
    : (r: (Response<Booking>, seq<Booking>))
    ensures r.0.Done? <==>
      && b.accommodation.Given? && b.checkIn.Given? && b.checkOut.Given?
      && (b.status.Some? ==> ParseStatus(b.status.value).Some?)
    ensures r.0.Fail? ==> r == (Fail(400, ErrorCreatingBooking), bookings)
    ensures r.0.Done? ==>
      && r.0.status == 201
      && r.1 == bookings + [r.0.value]
      && r.0.value.id == newId
      && r.0.value.student == student
      && r.0.value.accommodation == b.accommodation.value
      && r.0.value.checkIn == b.checkIn.value
      && r.0.value.checkOut == b.checkOut.value
      && r.0.value.status == (if b.status.None? then Pending else ParseStatus(b.status.value).value)
  {
    match CreateBooking(newId, b.(student := Given(student)))
    case None => (Fail(400, ErrorCreatingBooking), bookings)
    case Some(bk) => (Done(201, bk), bookings + [bk])
  }

  /** A created booking joins its student's listing, at the end, and no other
      student's listing changes. */
  lemma {:induction false} BookThenList(bookings: seq<Booking>, student: Id, b: BookingBody, newId: Id, other: Id)
    ensures var (resp, after) := CreateBookingFor(bookings, student, b, newId);
      && (resp.Done? ==> BookingsOf(after, student) == BookingsOf(bookings, student) + [resp.value])
      && (other != student ==> BookingsOf(after, other) == BookingsOf(bookings, other))
  {
    var (resp, after) := CreateBookingFor(bookings, student, b, newId);
    if resp.Done? {
      WhereSnoc(bookings, resp.value, (x: Booking) => x.student == student);
      WhereSnoc(bookings, resp.value, (x: Booking) => x.student == other);
    }
  }

  /** The server stores a booking whose check-out is not after its check-in,
      and one that names no stored accommodation: neither the schema nor the
      handler relates the two dates or checks the reference. */
  lemma ServerIgnoresDateOrder(bookings: seq<Booking>, student: Id, accommodation: Id, day: int, newId: Id)
    ensures CreateBookingFor(bookings, student,
              BookingBody(Given(accommodation), Absent, Given(day), Given(day - 1), None), newId).0
            == Done(201, Booking(newId, accommodation, student, day, day - 1, Pending))
  {
  }

  /** The booking route: the gate, then the handler against the store. */
  method BookRoute(db: Store, req: Request, body: BookingBody,
                   verify: string -> VerifyResult, nowMs: int, storeFault: bool)
    returns (resp: Response<Booking>)
    requires db.Valid()
    modifies db, req
    ensures db.Valid()
    ensures var g := Gatekeep(req.Sources(), verify, nowMs, old(db.users), storeFault, [Student]);
      && (g.Deny? ==> resp == Fail(g.status, g.message) && db.bookings == old(db.bookings)
                      && db.nextId == old(db.nextId))
      && (g == Pass ==>
            var caller := AuthOutcome(req.Sources(), verify, nowMs, old(db.users), storeFault).user;
            && (resp, db.bookings) == CreateBookingFor(old(db.bookings), caller.id, body, old(db.nextId))
            && db.nextId == old(db.nextId) + 1)
    ensures db.users == old(db.users) && db.accommodations == old(db.accommodations)
  {
    var g := Guard(req, [Student], verify, nowMs, db.users, storeFault);
    if g.Deny? {
      return Fail(g.status, g.message);
    }
    var booking := CreateBooking(db.nextId, body.(student := Given(req.user.value.id)));
    db.nextId := db.nextId + 1;
    if booking.None? {
      return Fail(400, ErrorCreatingBooking);
    }
    db.bookings := db.bookings + [booking.value];
    resp := Done(201, booking.value);
  }

  /** The listing route: the gate, then the caller's populated bookings. */
  method ListBookingsRoute(db: Store, req: Request, verify: string -> VerifyResult, nowMs: int,
                           storeFault: bool)
    returns (resp: Response<seq<BookingView>>)
    modifies req
    ensures var g := Gatekeep(req.Sources(), verify, nowMs, db.users, storeFault, [Student]);
      && (g.Deny? ==> resp == Fail(g.status, g.message))
      && (g == Pass ==>
            resp == Done(200, ListBookings(db.accommodations, db.bookings,
                                           AuthOutcome(req.Sources(), verify, nowMs, db.users, storeFault).user.id)))
  {
    var g := Guard(req, [Student], verify, nowMs, db.users, storeFault);
    if g.Deny? {
      return Fail(g.status, g.message);
    }
    resp := Done(200, ListBookings(db.accommodations, db.bookings, req.user.value.id));
  }
}
