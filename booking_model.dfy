/** The mongoose `Booking` schema: required accommodation and student
    references and dates, and a status enumeration defaulting to `pending`. */
module Bookings {
  import opened Base
  import opened Accommodations

  datatype Status = Pending | Confirmed | Cancelled

  /** Casting a status string against the schema's enumeration. */
  function ParseStatus(s: string): (r: Option<Status>)
    ensures r.Some? <==> s == "pending" || s == "confirmed" || s == "cancelled"
    ensures s == "pending" ==> r == Some(Pending)
    ensures s == "confirmed" ==> r == Some(Confirmed)
    ensures s == "cancelled" ==> r == Some(Cancelled)
  {
    if s == "pending" then Some(Pending)
    else if s == "confirmed" then Some(Confirmed)
    else if s == "cancelled" then Some(Cancelled)
    else None
  }

  /** A stored booking; `checkIn` and `checkOut` are day numbers. */
  datatype Booking = Booking(
    id: Id,
    accommodation: Id,
    student: Id,
    checkIn: int,
    checkOut: int,
    status: Status)

  /** The schema fields a request body may set; a date string that does not
      parse is `Uncastable`. A body `_id` is kept by the document
      constructor but is not modelled. */
  datatype BookingBody = BookingBody(
    accommodation: Field<Id>,
    student: Field<Id>,
    checkIn: Field<int>,
    checkOut: Field<int>,
    status: Option<string>)

  /** `new Booking(body)` followed by validation. `None` is a validation or
      cast error. Nothing relates the two dates, and the accommodation
      reference need not name a stored accommodation. */
  function CreateBooking(id: Id, b: BookingBody): (r: Option<Booking>)
    ensures r.Some? <==>
      && b.accommodation.Given? && b.student.Given? && b.checkIn.Given? && b.checkOut.Given?
      && (b.status.Some? ==> ParseStatus(b.status.value).Some?)
    ensures r.Some? ==>
      && r.value.id == id
      && r.value.accommodation == b.accommodation.value
      && r.value.student == b.student.value
      && r.value.checkIn == b.checkIn.value
      && r.value.checkOut == b.checkOut.value
      && (b.status.None? ==> r.value.status == Pending)
      && (b.status.Some? ==> Some(r.value.status) == ParseStatus(b.status.value))
  {
    var status := match b.status case None => Some(Pending) case Some(s) => ParseStatus(s);
    if b.accommodation.Given? && b.student.Given? && b.checkIn.Given? && b.checkOut.Given? && status.Some? then
      Some(Booking(id, b.accommodation.value, b.student.value, b.checkIn.value, b.checkOut.value, status.value))
    else None
  }
}
