/** The booking button of the accommodation detail page: both dates must be
    chosen, and check-out must come strictly after check-in. */
module BookingGuard {

  const SelectDates: string := "Please select check-in and check-out dates"
  const CheckOutAfterCheckIn: string := "Check-out date must be after check-in date"

  /** What `handleBooking` decides; each case ends in one alert. */
  datatype Decision = MissingDates | DatesOutOfOrder | BookingInitiated(checkIn: string, checkOut: string)

  /** `handleBooking` over the two date inputs (`''` until chosen).
      `day` is `new Date(...)` on a chosen input, as a day number. */
  function HandleBooking(checkIn: string, checkOut: string, day: string -> int): (d: Decision)
    ensures d == MissingDates <==> checkIn == "" || checkOut == ""
    ensures d == DatesOutOfOrder <==> checkIn != "" && checkOut != "" && day(checkIn) >= day(checkOut)
    ensures d.BookingInitiated? <==> checkIn != "" && checkOut != "" && day(checkIn) < day(checkOut)
    ensures d.BookingInitiated? ==> d.checkIn == checkIn && d.checkOut == checkOut
  {
    if checkIn == "" || checkOut == "" then MissingDates
    else if day(checkIn) >= day(checkOut) then DatesOutOfOrder
    else BookingInitiated(checkIn, checkOut)
  }

  /** The text of the alert each decision shows. */
  function AlertText(d: Decision): string {
    match d
    case MissingDates => SelectDates
    case DatesOutOfOrder => CheckOutAfterCheckIn
    case BookingInitiated(i, o) => "Booking initiated for " + i + " to " + o
  }

  /** The missing-date check comes first: with a date missing the order of
      the dates is never looked at, and a same-day stay is refused. */
  lemma MissingBeforeOrder(checkIn: string, checkOut: string, day: string -> int, other: string -> int)
    ensures checkIn == "" || checkOut == "" ==>
              AlertText(HandleBooking(checkIn, checkOut, day)) == SelectDates
              && HandleBooking(checkIn, checkOut, day) == HandleBooking(checkIn, checkOut, other)
    ensures checkIn != "" && checkOut != "" && day(checkIn) == day(checkOut) ==>
              AlertText(HandleBooking(checkIn, checkOut, day)) == CheckOutAfterCheckIn
  {
  }
}
