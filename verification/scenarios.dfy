/** Concrete bookings that pin the model to the form's catalog and formulas. */
module Scenarios {
  import opened Wrappers
  import opened Time
  import opened Catalog
  import opened Validation
  import opened Calendar
  import opened Pricing
  import opened Screen

  /** 2025-03-10 00:00 UTC as a millisecond timestamp. */
  const March10: int := 1741564800000

  /** Deluxe from 10 to 13 March: accepted, three nights, 450 both as the
      estimate and on the confirmation card. */
  lemma DeluxeThreeNights(isEmail: string -> bool)
    requires isEmail("a@b.com")
    ensures var raw := RawForm("Ada", "a@b.com", Some(March10), Some(March10 + 3 * DayMs), "deluxe");
            && Validate(raw, isEmail).Success?
            && Summarize(Validate(raw, isEmail).value).nights == 3
            && TotalPrice(Summarize(Validate(raw, isEmail).value), Rooms) == 450
            && Preview(raw, Rooms) == Some(450)
  {
    NightsWholeDays(March10, 3);
    FindInRooms("deluxe");
  }

  /** Check-in and check-out on the same day is refused, on the check-out field. */
  lemma SameDayRejected(isEmail: string -> bool)
    ensures var raw := RawForm("Ada", "a@b.com", Some(March10), Some(March10), "deluxe");
            && Validate(raw, isEmail).Failure?
            && Validate(raw, isEmail).error[CheckOut] == CheckOutNotAfterCheckIn
  {
    var raw := RawForm("Ada", "a@b.com", Some(March10), Some(March10), "deluxe");
    CheckOutRule(raw, isEmail);
  }

  /** A suite from today to tomorrow: both dates are selectable in the pickers,
      one night, 250 as the estimate and on the confirmation card. */
  lemma SuiteOneNight(now: int, offset: int, isEmail: string -> bool)
    requires isEmail("a@b.com")
    ensures var today := StartOfDay(now, offset);
            var raw := RawForm("Ada", "a@b.com", Some(today), Some(today + DayMs), "suite");
            && !CheckInDisabled(today, today)
            && !CheckOutDisabled(today + DayMs, today, Some(today))
            && Validate(raw, isEmail).Success?
            && Summarize(Validate(raw, isEmail).value).nights == 1
            && TotalPrice(Summarize(Validate(raw, isEmail).value), Rooms) == 250
            && Preview(raw, Rooms) == Some(250)
  {
    var today := StartOfDay(now, offset);
    NightsWholeDays(today, 1);
    FindInRooms("suite");
  }

  /** A room identifier outside the catalog passes validation and is confirmed
      at a total of 0, with no estimate shown beforehand. */
  lemma UnknownRoomTypeConfirmedAtZero(isEmail: string -> bool)
    requires isEmail("a@b.com")
    ensures var raw := RawForm("Ada", "a@b.com", Some(March10), Some(March10 + DayMs), "penthouse");
            && Validate(raw, isEmail).Success?
            && TotalPrice(Summarize(Validate(raw, isEmail).value), Rooms) == 0
            && Preview(raw, Rooms).None?
  {
    FindInRooms("penthouse");
  }

  /** The whole flow: fill in the form, confirm, then start another booking.
      Both email checks must pass to reach the confirmation card. */
  lemma BookThenMakeAnother(values: RawForm, checks: EmailChecks)
    requires Admissible(values, checks.schema) && BrowserAccepts(values.email, checks)
    ensures var confirmed := Run(Initial, [Edit(values), Submit], checks);
            && confirmed.view.Confirmed?
            && confirmed.view.summary ==
                 BookingSummary(values.name, values.email, values.checkIn.value, values.checkOut.value,
                                values.roomType, Nights(values.checkIn.value, values.checkOut.value))
            && confirmed.view.summary.nights >= 1
            && Run(confirmed, [MakeAnotherBooking], checks) == Page(values, Editing(map[]))
  {
    var p1 := Step(Initial, Edit(values), checks);
    assert p1 == Page(values, Editing(map[]));
    assert Run(Initial, [Edit(values), Submit], checks) == Run(p1, [Submit], checks);
    assert Run(p1, [Submit], checks) == Run(Step(p1, Submit, checks), [], checks);
    NightsAtLeastOne(values.checkIn.value, values.checkOut.value);
  }

  /** A malformed email the browser rejects hides every schema error: submitting
      an empty name with "not-an-email" leaves the form without errors, although
      the schema would report the name as required. */
  lemma MalformedEmailHidesNameError(checks: EmailChecks)
    requires !checks.browser("not-an-email")
    ensures var p := Page(RawForm("", "not-an-email", None, None, ""), Editing(map[]));
            && Step(p, Submit, checks) == p
            && Errors(p.draft, checks.schema)[Name] == NameRequired
  {
    var p := Page(RawForm("", "not-an-email", None, None, ""), Editing(map[]));
    NameRule(p.draft, checks.schema);
  }
}
