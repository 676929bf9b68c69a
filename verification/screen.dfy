/** The booking component as a state machine: the form (`Editing`) or the
    confirmation card (`Confirmed`), together with the form's current values. */
module Screen {
  import opened Wrappers
  import opened Catalog
  import opened Validation
  import opened Pricing

  /** Which card is shown. `Editing` carries the errors the last submit raised. */
  datatype View = Editing(errors: FieldErrors) | Confirmed(summary: BookingSummary)

  /** The component: the form's values survive switching between the cards. */
  datatype Page = Page(draft: RawForm, view: View)

  /** What the user can do: change the form's values, press "Confirm Booking",
      or press "Make Another Booking". */
  datatype Event = Edit(values: RawForm) | Submit | MakeAnotherBooking

  /** The two email checks a submit meets. The browser checks first, because the
      form lacks `noValidate` and the field is `type="email"`: a non-empty value
      outside its grammar stops the submit before the schema runs. The schema's
      own check then runs as part of validation. */
  datatype EmailChecks = EmailChecks(schema: string -> bool, browser: string -> bool)

  /** The browser lets the submit through: an empty email is not checked, since
      the field is not marked `required`. */
  predicate BrowserAccepts(email: string, checks: EmailChecks) {
    |email| == 0 || checks.browser(email)
  }

  /** The component as first rendered: default values, no errors, no summary. */
  const Initial: Page := Page(EmptyForm, Editing(map[]))

  /** One event. Editing and submitting are only possible on the form card and
      "Make Another Booking" only on the confirmation card; elsewhere an event
      leaves the page as it is. */
  function Step(p: Page, e: Event, checks: EmailChecks): (q: Page)
    ensures q.view.Confirmed? ==> q.draft == p.draft
    ensures p.view.Confirmed? && e != MakeAnotherBooking ==> q == p
    ensures q.view.Confirmed? && p.view.Editing? ==>
      e == Submit && BrowserAccepts(p.draft.email, checks) && Validate(p.draft, checks.schema).Success?
  {
    match (p.view, e)
    case (Editing(_), Edit(values)) => Page(values, p.view)
    case (Editing(_), Submit) =>
      if !BrowserAccepts(p.draft.email, checks) then p
      else
      (match Validate(p.draft, checks.schema)
       case Success(booking) => Page(p.draft, Confirmed(Summarize(booking)))
       case Failure(errors) => Page(p.draft, Editing(errors)))
    case (Confirmed(_), MakeAnotherBooking) => Page(p.draft, Editing(map[]))
    case _ => p
  }

  /** A run of events from a page. */
  function Run(p: Page, events: seq<Event>, checks: EmailChecks): Page
    decreases |events|
  {
    if |events| == 0 then p
    else Run(Step(p, events[0], checks), events[1..], checks)
  }

  /** What every confirmation card satisfies: a summary of an admissible booking,
      with at least one night. */
  predicate SummaryOk(s: BookingSummary, checks: EmailChecks) {
    && 1 <= |s.name| <= MaxNameLength
    && checks.schema(s.email)
    && BrowserAccepts(s.email, checks)
    && s.checkIn < s.checkOut
    && |s.roomType| >= 1
    && s.nights >= 1
    && s.nights == Nights(s.checkIn, s.checkOut)
  }

  predicate Inv(p: Page, checks: EmailChecks) {
    p.view.Confirmed? ==> SummaryOk(p.view.summary, checks)
  }

  /** A submit the browser stops changes nothing: no schema errors appear, not
      even for fields that would fail, and the errors of an earlier submit stay. */
  lemma BrowserBlocksSubmit(p: Page, checks: EmailChecks)
    requires p.view.Editing? && !BrowserAccepts(p.draft.email, checks)
    ensures Step(p, Submit, checks) == p
  {
  }

  /** A valid submit shows a summary holding the five submitted values unchanged
      plus the nights. */
  lemma SubmitValid(p: Page, checks: EmailChecks)
    requires p.view.Editing? && BrowserAccepts(p.draft.email, checks) && Validate(p.draft, checks.schema).Success?
    ensures Step(p, Submit, checks).draft == p.draft
    ensures Step(p, Submit, checks).view ==
      Confirmed(BookingSummary(p.draft.name, p.draft.email, p.draft.checkIn.value,
                               p.draft.checkOut.value, p.draft.roomType,
                               Nights(p.draft.checkIn.value, p.draft.checkOut.value)))
  {
  }

  /** An invalid submit the browser lets through stays on the form and shows
      every error at once. */
  lemma SubmitInvalid(p: Page, checks: EmailChecks)
    requires p.view.Editing? && BrowserAccepts(p.draft.email, checks) && !Admissible(p.draft, checks.schema)
    ensures Step(p, Submit, checks) == Page(p.draft, Editing(Errors(p.draft, checks.schema)))
    ensures Errors(p.draft, checks.schema) != map[]
  {
  }

  /** "Make Another Booking" drops the summary and returns to the form with no
      errors; the form keeps the values of the previous booking. */
  lemma MakeAnotherBookingClearsSummary(p: Page, checks: EmailChecks)
    requires p.view.Confirmed?
    ensures Step(p, MakeAnotherBooking, checks) == Page(p.draft, Editing(map[]))
  {
  }

  /** Submitting the same values again after "Make Another Booking" confirms
      the same summary. */
  lemma ResubmitSameSummary(p: Page, checks: EmailChecks)
    requires p.view.Editing? && BrowserAccepts(p.draft.email, checks) && Validate(p.draft, checks.schema).Success?
    ensures var q := Run(p, [Submit, MakeAnotherBooking, Submit], checks);
            q == Step(p, Submit, checks)
  {
    var q1 := Step(p, Submit, checks);
    var q2 := Step(q1, MakeAnotherBooking, checks);
    assert q2 == Page(p.draft, Editing(map[]));
    assert Run(p, [Submit, MakeAnotherBooking, Submit], checks)
        == Run(q1, [MakeAnotherBooking, Submit], checks);
    assert [MakeAnotherBooking, Submit][1..] == [Submit];
    assert [Submit][1..] == [];
  }

  /** Every step keeps the confirmation card consistent. */
  lemma StepPreservesInv(p: Page, e: Event, checks: EmailChecks)
    requires Inv(p, checks)
    ensures Inv(Step(p, e, checks), checks)
  {
    var q := Step(p, e, checks);
    if q.view.Confirmed? && p.view.Editing? {
      var b := Validate(p.draft, checks.schema).value;
      NightsAtLeastOne(b.checkIn, b.checkOut);
    }
  }

  /** From the initial page, whatever the user does, every confirmation card
      shows an admissible booking of at least one night. */
  lemma {:induction false} RunPreservesInv(p: Page, events: seq<Event>, checks: EmailChecks)
    requires Inv(p, checks)
    ensures Inv(Run(p, events, checks), checks)
    decreases |events|
  {
    if |events| > 0 {
      StepPreservesInv(p, events[0], checks);
      RunPreservesInv(Step(p, events[0], checks), events[1..], checks);
    }
  }

  /** The confirmation card's total for the fixed catalog is positive after any
      run from the initial page exactly when the room is a catalog room. */
  lemma ConfirmedTotal(events: seq<Event>, checks: EmailChecks)
    requires Run(Initial, events, checks).view.Confirmed?
    ensures var s := Run(Initial, events, checks).view.summary;
            TotalPrice(s, Rooms) > 0 <==> Offers(Rooms, s.roomType)
  {
    RunPreservesInv(Initial, events, checks);
    var s := Run(Initial, events, checks).view.summary;
    RoomsWellFormed();
    if Offers(Rooms, s.roomType) {
      var i :| 0 <= i < |Rooms| && Rooms[i].id == s.roomType;
      TotalPriceOfEntry(s, Rooms, i);
      assert Rooms[i].price * s.nights >= Rooms[i].price;
    }
  }
}
