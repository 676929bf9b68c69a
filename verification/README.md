# Hotel booking form — a Dafny model

This project models the booking engine of the library dashboard's hotel booking form
(`src/components/HotelBookingForm.tsx`). The engine has four parts:

- **Validation.** A booking schema has five field rules and one cross-field rule: check-out must be strictly after check-in.
- **Calendar predicates.** Two `disabled` callbacks gray out dates in the check-in and check-out pickers.
- **Pricing.** It computes the nights, the total on the confirmation card, and the live estimate shown while editing.
- **Screen.** The component switches between the form and the confirmation card.

Dates are integer millisecond timestamps. Prices are integers.

Modules, one per part of the component:

- `Wrappers`: `Option` and `Result`.
- `Time`: `DayMs` and `StartOfDay`. `StartOfDay` is the form's `today`, the current instant with its local time of day set to zero, for a zone at a fixed offset from UTC.
- `Catalog`: the three fixed room types and the `find` lookup on them.
- `Validation`: the form snapshot (`RawForm`), the validated `Booking`, the `Issue` kinds with the form's messages and paths, `Errors`, and `Validate`.
- `Calendar`: `CheckInDisabled` and `CheckOutDisabled`, the two pickers' `disabled` callbacks as pure predicates.
- `Pricing`: `Nights`, the stored `BookingSummary`, `TotalPrice` (computed when the confirmation card is rendered) and `Preview` (the estimate).
- `Screen`: the component as a state machine. A `Page` is the form's values plus the card shown (`Editing(errors)` or `Confirmed(summary)`). The events are edit, submit and "Make Another Booking". A submit meets two email checks (`EmailChecks`): the browser's, because the form has no `noValidate` and the email input is `type="email"`, and then the schema's.
- `Scenarios`: concrete bookings against the fixed catalog.

Four behaviours of the code that are easy to miss:

- The room type is only required to be non-empty. An identifier outside the catalog passes validation and is priced at 0. It is not rejected.
- The schema does not compare check-in with today. Only the check-in picker does that.
- "Make Another Booking" only clears the summary. The form keeps the values of the previous booking; it is not reset to empty.
- The confirmed summary stores the five values and `nights`. The total is recomputed from the catalog when the confirmation card is shown.

Validation follows the schema library's evaluation order, which is not visible in the repository:

- Every field rule runs, so a submit that reaches the schema reports all failing fields at once. A submit with a non-empty email the browser rejects never reaches the schema and shows no schema errors at all.
- The cross-field rule runs only when both dates are present. A missing date stops the object before its refinement runs.
- The name's two rules cannot both fail. The cross-field rule reports on `checkOut` only when that field has no other issue. So each field carries at most one issue, and `FieldErrors` is a `map<Field, Issue>`.

## Model

| member | source | states |
|---|---|---|
| Time.StartOfDay | src/components/HotelBookingForm.tsx:60-61 | `today` is a local midnight at most one day before `now` and not after it |
| Time.StartOfDayIsLatestMidnight | src/components/HotelBookingForm.tsx:60-61 | every local midnight not after `now` is at or before `today` |
| Time.StartOfDayUnique | src/components/HotelBookingForm.tsx:60-61 | the midnight whose day contains `now` is the only possible `today` |
| Time.StartOfDayIdempotent | src/components/HotelBookingForm.tsx:60-61 | normalising an already normalised `today` leaves it unchanged |
| Time.MidnightsWholeDaysApart | src/components/HotelBookingForm.tsx:60-61 | two distinct local midnights are at least one day apart |
| Catalog.Rooms | src/components/HotelBookingForm.tsx:52-56 | the catalog constant: standard 100, deluxe 150, suite 250, in that order; described by RoomsWellFormed and FindInRooms |
| Catalog.Find | src/components/HotelBookingForm.tsx:79 | the lookup returns the first entry with the requested identifier, and returns None exactly when no entry has it |
| Catalog.FindUniqueEntry | src/components/HotelBookingForm.tsx:83 | when identifiers are unique, looking up an entry's identifier returns that entry |
| Catalog.RoomsWellFormed | src/components/HotelBookingForm.tsx:52-56 | the catalog has three entries with distinct identifiers and positive prices |
| Catalog.FindInRooms | src/components/HotelBookingForm.tsx:52-56 | standard, deluxe and suite are found at prices 100, 150 and 250; every other identifier finds nothing |
| Validation.Issue.Path | src/components/HotelBookingForm.tsx:35-43 | the field each issue is reported on: each field rule on its own key, the refinement on `checkOut`; described by ErrorsOnOwnPath, FieldIssue, RangeIssue and Errors |
| Validation.Issue.Message | src/components/HotelBookingForm.tsx:35-43 | the seven messages the schema attaches to its issues; described by MessagesDistinct |
| Validation.MessagesDistinct | src/components/HotelBookingForm.tsx:35-43 | no two issues share a message, so a shown message identifies the failed rule |
| Validation.FieldIssue | src/components/HotelBookingForm.tsx:35-39 | the issue a single field rule raises is reported on that field and is never the date-range issue; described per field by NameRule, OtherFieldRules and CheckOutRule |
| Validation.RangeIssue | src/components/HotelBookingForm.tsx:41-44 | the refinement raises only the date-range issue, and only when both dates are present; described by CheckOutRule |
| Validation.Errors | src/components/HotelBookingForm.tsx:33-44 | all issues collected into one map over the five fields, each keyed by its own path; described by ErrorsDomain and ErrorsOnOwnPath |
| Validation.Validate | src/components/HotelBookingForm.tsx:33-44 | succeeds exactly when the five field rules and check-out > check-in all hold; on success it returns the submitted values unchanged; otherwise it returns a non-empty error map and no booking |
| Validation.ErrorsDomain | src/components/HotelBookingForm.tsx:33-44 | a field carries an error exactly when its own rule fails or, for check-out, the cross-field rule fails |
| Validation.ErrorsOnOwnPath | src/components/HotelBookingForm.tsx:41-44 | whenever the cross-field rule fails, `checkOut` shows the date-range error, whatever the other fields hold |
| Validation.NameRule | src/components/HotelBookingForm.tsx:35 | the name is error-free exactly when it has 1 to 100 characters; an empty name gets "required" and a name over 100 gets "too long" |
| Validation.OtherFieldRules | src/components/HotelBookingForm.tsx:36-39 | email is error-free exactly when the email predicate accepts it; check-in exactly when picked; room type exactly when non-empty |
| Validation.CheckOutRule | src/components/HotelBookingForm.tsx:38-44 | check-out is "required" when unpicked; with both dates picked it is error-free exactly when check-out > check-in, and otherwise carries the date-range error |
| Validation.EmptyForm | src/components/HotelBookingForm.tsx:65-69 | the form's default values: empty name, email and room type, no dates picked; described by EmptyFormReportsEveryField |
| Validation.EmptyFormReportsEveryField | src/components/HotelBookingForm.tsx:33-44 | submitting the default values reports all five fields at once |
| Calendar.CheckInDisabled | src/components/HotelBookingForm.tsx:197 | the check-in picker's `disabled` callback; described by CheckInDisablesEndedDays and CheckOutStricterThanCheckIn |
| Calendar.CheckOutDisabled | src/components/HotelBookingForm.tsx:234-240 | the check-out picker's `disabled` callback: an enabled date is not before today and, once a check-in is picked, strictly after it; described by CheckOutEnabledIffAfterCheckIn and CalendarAgreesWithRangeRule |
| Calendar.CheckOutStricterThanCheckIn | src/components/HotelBookingForm.tsx:197 | every date the check-in picker disables, the check-out picker disables too; with no check-in picked the two pickers agree |
| Calendar.CheckInDisablesEndedDays | src/components/HotelBookingForm.tsx:60-61 | a day is disabled for check-in exactly when it ended before `now`; the current day stays selectable |
| Calendar.CheckOutEnabledIffAfterCheckIn | src/components/HotelBookingForm.tsx:234-240 | once an allowed check-in is picked, a check-out date is enabled exactly when it is strictly later |
| Calendar.CalendarAgreesWithRangeRule | src/components/HotelBookingForm.tsx:41 | with an allowed check-in, the check-out picker enables a date exactly when the schema leaves `checkOut` error-free |
| Calendar.PastDatesPassRangeRule | src/components/HotelBookingForm.tsx:234-240 | without an allowed check-in the agreement fails: two ordered past dates are disabled by both pickers yet pass the date-range rule |
| Pricing.Nights | src/components/HotelBookingForm.tsx:73-75 | nights is the ceiling of the stay in days: (nights − 1) days < stay ≤ nights days |
| Pricing.NightsUnique | src/components/HotelBookingForm.tsx:73-75 | only one integer brackets the stay that way |
| Pricing.NightsAtLeastOne | src/components/HotelBookingForm.tsx:73-75 | a check-out strictly after the check-in gives at least one night |
| Pricing.NightsWholeDays | src/components/HotelBookingForm.tsx:73-75 | a stay of exactly k days gives k nights |
| Pricing.Summarize | src/components/HotelBookingForm.tsx:72-77 | the summary keeps the five booking values unchanged and adds the ceiling of the stay in nights, at least 1 for an ordered stay |
| Pricing.TotalPrice | src/components/HotelBookingForm.tsx:83-84 | the total is 0 when the catalog has no entry for the room type; otherwise it is a matching entry's price times the nights |
| Pricing.TotalPriceOfEntry | src/components/HotelBookingForm.tsx:83-84 | when identifiers are unique, the total is the named entry's price times the nights |
| Pricing.Preview | src/components/HotelBookingForm.tsx:277-288 | an estimate is shown exactly when a catalog room and both dates are picked, and it equals a matching price times the nights |
| Pricing.PreviewEqualsConfirmation | src/components/HotelBookingForm.tsx:73-84 | for values that validate, the estimate equals the confirmed total; an unknown room shows no estimate and is confirmed at 0 |
| Pricing.PreviewSign | src/components/HotelBookingForm.tsx:277-288 | for positive prices, the estimate is positive exactly when check-out is after check-in |
| Screen.Initial | src/components/HotelBookingForm.tsx:59-69 | the first render: default values, no errors, no summary; described by ConfirmedTotal and Scenarios.BookThenMakeAnother |
| Screen.BrowserAccepts | src/components/HotelBookingForm.tsx:141-168 | the browser's check on the `type="email"` input of a form without `noValidate`: an empty email passes, a non-empty one must match the browser's grammar; described by BrowserBlocksSubmit |
| Screen.Step | src/components/HotelBookingForm.tsx:72-131 | only a submit from the form that passes the browser's email check and the schema reaches the confirmation card, and it keeps the form's values; on the card only "Make Another Booking" does anything |
| Screen.BrowserBlocksSubmit | src/components/HotelBookingForm.tsx:141-168 | a submit whose non-empty email the browser rejects leaves the page unchanged: no schema errors appear |
| Screen.SubmitValid | src/components/HotelBookingForm.tsx:76 | a valid submit shows a summary of the five submitted values plus the nights |
| Screen.SubmitInvalid | src/components/HotelBookingForm.tsx:33-44 | an invalid submit that the browser lets through stays on the form, keeps its values, and shows the non-empty error map |
| Screen.MakeAnotherBookingClearsSummary | src/components/HotelBookingForm.tsx:125 | "Make Another Booking" drops the summary and returns to the form with no errors and the previous values |
| Screen.ResubmitSameSummary | src/components/HotelBookingForm.tsx:125 | submitting again after "Make Another Booking" confirms the same summary |
| Screen.StepPreservesInv | src/components/HotelBookingForm.tsx:72-77 | every event keeps each confirmation card an admissible booking of at least one night whose email passed both checks |
| Screen.RunPreservesInv | src/components/HotelBookingForm.tsx:72-77 | the same holds after any sequence of events |
| Screen.ConfirmedTotal | src/components/HotelBookingForm.tsx:83-84 | after any run from the initial page, the confirmed total is positive exactly when the room type is in the catalog |
| Scenarios.DeluxeThreeNights | src/components/HotelBookingForm.tsx:52-84 | deluxe from 10 to 13 March 2025 validates, is 3 nights, and totals 450 both as estimate and as confirmation |
| Scenarios.SameDayRejected | src/components/HotelBookingForm.tsx:41-44 | the same date for check-in and check-out is rejected with the date-range error on `checkOut` |
| Scenarios.SuiteOneNight | src/components/HotelBookingForm.tsx:277-288 | a suite from today to tomorrow is selectable, is 1 night, and totals 250 both as estimate and as confirmation |
| Scenarios.UnknownRoomTypeConfirmedAtZero | src/components/HotelBookingForm.tsx:84 | a non-catalog room type passes validation, shows no estimate, and is confirmed at 0 |
| Scenarios.BookThenMakeAnother | src/components/HotelBookingForm.tsx:76-125 | filling in admissible values and submitting shows a card holding exactly those five values plus their nights (at least 1); "Make Another Booking" then returns to the form with those values |
| Scenarios.MalformedEmailHidesNameError | src/components/HotelBookingForm.tsx:141-168 | submitting an empty name with "not-an-email" leaves the form without errors although the schema would report the name as required |

## Left out

- The email grammar of the schema library is not visible in the repository. `Validate` takes it as a parameter `isEmail: string -> bool`.
- Time zones, daylight saving and display formatting of dates are not modelled. `StartOfDay` uses a fixed offset from UTC; `format(…, "PPP")` is left out.
- Pricing.NightsWholeDays: holds only because every local day in the model lasts exactly `DayMs`. On the day daylight saving ends, a local day lasts 25 hours. A midnight-to-midnight stay of k days across that change then gives `Math.ceil` k + 1 nights, and across its start it gives k. Scenarios.SuiteOneNight ("today to tomorrow is 1 night") depends on the same assumption.
- Pricing.Nights: the quotient is exact. The source divides in floating point; that rounding is not modelled.
- Names are sequences of characters. The source counts UTF-16 code units, so a name with characters outside the Basic Multilingual Plane is measured differently.
- The form library's plumbing is left out: `useForm`, the resolver, `watch`, the React state hooks, and all JSX rendering.
- Screen.Step: the browser's email grammar is a parameter (`EmailChecks.browser`); it is not written out. To reach the confirmation card, an email must pass both this check and the schema's.
- Screen.Step: re-validation on each change after any submit is not modelled. On an edit, the last submit's errors stay as they were.
- Screen.Step: an edit may put any values into the form. The room-type select only offers the three catalog identifiers and the pickers only offer enabled dates. So the model's runs include forms the user cannot produce, such as a non-catalog room type. The invariant lemmas hold for all these runs. ConfirmedTotal and Scenarios.UnknownRoomTypeConfirmedAtZero describe what the code would do with such values, not something a user can reach through the form.
- `src/components/Header.tsx` is not part of this model. It only compares the router path for highlighting.
- `src/pages/HoldQueue.tsx`, `CatalogSearch.tsx`, `Inventory.tsx`, `Analytics.tsx` and `MissingItems.tsx` are not part of this model. They only render hard-coded mock data.
