/** The booking schema: five field rules plus the cross-field rule that the
    check-out date lies strictly after the check-in date. */
module Validation {
  import opened Wrappers

  /** The form's fields, which are also the paths errors are attached to. */
  datatype Field = Name | Email | CheckIn | CheckOut | Room

  const AllFields: set<Field> := {Name, Email, CheckIn, CheckOut, Room}

  /** One schema violation. Each carries the field it is reported on and the
      message the form shows for it. */
  datatype Issue =
    | NameRequired
    | NameTooLong
    | InvalidEmail
    | CheckInRequired
    | CheckOutRequired
    | RoomTypeRequired
    | CheckOutNotAfterCheckIn
  {
    function Path(): Field {
      match this
      case NameRequired | NameTooLong => Name
      case InvalidEmail => Email
      case CheckInRequired => CheckIn
      case CheckOutRequired | CheckOutNotAfterCheckIn => CheckOut
      case RoomTypeRequired => Room
    }

    function Message(): string {
      match this
      case NameRequired => "Name is required"
      case NameTooLong => "Name too long"
      case InvalidEmail => "Invalid email address"
      case CheckInRequired => "Check-in date is required"
      case CheckOutRequired => "Check-out date is required"
      case RoomTypeRequired => "Please select a room type"
      case CheckOutNotAfterCheckIn => "Check-out date must be after check-in date"
    }
  }

  /** Each message names exactly one issue, so the message shown under a field
      tells which rule failed. */
  lemma MessagesDistinct(i: Issue, j: Issue)
    requires i != j
    ensures i.Message() != j.Message()
  {
  }

  /** At most one error per field: the field rules never raise two issues on one
      field, and the cross-field rule only runs once both dates are present. */
  type FieldErrors = map<Field, Issue>

  const MaxNameLength: int := 100

  /** A snapshot of the form while editing; an unpicked date is None. */
  datatype RawForm = RawForm(name: string, email: string, checkIn: Option<int>,
                             checkOut: Option<int>, roomType: string)

  /** The form's default values. */
  const EmptyForm: RawForm := RawForm("", "", None, None, "")

  /** A booking that passed the schema; dates are millisecond timestamps. */
  datatype Booking = Booking(name: string, email: string, checkIn: int,
                             checkOut: int, roomType: string)

  /** The issue the per-field rule of `f` raises, if any. */
  function FieldIssue(raw: RawForm, isEmail: string -> bool, f: Field): (r: Option<Issue>)
    ensures r.Some? ==> r.value.Path() == f && r.value != CheckOutNotAfterCheckIn
  {
    match f
    case Name =>
      if |raw.name| < 1 then Some(NameRequired)
      else if |raw.name| > MaxNameLength then Some(NameTooLong)
      else None
    case Email => if isEmail(raw.email) then None else Some(InvalidEmail)
    case CheckIn => if raw.checkIn.None? then Some(CheckInRequired) else None
    case CheckOut => if raw.checkOut.None? then Some(CheckOutRequired) else None
    case Room => if |raw.roomType| < 1 then Some(RoomTypeRequired) else None
  }

  /** The cross-field rule. It only runs when both dates are present (a missing
      date aborts the object before the refinement), and reports on `checkOut`. */
  function RangeIssue(raw: RawForm): (r: Option<Issue>)
    ensures r.Some? ==> r.value == CheckOutNotAfterCheckIn && raw.checkIn.Some? && raw.checkOut.Some?
  {
    if raw.checkIn.Some? && raw.checkOut.Some? && !(raw.checkOut.value > raw.checkIn.value)
    then Some(CheckOutNotAfterCheckIn)
    else None
  }

  /** Every issue of the submitted snapshot, keyed by the field it is shown on. */
  function Errors(raw: RawForm, isEmail: string -> bool): (errors: FieldErrors)
    ensures forall f :: f in errors ==> errors[f].Path() == f
    ensures errors.Keys <= AllFields
  {
    var fieldErrors := map f | f in AllFields && FieldIssue(raw, isEmail, f).Some? ::
                         FieldIssue(raw, isEmail, f).value;
    match RangeIssue(raw)
    case Some(issue) => fieldErrors[issue.Path() := issue]
    case None => fieldErrors
  }

  /** The schema's acceptance condition, field by field. */
  predicate Admissible(raw: RawForm, isEmail: string -> bool) {
    && 1 <= |raw.name| <= MaxNameLength
    && isEmail(raw.email)
    && raw.checkIn.Some?
    && raw.checkOut.Some?
    && raw.checkIn.value < raw.checkOut.value
    && |raw.roomType| >= 1
  }

  /** Runs the schema: either the typed booking, carrying the submitted values
      unchanged, or the non-empty error map; never both. */
  function Validate(raw: RawForm, isEmail: string -> bool): (r: Result<Booking, FieldErrors>)
    ensures r.Success? <==> Admissible(raw, isEmail)
    ensures r.Success? ==> r.value == Booking(raw.name, raw.email, raw.checkIn.value,
                                              raw.checkOut.value, raw.roomType)
    ensures r.Success? ==> 1 <= |r.value.name| <= MaxNameLength && r.value.checkIn < r.value.checkOut
    ensures r.Failure? ==> r.error == Errors(raw, isEmail) && r.error != map[]
  {
    ErrorsDomain(raw, isEmail);
    var errors := Errors(raw, isEmail);
    if errors == map[] then
      assert Name !in errors && Email !in errors && CheckIn !in errors
             && CheckOut !in errors && Room !in errors;
      Success(Booking(raw.name, raw.email, raw.checkIn.value, raw.checkOut.value, raw.roomType))
    else
      var f :| f in errors;
      assert FieldIssue(raw, isEmail, f).Some? || RangeIssue(raw).Some?;
      Failure(errors)
  }

  /** A field carries an error exactly when its own rule, or for `checkOut` the
      cross-field rule, raises one. */
  lemma ErrorsDomain(raw: RawForm, isEmail: string -> bool)
    ensures forall f :: f in Errors(raw, isEmail) <==>
      FieldIssue(raw, isEmail, f).Some? || (f == CheckOut && RangeIssue(raw).Some?)
  {
    forall f: Field ensures f in AllFields {
      match f
      case Name =>
      case Email =>
      case CheckIn =>
      case CheckOut =>
      case Room =>
    }
  }

  /** Whenever the cross-field rule fails, `checkOut` shows the date-range
      error, whatever the other fields hold. */
  lemma ErrorsOnOwnPath(raw: RawForm, isEmail: string -> bool)
    ensures RangeIssue(raw).Some? ==> Errors(raw, isEmail)[CheckOut] == CheckOutNotAfterCheckIn
  {
  }

  /** The name rule: an empty name is "required", more than 100 characters is
      "too long", and anything in between raises nothing on `name`. */
  lemma NameRule(raw: RawForm, isEmail: string -> bool)
    ensures Name !in Errors(raw, isEmail) <==> 1 <= |raw.name| <= MaxNameLength
    ensures |raw.name| == 0 ==> Errors(raw, isEmail)[Name] == NameRequired
    ensures |raw.name| > MaxNameLength ==> Errors(raw, isEmail)[Name] == NameTooLong
  {
    assert Name in AllFields;
  }

  /** The email, check-in and room-type rules; the room type is only required
      to be non-empty, so an identifier outside the catalog passes. */
  lemma OtherFieldRules(raw: RawForm, isEmail: string -> bool)
    ensures Email !in Errors(raw, isEmail) <==> isEmail(raw.email)
    ensures CheckIn !in Errors(raw, isEmail) <==> raw.checkIn.Some?
    ensures Room !in Errors(raw, isEmail) <==> |raw.roomType| >= 1
    ensures Email in Errors(raw, isEmail) ==> Errors(raw, isEmail)[Email] == InvalidEmail
    ensures CheckIn in Errors(raw, isEmail) ==> Errors(raw, isEmail)[CheckIn] == CheckInRequired
    ensures Room in Errors(raw, isEmail) ==> Errors(raw, isEmail)[Room] == RoomTypeRequired
  {
    assert Email in AllFields && CheckIn in AllFields && Room in AllFields;
  }

  /** The check-out field: "required" when unpicked; with both dates picked, the
      date-range error appears exactly when check-out is not strictly later. */
  lemma CheckOutRule(raw: RawForm, isEmail: string -> bool)
    ensures raw.checkOut.None? ==> Errors(raw, isEmail)[CheckOut] == CheckOutRequired
    ensures raw.checkIn.None? && raw.checkOut.Some? ==> CheckOut !in Errors(raw, isEmail)
    ensures raw.checkIn.Some? && raw.checkOut.Some? ==>
      (CheckOut !in Errors(raw, isEmail) <==> raw.checkIn.value < raw.checkOut.value)
    ensures raw.checkIn.Some? && raw.checkOut.Some? && raw.checkOut.value <= raw.checkIn.value ==>
      Errors(raw, isEmail)[CheckOut] == CheckOutNotAfterCheckIn
  {
    assert CheckOut in AllFields;
  }

  /** Every field rule runs: a snapshot with several bad fields reports all of
      them at once, e.g. the untouched default form reports all five. */
  lemma EmptyFormReportsEveryField(isEmail: string -> bool)
    requires !isEmail("")
    ensures Errors(EmptyForm, isEmail) == map[Name := NameRequired, Email := InvalidEmail,
                                              CheckIn := CheckInRequired, CheckOut := CheckOutRequired,
                                              Room := RoomTypeRequired]
  {
    var errors := Errors(EmptyForm, isEmail);
    NameRule(EmptyForm, isEmail);
    OtherFieldRules(EmptyForm, isEmail);
    CheckOutRule(EmptyForm, isEmail);
    assert errors.Keys == AllFields;
  }
}
