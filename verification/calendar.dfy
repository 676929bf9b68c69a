/** The date pickers' `disabled` callbacks, as pure predicates of the candidate
    date, `today` and the currently picked check-in date. */
module Calendar {
  import opened Wrappers
  import opened Time
  import opened Validation

  /** The check-in picker grays out every date before today's midnight. */
  predicate CheckInDisabled(date: int, today: int) {
    date < today
  }

  /** The check-out picker grays out dates before today and, once a check-in is
      picked, every date on or before it. */
  predicate CheckOutDisabled(date: int, today: int, checkIn: Option<int>)
    ensures !CheckOutDisabled(date, today, checkIn) ==> today <= date
    ensures !CheckOutDisabled(date, today, checkIn) && checkIn.Some? ==> checkIn.value < date
  {
    if date < today then true
    else if checkIn.Some? then date <= checkIn.value
    else false
  }

  /** The check-out picker is at least as strict as the check-in picker, and
      exactly as strict while no check-in is picked. */
  lemma CheckOutStricterThanCheckIn(date: int, today: int, checkIn: Option<int>)
    ensures CheckInDisabled(date, today) ==> CheckOutDisabled(date, today, checkIn)
    ensures CheckOutDisabled(date, today, None) <==> CheckInDisabled(date, today)
  {
  }

  /** With `today` normalised to local midnight, a day (given by its midnight)
      is grayed out for check-in exactly when it has already ended at `now`;
      the current day stays selectable. */
  lemma CheckInDisablesEndedDays(now: int, offset: int, day: int)
    requires IsMidnight(day, offset)
    ensures CheckInDisabled(day, StartOfDay(now, offset)) <==> day + DayMs <= now
  {
    var today := StartOfDay(now, offset);
    if day < today {
      MidnightsWholeDaysApart(day, today, offset);
    }
  }

  /** Once a check-in date the picker allows is chosen, a check-out date is
      selectable exactly when it is strictly later. */
  lemma CheckOutEnabledIffAfterCheckIn(date: int, today: int, checkIn: int)
    requires !CheckInDisabled(checkIn, today)
    ensures !CheckOutDisabled(date, today, Some(checkIn)) <==> checkIn < date
  {
  }

  /** The check-out picker and the schema's cross-field rule agree: with both
      dates picked and the check-in allowed, the check-out field is free of
      errors exactly when the picker allows the check-out date. */
  lemma CalendarAgreesWithRangeRule(raw: RawForm, isEmail: string -> bool, today: int)
    requires raw.checkIn.Some? && raw.checkOut.Some?
    requires !CheckInDisabled(raw.checkIn.value, today)
    ensures !CheckOutDisabled(raw.checkOut.value, today, raw.checkIn)
            <==> CheckOut !in Errors(raw, isEmail)
  {
    CheckOutRule(raw, isEmail);
  }

  /** The agreement needs the allowed check-in: a pair of past dates in the
      right order passes the range rule although both pickers gray them out. */
  lemma PastDatesPassRangeRule(raw: RawForm, isEmail: string -> bool, today: int)
    requires raw.checkIn.Some? && raw.checkOut.Some?
    requires raw.checkIn.value < raw.checkOut.value < today
    ensures CheckInDisabled(raw.checkIn.value, today)
    ensures CheckOutDisabled(raw.checkOut.value, today, raw.checkIn)
    ensures CheckOut !in Errors(raw, isEmail)
  {
    CheckOutRule(raw, isEmail);
  }
}
