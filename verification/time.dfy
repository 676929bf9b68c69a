/** Calendar time as integer millisecond timestamps. */
module Time {

  /** Milliseconds in one day, the divisor `1000 * 60 * 60 * 24` of the booking form. */
  const DayMs: int := 1000 * 60 * 60 * 24

  /** A timestamp that falls on local midnight for a zone `offset` milliseconds
      ahead of the epoch's zone. */
  predicate IsMidnight(t: int, offset: int) {
    (t + offset) % DayMs == 0
  }

  /** `today` of the booking form: the current instant with its local time of day
      set to zero (`setHours(0, 0, 0, 0)`). */
  function StartOfDay(now: int, offset: int): (today: int)
    ensures IsMidnight(today, offset)
    ensures today <= now < today + DayMs
  {
    now - (now + offset) % DayMs
  }

  /** Two midnights of the same zone are a whole number of days apart. */
  lemma MidnightsWholeDaysApart(m: int, m': int, offset: int)
    requires IsMidnight(m, offset) && IsMidnight(m', offset)
    requires m < m'
    ensures m + DayMs <= m'
  {
    var q := (m + offset) / DayMs;
    var q' := (m' + offset) / DayMs;
    assert m + offset == DayMs * q;
    assert m' + offset == DayMs * q';
    assert q < q';
  }

  /** StartOfDay picks the latest midnight not after `now`. */
  lemma StartOfDayIsLatestMidnight(now: int, offset: int, m: int)
    requires IsMidnight(m, offset) && m <= now
    ensures m <= StartOfDay(now, offset)
  {
    var today := StartOfDay(now, offset);
    if m > today {
      MidnightsWholeDaysApart(today, m, offset);
    }
  }

  /** The midnight bracketing `now` is unique, so StartOfDay is determined by it. */
  lemma StartOfDayUnique(now: int, offset: int, m: int)
    requires IsMidnight(m, offset) && m <= now < m + DayMs
    ensures StartOfDay(now, offset) == m
  {
    var today := StartOfDay(now, offset);
    StartOfDayIsLatestMidnight(now, offset, m);
    if m < today {
      MidnightsWholeDaysApart(m, today, offset);
    }
  }

  /** Normalising an already normalised `today` changes nothing. */
  lemma StartOfDayIdempotent(now: int, offset: int)
    ensures StartOfDay(StartOfDay(now, offset), offset) == StartOfDay(now, offset)
  {
    var today := StartOfDay(now, offset);
    StartOfDayUnique(today, offset, today);
  }
}
